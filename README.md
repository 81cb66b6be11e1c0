# SrivasConfig scnfg: a Dafny model of the configuration core

SrivasConfig keeps a configuration in memory and writes it as a "scnfg" text
document. This project models the four classes that do this and proves
properties of the model.

- **Property**: an id and a value, plus an ordered list of advisory valid
  values. It renders as one property line: `<id:value>`, or
  `<id:value[v1,...,vn]>` when there are valid values.
- **PropertyContainer**: an ordered list of properties keyed by id. It has add,
  remove and retrieve operations, and renders every property line indented by
  a given number of spaces (`moreSpaces`).
- **Module**: a named container. The `{name}` header and `{name:end}` footer
  are derived from a name that has its spaces stripped.
- **Configuration**: the root container. It holds root properties and an
  ordered list of modules. It renders the whole document between
  `{SrivasConfig-scnfg-version:1.0}` and `{scnfg:end}`.

The model is split into these modules:

- `Text` (`text.dfy`): space stripping, indentation, separator-terminated
  and separator-joined lists, splitting at a separator, and first-match
  search and deletion.
- `Properties` (`property.dfy`): the `PropertyData` value, the `PropertyLine`
  rendering, and the `Property` class.
- `Containers` (`property_container.dfy`): the `Indented` and
  `PropertyLines` renderings and the `PropertyContainer` class.
- `Modules` (`module.dfy`): `ModuleData`, the `ModuleText` and `ModuleLines`
  renderings, and the `Module` class.
- `Configurations` (`configuration.dfy`): `ConfigData`, the `DocumentText` and
  `DocumentLines` renderings, and the `Configuration` class.
- `Scenario` (`scenario.dfy`): the `Debugger` demo's calls replayed through
  the model's methods, the configuration they build, and the exact document
  it renders to.

Each class is a Dafny `class` with the Java fields. Each method changes those
fields step by step, as the Java code does. A ghost `Data()` or `Items()`
function takes a snapshot of an object graph as a value. Each method is proved
against a pure function over that value: for example, `ToString` equals
`DocumentText(Data())`. The properties of the format are then proved as
lemmas about those functions. The main ones are:

- splitting the document at line breaks gives back its header, its
  indented property lines in insertion order, its module blocks and its
  footer;
- the document's framing;
- the shape of the empty document;
- how the add and remove operations keep ids and names distinct.

In Java, `Module` and `Configuration` extend `PropertyContainer`. In the model,
each of them owns one `PropertyContainer` object instead: `Module.props` and
`Configuration.root`. Because a Java module and a Java configuration each are
their own container, `Configuration.Valid` requires the root's container and
every module's container to be distinct objects, alongside each module's header
and footer matching its name. The inherited `addProperty` on a configuration is
`Configuration.AddRootProperty`.

Java's `String.format` receives the rendered text as its format string and
turns each `%n` into a line separator. The model writes the separator as the
constant `NL` (a line feed). Its rendering methods require that no rendered
field contains `%` (`FormatSafe`). Under that condition, `String.format`
changes nothing but `%n`.

## Model

| member | source | states |
|---|---|---|
| Text.StripSpaces | java/SrivasConfig/src/main/java/org/akprogdevs/sconfig/classes/Property.java:63 | `replaceAll(" ", "")` leaves no space and never lengthens the string |
| Text.StripSpacesAppend | java/SrivasConfig/src/main/java/org/akprogdevs/sconfig/classes/Property.java:63 | stripping works piece by piece, so the surviving characters keep their order |
| Text.StripSpacesKeepsOthers | java/SrivasConfig/src/main/java/org/akprogdevs/sconfig/classes/Property.java:63 | every character other than a space occurs as often after stripping as before |
| Text.StripSpacesOfSpaceFree | java/SrivasConfig/src/main/java/org/akprogdevs/sconfig/classes/Property.java:63 | a string without spaces is left unchanged, so stripping is idempotent |
| Text.Spaces | java/SrivasConfig/src/main/java/org/akprogdevs/sconfig/classes/PropertyContainer.java:165-168 | the indentation is exactly `n` spaces, or none when `n` is not positive |
| Text.JoinAsTerminated | java/SrivasConfig/src/main/java/org/akprogdevs/sconfig/classes/Property.java:179-188 | a comma after each value but the last is the values joined by commas |
| Text.SplitJoin | java/SrivasConfig/src/main/java/org/akprogdevs/sconfig/classes/Property.java:177-190 | splitting at the separator undoes joining, when no element holds the separator |
| Text.IndexOf | java/SrivasConfig/src/main/java/org/akprogdevs/sconfig/classes/Property.java:144-149 | the forward search finds the first equal element, or reports that there is none |
| Text.DeleteFirstMatch | java/SrivasConfig/src/main/java/org/akprogdevs/sconfig/classes/Property.java:142-153 | deleting at the first match removes exactly one occurrence when there is one, changes nothing otherwise, and keeps the other elements in order |
| Properties.PropertyLineIsOneLine | java/SrivasConfig/src/main/java/org/akprogdevs/sconfig/classes/Property.java:170-193 | a property whose fields hold no line break renders as a single line |
| Properties.ValidValuesRecoverable | java/SrivasConfig/src/main/java/org/akprogdevs/sconfig/classes/Property.java:177-190 | when no valid value holds a comma, the segment between `[` and `]>` of the line splits at its commas into exactly the valid values, in order |
| Properties.Property.constructor | java/SrivasConfig/src/main/java/org/akprogdevs/sconfig/classes/Property.java:26-31 | the id is stored without its spaces, the value as given, and there are no valid values |
| Properties.Property.WithValidValues | java/SrivasConfig/src/main/java/org/akprogdevs/sconfig/classes/Property.java:40-45 | as above, and the valid values are the array's elements in order |
| Properties.Property.GetID | java/SrivasConfig/src/main/java/org/akprogdevs/sconfig/classes/Property.java:52-54 | returns exactly the stored id, which has no spaces: every constructor and `SetID` establish `Property.Valid` (no space in the id) |
| Properties.Property.SetID | java/SrivasConfig/src/main/java/org/akprogdevs/sconfig/classes/Property.java:61-64 | the stored id is the argument without its spaces, so the property is valid |
| Properties.Property.GetValue | java/SrivasConfig/src/main/java/org/akprogdevs/sconfig/classes/Property.java:71-73 | returns exactly the stored value |
| Properties.Property.SetValue | java/SrivasConfig/src/main/java/org/akprogdevs/sconfig/classes/Property.java:79-81 | stores the value unchanged |
| Properties.Property.GetValidValues | java/SrivasConfig/src/main/java/org/akprogdevs/sconfig/classes/Property.java:87-97 | a fresh array with the same valid values in the same order |
| Properties.Property.SetValidValues | java/SrivasConfig/src/main/java/org/akprogdevs/sconfig/classes/Property.java:105-112 | the list becomes exactly the array's elements, in order, duplicates kept |
| Properties.Property.AddValidValue | java/SrivasConfig/src/main/java/org/akprogdevs/sconfig/classes/Property.java:122-133 | returns true exactly when the value was absent; it is then appended, otherwise the list is unchanged |
| Properties.Property.RemoveValidValue | java/SrivasConfig/src/main/java/org/akprogdevs/sconfig/classes/Property.java:142-153 | returns true exactly when the value was present; the list loses its first equal element and nothing else |
| Properties.Property.ClearValidValues | java/SrivasConfig/src/main/java/org/akprogdevs/sconfig/classes/Property.java:159-161 | leaves no valid values |
| Properties.Property.ToString | java/SrivasConfig/src/main/java/org/akprogdevs/sconfig/classes/Property.java:170-193 | `<id:value>` without valid values, otherwise `<id:value[` followed by the values joined by commas and then `]>` |
| Containers.AppendKeepsIdsDistinct | java/SrivasConfig/src/main/java/org/akprogdevs/sconfig/classes/PropertyContainer.java:49-61 | `addExistingProperty`, which compares the stored form of the id, keeps the ids distinct |
| Containers.AddPropertyKeepsIdsDistinct | java/SrivasConfig/src/main/java/org/akprogdevs/sconfig/classes/PropertyContainer.java:28-40 | `addProperty` with an id that has no spaces keeps the ids distinct |
| Containers.AddPropertyWithSpacesDuplicates | java/SrivasConfig/src/main/java/org/akprogdevs/sconfig/classes/PropertyContainer.java:32-38 | `" a"` passes the duplicate check next to a stored `"a"`, and is then stored as a second `"a"` |
| Containers.RemoveKeepsIdsDistinct | java/SrivasConfig/src/main/java/org/akprogdevs/sconfig/classes/PropertyContainer.java:69-82 | removal keeps distinct ids distinct and leaves no property with the removed id |
| Containers.IndentedAsLines | java/SrivasConfig/src/main/java/org/akprogdevs/sconfig/classes/PropertyContainer.java:164-177 | the indented text is each property's indented line followed by a line break, in insertion order |
| Containers.IndentedSplits | java/SrivasConfig/src/main/java/org/akprogdevs/sconfig/classes/PropertyContainer.java:164-177 | split at line breaks, the indented text gives back exactly the property lines, then an empty rest |
| Containers.PropertyContainer.constructor | java/SrivasConfig/src/main/java/org/akprogdevs/sconfig/classes/PropertyContainer.java:11-13 | starts with no properties |
| Containers.PropertyContainer.WithCapacity | java/SrivasConfig/src/main/java/org/akprogdevs/sconfig/classes/PropertyContainer.java:15-17 | starts with no properties, whatever the capacity |
| Containers.PropertyContainer.AddProperty | java/SrivasConfig/src/main/java/org/akprogdevs/sconfig/classes/PropertyContainer.java:28-40 | returns true exactly when no stored id equals the raw argument. If so, one fresh property with the stripped id, the value and no valid values is appended and the earlier entries are untouched; otherwise nothing changes |
| Containers.PropertyContainer.AddExistingProperty | java/SrivasConfig/src/main/java/org/akprogdevs/sconfig/classes/PropertyContainer.java:49-61 | returns true exactly when no stored id equals the property's id. If so, that very object is appended; otherwise nothing changes |
| Containers.PropertyContainer.RemoveProperty | java/SrivasConfig/src/main/java/org/akprogdevs/sconfig/classes/PropertyContainer.java:69-82 | returns true exactly when some stored id matches. The first such property is removed and the rest keep their order; otherwise nothing changes |
| Containers.PropertyContainer.RetrieveExportProperties | java/SrivasConfig/src/main/java/org/akprogdevs/sconfig/classes/PropertyContainer.java:91-109 | a fresh array as long as the list, where element i is property i's line |
| Containers.PropertyContainer.RetrieveProperties | java/SrivasConfig/src/main/java/org/akprogdevs/sconfig/classes/PropertyContainer.java:119-137 | a fresh array with the same property objects in the same order |
| Containers.PropertyContainer.ClearProperties | java/SrivasConfig/src/main/java/org/akprogdevs/sconfig/classes/PropertyContainer.java:151-153 | leaves no properties |
| Containers.PropertyContainer.ToString | java/SrivasConfig/src/main/java/org/akprogdevs/sconfig/classes/PropertyContainer.java:156-158 | is the properties indented by two spaces |
| Containers.PropertyContainer.MoreSpaces | java/SrivasConfig/src/main/java/org/akprogdevs/sconfig/classes/PropertyContainer.java:164-177 | for each property in order, `n` spaces, its line and a line break; empty for an empty container |
| Modules.ModuleTextAsLines | src/org/akprogdevs/sconfig/classes/Module.java:83-97 | the block is its lines, each line but the last followed by a line break |
| Modules.ModuleTextSplits | src/org/akprogdevs/sconfig/classes/Module.java:83-97 | split at line breaks, a block gives back `  {name}`, an empty line, each property line indented by exactly four spaces in insertion order, an empty line if there were properties, and `  {name:end}` |
| Modules.Module.constructor | src/org/akprogdevs/sconfig/classes/Module.java:24-28 | the name is the argument without spaces, header and footer match it, and there are no properties |
| Modules.Module.WithCapacity | src/org/akprogdevs/sconfig/classes/Module.java:36-40 | the same, whatever the capacity |
| Modules.Module.GetHeader | src/org/akprogdevs/sconfig/classes/Module.java:46-48 | is `{` + name + `}` |
| Modules.Module.GetFooter | src/org/akprogdevs/sconfig/classes/Module.java:54-56 | is `{` + name + `:end}` |
| Modules.Module.GetModuleName | src/org/akprogdevs/sconfig/classes/Module.java:63-65 | returns the stored name |
| Modules.Module.SetModuleName | src/org/akprogdevs/sconfig/classes/Module.java:72-75 | the name becomes the argument without spaces, header and footer follow it, and the properties are untouched |
| Modules.Module.UpdateModuleIdentifier | src/org/akprogdevs/sconfig/classes/Module.java:100-103 | header and footer are rebuilt from the current name |
| Modules.Module.ToString | src/org/akprogdevs/sconfig/classes/Module.java:83-97 | the block of the module's current name and properties: without properties there is no property section, otherwise the properties are indented by four spaces |
| Configurations.AddModuleKeepsNamesDistinct | java/SrivasConfig/src/main/java/org/akprogdevs/sconfig/classes/Configuration.java:51-64 | `addModule` with a name that has no spaces keeps the module names distinct |
| Configurations.RemoveKeepsNamesDistinct | java/SrivasConfig/src/main/java/org/akprogdevs/sconfig/classes/Configuration.java:76-89 | removal keeps distinct names distinct and leaves no module with the removed name |
| Configurations.BlocksAsLines | java/SrivasConfig/src/main/java/org/akprogdevs/sconfig/classes/Configuration.java:167-172 | the module section is each block's lines followed by an empty line, in order |
| Configurations.DocumentTextAsLines | java/SrivasConfig/src/main/java/org/akprogdevs/sconfig/classes/Configuration.java:155-179 | the document is its lines before the footer, each followed by a line break, and then the footer |
| Configurations.DocumentSplits | java/SrivasConfig/src/main/java/org/akprogdevs/sconfig/classes/Configuration.java:155-179 | split at line breaks, the document gives back the header, an empty line, the root property lines indented by two spaces, an empty line, each module's lines and an empty line, then an empty line and the footer |
| Configurations.DocumentIsJoin | java/SrivasConfig/src/main/java/org/akprogdevs/sconfig/classes/Configuration.java:155-179 | the document is exactly its lines joined by line breaks |
| Configurations.DocumentFramed | java/SrivasConfig/src/main/java/org/akprogdevs/sconfig/classes/Configuration.java:155-179 | every document starts with `{SrivasConfig-scnfg-version:1.0}` and two line breaks, and ends with a line break and `{scnfg:end}` |
| Configurations.EmptyDocument | java/SrivasConfig/src/main/java/org/akprogdevs/sconfig/classes/Configuration.java:155-179 | a configuration with no properties and no modules renders as the header, four line breaks and the footer |
| Configurations.FramingLines | java/SrivasConfig/src/main/java/org/akprogdevs/sconfig/classes/Configuration.java:15-18 | the header is `{SrivasConfig-scnfg-version:1.0}` and the footer `{scnfg:end}`; neither holds a line break, so each splits to exactly one line |
| Configurations.Configuration.constructor | java/SrivasConfig/src/main/java/org/akprogdevs/sconfig/classes/Configuration.java:27-30 | starts with no root properties and no modules |
| Configurations.Configuration.WithCapacity | java/SrivasConfig/src/main/java/org/akprogdevs/sconfig/classes/Configuration.java:38-41 | the same, whatever the capacities |
| Configurations.Configuration.AddRootProperty | java/SrivasConfig/src/main/java/org/akprogdevs/sconfig/classes/PropertyContainer.java:28-40 | the inherited `addProperty` on a configuration: the root properties change exactly as `PropertyContainer.AddProperty` says, the modules and their properties are untouched, and the configuration stays valid |
| Configurations.Configuration.AddModule | java/SrivasConfig/src/main/java/org/akprogdevs/sconfig/classes/Configuration.java:51-64 | returns true exactly when no module name equals the raw argument. If so, one fresh, empty module with the stripped name is appended and the rest is untouched; otherwise nothing changes |
| Configurations.Configuration.RemoveModule | java/SrivasConfig/src/main/java/org/akprogdevs/sconfig/classes/Configuration.java:76-89 | returns true exactly when some module has that name. The first such module and its properties are removed, the others keep their order and the root properties stay; otherwise nothing changes |
| Configurations.Configuration.RetrieveConfigModules | java/SrivasConfig/src/main/java/org/akprogdevs/sconfig/classes/Configuration.java:98-116 | a fresh array where element i is module i's block |
| Configurations.Configuration.RetrieveModules | java/SrivasConfig/src/main/java/org/akprogdevs/sconfig/classes/Configuration.java:126-145 | a fresh array of the same module objects in order, so changes made through an element are changes to the configuration |
| Configurations.Configuration.ClearModules | java/SrivasConfig/src/main/java/org/akprogdevs/sconfig/classes/Configuration.java:150-152 | leaves no modules and does not touch the root properties |
| Configurations.Configuration.ToString | java/SrivasConfig/src/main/java/org/akprogdevs/sconfig/classes/Configuration.java:155-179 | header, two line breaks, the root properties indented by two spaces, a line break, each module block followed by two line breaks, a line break, and the footer |
| Scenario.NewWithProp1 | src/org/akprogdevs/sconfig/write/Debugger.java:17 | a new configuration after `addProperty("prop1", "val1")` is valid, has no modules and has prop1 as its only root property |
| Scenario.AddTwoModules | src/org/akprogdevs/sconfig/write/Debugger.java:18-19 | `addModule("mod1")` and `addModule("mod2")` append two fresh, empty modules named mod1 and mod2 in that order, keep the configuration valid and leave the root properties alone |
| Scenario.AddToModule | src/org/akprogdevs/sconfig/write/Debugger.java:20-22 | adding through an element of the array `RetrieveModules` returns changes the configuration's own module, as `addProperty` on that module would |
| Scenario.FillFirst | src/org/akprogdevs/sconfig/write/Debugger.java:20-21 | after the two adds through `retrieveModules().get(0)`, the first module holds prop2 and then prop3 |
| Scenario.FillSecond | src/org/akprogdevs/sconfig/write/Debugger.java:22 | after the add through `retrieveModules().get(1)`, the second module holds prop4 |
| Scenario.AddNewRoot | src/org/akprogdevs/sconfig/write/Debugger.java:23-24 | `addProperty` with a new, space-free id appends exactly that property to the root, leaves the modules alone and keeps the configuration valid |
| Scenario.FillRoot | src/org/akprogdevs/sconfig/write/Debugger.java:23-24 | starting from prop1 alone at the root, prop5 and prop6 follow it in that order and the modules are untouched |
| Scenario.Build | src/org/akprogdevs/sconfig/write/Debugger.java:17-24 | the demo's calls, run in their order through the model's methods, leave root properties prop1, prop5, prop6, module mod1 with prop2 and prop3, and module mod2 with prop4 |
| Scenario.Render | src/org/akprogdevs/sconfig/write/Debugger.java:17-28 | the text the demo writes is the document of that configuration |
| Scenario.DebuggerDocument | src/org/akprogdevs/sconfig/write/Debugger.java:17-24 | the demo's configuration renders line for line as the exact expected document |

## Left out

- Writer, Builder and the file writing of the `Debugger` main: file I/O,
  directory creation and the platform charset. `Scenario.Render` stops at the
  text that would be written.
- `ConfigurationBackup.java` and `ModuleBackup.java` are not part of this
  model. They are unreferenced earlier copies.
- `String.format`: it is modelled only on text without `%`. The rendering
  methods require this of every rendered field, because a `%` sequence in a
  field would be read as a format directive.
- The version is a Java `double` with value 1. The model writes its text form,
  `1.0`, as a literal in `HEADER`.
- `%n` is the platform's line separator. The model fixes it as a line feed
  (`NL`).
- The Java `null` checks are not modelled, because the model's lists cannot
  be null. In `Property.toString` (Property.java:172) the `validValues == null`
  test comes first, but the field is never null: it is initialised at
  Property.java:18 and `clearValidValues` assigns a new list (Property.java:160).
  The `properties == null` and `modules == null` tests in the container and
  configuration run only after `size()` has been called on the same field.
- `PropertyContainer.setProperties` (PropertyContainer.java:144-146) is not
  modelled. It installs a caller's list object, which would make the list
  shared, and the model's container holds a `seq`.
- List capacities have no visible effect and are only parameters.
  Negative capacities make Java throw, so the parameters are `nat`.
- `ArrayList` fields are `seq` fields that the methods reassign. The
  `retrieve...` methods that return a fresh `ArrayList` return a fresh array
  instead.
- Containers.PropertyContainer.AddProperty and
  Configurations.Configuration.AddModule compare the raw argument with names
  that were stored space-stripped, as the Java code does. So "no duplicate
  ids" is proved only for arguments without spaces.
  `AddPropertyWithSpacesDuplicates` shows the duplicate that arises
  otherwise.
- There is no parser and no escaping, so there is no text-to-configuration
  round trip. `DocumentSplits` recovers the lines of a document whose fields
  hold no line break. It does not recover the fields themselves.
