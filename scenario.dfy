/** The configuration that the project's `Debugger` demo builds, and the exact
    document the model renders for it. */
module Scenario {
  import opened Text
  import opened Properties
  import opened Containers
  import opened Modules
  import opened Configurations

  function Prop(id: string, value: string): PropertyData
  {
    PropertyData(id, value, [])
  }

  /** The state after Debugger.java:18-24: root properties prop1, prop5, prop6;
      module mod1 with prop2 and prop3; module mod2 with prop4. */
  function DebuggerData(): ConfigData
  {
    ConfigData([Prop("prop1", "val1"), Prop("prop5", "val5"), Prop("prop6", "val6")],
               [ModuleData("mod1", [Prop("prop2", "val2"), Prop("prop3", "val3")]),
                ModuleData("mod2", [Prop("prop4", "val4")])])
  }

  /** The root is indented by two spaces and a module's properties by four; an
      indented property without valid values is the indent and `<id:value>`,
      spelled out here as `line`. */
  lemma IndentedLine(n: nat, id: string, value: string, line: string)
    requires n == 2 || n == 4
    requires line == (if n == 2 then "  " else "    ") + "<" + id + ":" + value + ">"
    ensures Spaces(n) + PropertyLine(Prop(id, value)) == line
  {
    assert Spaces(2) == "  ";
    assert Spaces(4) == "    ";
    var pre := "<" + id + ":" + value;
    assert PropertyLine(Prop(id, value)) == pre + "" + ">";
    assert pre + "" == pre;
  }

  lemma ModuleFraming()
    ensures "  " + Header("mod1") == "  {mod1}" && "  " + Footer("mod1") == "  {mod1:end}"
    ensures "  " + Header("mod2") == "  {mod2}" && "  " + Footer("mod2") == "  {mod2:end}"
  {
  }

  lemma RootLines()
    ensures PropertyLines(DebuggerData().properties, 2)
         == ["  <prop1:val1>", "  <prop5:val5>", "  <prop6:val6>"]
  {
    IndentedLine(2, "prop1", "val1", "  <prop1:val1>");
    IndentedLine(2, "prop5", "val5", "  <prop5:val5>");
    IndentedLine(2, "prop6", "val6", "  <prop6:val6>");
  }

  lemma Mod1Lines()
    ensures ModuleLines(DebuggerData().modules[0])
         == ["  {mod1}", "", "    <prop2:val2>", "    <prop3:val3>", "", "  {mod1:end}"]
  {
    IndentedLine(4, "prop2", "val2", "    <prop2:val2>");
    IndentedLine(4, "prop3", "val3", "    <prop3:val3>");
    ModuleFraming();
    assert PropertyLines(DebuggerData().modules[0].properties, 4) == ["    <prop2:val2>", "    <prop3:val3>"];
  }

  lemma Mod2Lines()
    ensures ModuleLines(DebuggerData().modules[1])
         == ["  {mod2}", "", "    <prop4:val4>", "", "  {mod2:end}"]
  {
    IndentedLine(4, "prop4", "val4", "    <prop4:val4>");
    ModuleFraming();
    assert PropertyLines(DebuggerData().modules[1].properties, 4) == ["    <prop4:val4>"];
  }

  lemma TwoBlocks(a: ModuleData, b: ModuleData)
    ensures BlockLines([a, b]) == ModuleLines(a) + [""] + ModuleLines(b) + [""]
  {
    assert [a, b][..1] == [a];
    assert [a][..0] == [];
    assert BlockLines([a]) == ModuleLines(a) + [""];
  }

  /** The document the demo writes, line by line: the header and a blank line,
      the root properties, a blank line, each module block and a blank line,
      then a blank line and the footer. */
  lemma DebuggerDocument()
    ensures DocumentText(DebuggerData()) == Join(DocumentLines(DebuggerData()), '\n')
    ensures DocumentLines(DebuggerData())
         == ["{SrivasConfig-scnfg-version:1.0}", ""]
          + ["  <prop1:val1>", "  <prop5:val5>", "  <prop6:val6>"] + [""]
          + (["  {mod1}", "", "    <prop2:val2>", "    <prop3:val3>", "", "  {mod1:end}"] + [""]
           + ["  {mod2}", "", "    <prop4:val4>", "", "  {mod2:end}"] + [""])
          + ["", "{scnfg:end}"]
  {
    var d := DebuggerData();
    DocumentIsJoin(d);
    RootLines();
    Mod1Lines();
    Mod2Lines();
    TwoBlocks(d.modules[0], d.modules[1]);
  }

  /** A configuration whose modules are `m1` and `m2` has their values as its modules. */
  lemma DataOfTwo(c: Configuration, m1: Module, m2: Module)
    requires c.modules == [m1, m2]
    ensures c.Data() == ConfigData(c.root.Items(), [m1.Data(), m2.Data()])
  {
    var ms := ModulesData(c.modules);
    assert ms[0] == m1.Data() && ms[1] == m2.Data();
  }

  /** Debugger.java:17: prop1 at the root of a new configuration. */
  method NewWithProp1() returns (c: Configuration)
    ensures c.Valid() && fresh(c.root) && c.modules == []
    ensures c.Data().properties == [Prop("prop1", "val1")]
  {
    StripSpacesOfSpaceFree("prop1");
    c := new Configuration();
    var ok := c.AddRootProperty("prop1", "val1");
  }

  /** Debugger.java:18-19: the modules mod1 and mod2, both empty; the root
      properties stay as they are. */
  method AddTwoModules(c: Configuration)
    requires c.Valid() && c.modules == []
    modifies c`modules
    ensures c.Valid() && c.Data().properties == old(c.Data().properties)
    ensures |c.modules| == 2
    ensures c.modules[0].moduleName == "mod1" && c.modules[1].moduleName == "mod2"
    ensures c.modules[0].props.properties == [] && c.modules[1].props.properties == []
    ensures fresh(c.modules[0].props) && fresh(c.modules[1].props)
  {
    StripSpacesOfSpaceFree("mod1");
    StripSpacesOfSpaceFree("mod2");
    var ok := c.AddModule("mod1");
    ok := c.AddModule("mod2");
  }

  /** `conf.retrieveModules().get(k).addProperty(id, value)`: the property goes into
      the configuration's own `k`-th module. */
  method AddToModule(c: Configuration, k: nat, id: string, value: string) returns (added: bool)
    requires k < |c.modules|
    modifies c.modules[k].props
    ensures added == (id !in IdsOf(old(c.modules[k].props.Items())))
    ensures c.modules[k].props.Items()
         == if added then old(c.modules[k].props.Items()) + [PropertyData(StripSpaces(id), value, [])]
            else old(c.modules[k].props.Items())
  {
    var l := c.RetrieveModules();
    added := l[k].props.AddProperty(id, value);
  }

  /** Debugger.java:20-21: prop2 and prop3 into the first module, each through
      the array `RetrieveModules` returns. */
  method FillFirst(c: Configuration)
    requires |c.modules| == 2 && c.modules[0].props.properties == []
    modifies c.modules[0].props
    ensures c.modules[0].props.Items() == [Prop("prop2", "val2"), Prop("prop3", "val3")]
  {
    StripSpacesOfSpaceFree("prop2");
    StripSpacesOfSpaceFree("prop3");
    ghost var p := c.modules[0].props;
    var ok := AddToModule(c, 0, "prop2", "val2");
    assert p.Items() == [Prop("prop2", "val2")];
    ok := AddToModule(c, 0, "prop3", "val3");
  }

  /** Debugger.java:22: prop4 into the second module, through the array
      `RetrieveModules` returns. */
  method FillSecond(c: Configuration)
    requires |c.modules| == 2 && c.modules[1].props.properties == []
    modifies c.modules[1].props
    ensures c.modules[1].props.Items() == [Prop("prop4", "val4")]
  {
    StripSpacesOfSpaceFree("prop4");
    var ok := AddToModule(c, 1, "prop4", "val4");
  }

  /** `conf.addProperty(id, value)` with a new id that has no spaces: it is
      appended to the root properties as given, and the modules are left alone. */
  method AddNewRoot(c: Configuration, id: string, value: string)
    requires c.Valid() && ' ' !in id && id !in IdsOf(c.Data().properties)
    modifies c.root
    ensures c.Valid()
    ensures c.Data() == ConfigData(old(c.Data()).properties + [Prop(id, value)], old(c.Data()).modules)
  {
    StripSpacesOfSpaceFree(id);
    var ok := c.AddRootProperty(id, value);
  }

  /** Debugger.java:23-24: prop5 and prop6 at the root, after prop1. */
  method FillRoot(c: Configuration)
    requires c.Valid() && c.Data().properties == [Prop("prop1", "val1")]
    modifies c.root
    ensures c.Valid()
    ensures c.Data() == ConfigData(DebuggerData().properties, old(c.Data()).modules)
  {
    assert IdsOf([Prop("prop1", "val1")]) == ["prop1"];
    AddNewRoot(c, "prop5", "val5");
    assert IdsOf(c.Data().properties) == ["prop1", "prop5"];
    AddNewRoot(c, "prop6", "val6");
  }

  /** The calls of Debugger.java:17-24, in their order, on a fresh configuration:
      prop5 and prop6 land after prop1 although they are added after the modules,
      and adding through the array `RetrieveModules` returns changes the
      configuration's own modules. */
  method Build() returns (c: Configuration)
    ensures c.Valid() && c.Data() == DebuggerData()
    ensures |c.modules| == 2
  {
    c := NewWithProp1();
    AddTwoModules(c);
    ghost var m1, m2 := c.modules[0], c.modules[1];
    assert c.modules == [m1, m2];
    FillFirst(c);
    FillSecond(c);
    assert m1.Data() == DebuggerData().modules[0];
    assert m2.Data() == DebuggerData().modules[1];
    DataOfTwo(c, m1, m2);
    FillRoot(c);
  }

  lemma DebuggerFormatSafe()
    ensures ConfigFormatSafe(DebuggerData())
  {
    var d := DebuggerData();
    assert AllFormatSafe(d.properties);
    assert ModuleFormatSafe(d.modules[0]) && ModuleFormatSafe(d.modules[1]);
  }

  /** The text the demo hands to its writer: the configuration `Build` makes,
      rendered by `Configuration.ToString`; `DebuggerDocument` gives its lines. */
  method Render() returns (doc: string)
    ensures doc == DocumentText(DebuggerData())
  {
    var c := Build();
    DebuggerFormatSafe();
    ghost var d := c.Data();
    doc := c.ToString();
    assert c.Data() == d;
  }
}
