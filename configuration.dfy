/** The root of a scnfg document: root properties, an ordered list of modules,
    and the framed, versioned text the whole configuration is written as. */
module Configurations {
  import opened Text
  import opened Properties
  import opened Containers
  import opened Modules

  /** The state of a `Configuration` object graph as a value. */
  datatype ConfigData = ConfigData(properties: seq<PropertyData>, modules: seq<ModuleData>)

  /** Version 1 is a Java `double`, so it is written `1.0`. */
  const HEADER: string := "{SrivasConfig-scnfg-version:1.0}"
  const FOOTER: string := "{scnfg:end}"

  function NamesOf(ms: seq<ModuleData>): (names: seq<string>)
  {
    seq(|ms|, i requires 0 <= i < |ms| => ms[i].name)
  }

  /** A module that `addModule` accepts under a name without spaces keeps the
      module names distinct. */
  lemma AddModuleKeepsNamesDistinct(ms: seq<ModuleData>, moduleID: string)
    requires Distinct(NamesOf(ms)) && ' ' !in moduleID && moduleID !in NamesOf(ms)
    ensures Distinct(NamesOf(ms + [ModuleData(StripSpaces(moduleID), [])]))
  {
    StripSpacesOfSpaceFree(moduleID);
    assert NamesOf(ms + [ModuleData(StripSpaces(moduleID), [])]) == NamesOf(ms) + [moduleID];
    AppendKeepsDistinct(NamesOf(ms), moduleID);
  }

  /** `removeModule` on modules with distinct names keeps them distinct and leaves
      no module with the removed name. */
  lemma RemoveKeepsNamesDistinct(ms: seq<ModuleData>, moduleID: string)
    requires Distinct(NamesOf(ms))
    ensures var r := Delete(ms, IndexOf(NamesOf(ms), moduleID));
      Distinct(NamesOf(r)) && moduleID !in NamesOf(r)
  {
    var k := IndexOf(NamesOf(ms), moduleID);
    DeleteFirstKeepsDistinct(NamesOf(ms), moduleID);
    if k < |ms| {
      SlicesAround(ms, k, ms[..k] + ms[k + 1..]);
      DeleteByIndex(NamesOf(ms[..k] + ms[k + 1..]), NamesOf(ms), k);
    }
  }

  /** Each module's block, in order. */
  function ModuleTexts(ms: seq<ModuleData>): (r: seq<string>)
  {
    seq(|ms|, i requires 0 <= i < |ms| => ModuleText(ms[i]))
  }

  lemma ModuleTextsSnoc(ms: seq<ModuleData>, i: nat)
    requires i < |ms|
    ensures ModuleTexts(ms[..i + 1]) == ModuleTexts(ms[..i]) + [ModuleText(ms[i])]
  {
    var r, d := ModuleTexts(ms[..i + 1]), ModuleTexts(ms[..i]);
    assert forall j :: 0 <= j < i ==> r[j] == d[j];
  }

  /** Each block followed by two line breaks, in order. */
  function Blocks(blocks: seq<string>): string
  {
    if blocks == [] then ""
    else Blocks(blocks[..|blocks| - 1]) + blocks[|blocks| - 1] + NL + NL
  }

  lemma BlocksSnoc(blocks: seq<string>, b: string)
    ensures Blocks(blocks + [b]) == Blocks(blocks) + b + NL + NL
  {
    assert (blocks + [b])[..|blocks|] == blocks;
  }

  /** The whole document: header, a blank line, the root properties indented by
      two spaces, a blank line, the module blocks, a blank line and the footer. */
  function DocumentText(c: ConfigData): string
  {
    HEADER + NL + NL + Indented(c.properties, 2) + NL + Blocks(ModuleTexts(c.modules)) + NL + FOOTER
  }

  predicate ConfigFormatSafe(c: ConfigData)
  {
    AllFormatSafe(c.properties) && forall i :: 0 <= i < |c.modules| ==> ModuleFormatSafe(c.modules[i])
  }

  predicate ConfigLineSafe(c: ConfigData)
  {
    AllLineSafe(c.properties) && forall i :: 0 <= i < |c.modules| ==> ModuleLineSafe(c.modules[i])
  }

  /** The lines of the module section: each block's lines and an empty line. */
  function BlockLines(ms: seq<ModuleData>): seq<string>
  {
    if ms == [] then []
    else BlockLines(ms[..|ms| - 1]) + ModuleLines(ms[|ms| - 1]) + [""]
  }

  /** The lines of the whole document. */
  function DocumentLines(c: ConfigData): seq<string>
  {
    [HEADER, ""] + PropertyLines(c.properties, 2) + [""] + BlockLines(c.modules) + ["", FOOTER]
  }

  lemma {:induction false} BlocksAsLines(ms: seq<ModuleData>)
    ensures Blocks(ModuleTexts(ms)) == Terminated(BlockLines(ms), '\n')
    decreases |ms|
  {
    if ms != [] {
      var init, last := ms[..|ms| - 1], ms[|ms| - 1];
      BlocksAsLines(init);
      ModuleTextsSnoc(ms, |ms| - 1);
      assert ms[..|ms|] == ms;
      BlocksSnoc(ModuleTexts(init), ModuleText(last));
      ModuleTextAsLines(last);
      TerminatedBlock(BlockLines(init), ModuleLines(last), '\n');
    }
  }

  lemma {:induction false} BlockLinesOneLine(ms: seq<ModuleData>)
    requires forall i :: 0 <= i < |ms| ==> ModuleLineSafe(ms[i])
    ensures forall i :: 0 <= i < |BlockLines(ms)| ==> '\n' !in BlockLines(ms)[i]
    decreases |ms|
  {
    if ms != [] {
      BlockLinesOneLine(ms[..|ms| - 1]);
      ModuleTextSplits(ms[|ms| - 1]);
    }
  }

  /** Every line of the document but the footer. */
  function DocumentLinesBeforeFooter(c: ConfigData): seq<string>
  {
    [HEADER, ""] + PropertyLines(c.properties, 2) + [""] + BlockLines(c.modules) + [""]
  }

  lemma DocumentTextAsLines(c: ConfigData)
    ensures DocumentText(c) == Terminated(DocumentLinesBeforeFooter(c), '\n') + FOOTER
  {
    var pl := PropertyLines(c.properties, 2);
    var bl := BlockLines(c.modules);
    IndentedAsLines(c.properties, 2);
    BlocksAsLines(c.modules);
    var t1 := Terminated([HEADER, ""], '\n');
    assert t1 == HEADER + NL + NL by {
      assert [HEADER, ""][1..] == [""];
    }
    var t3 := Terminated([""], '\n');
    assert t3 == NL;
    calc {
      Terminated(DocumentLinesBeforeFooter(c), '\n');
      { TerminatedAppend([HEADER, ""] + pl + [""] + bl, [""], '\n'); }
      Terminated([HEADER, ""] + pl + [""] + bl, '\n') + t3;
      { TerminatedAppend([HEADER, ""] + pl + [""], bl, '\n'); }
      Terminated([HEADER, ""] + pl + [""], '\n') + Blocks(ModuleTexts(c.modules)) + t3;
      { TerminatedAppend([HEADER, ""] + pl, [""], '\n'); }
      Terminated([HEADER, ""] + pl, '\n') + t3 + Blocks(ModuleTexts(c.modules)) + t3;
      { TerminatedAppend([HEADER, ""], pl, '\n'); }
      t1 + Indented(c.properties, 2) + t3 + Blocks(ModuleTexts(c.modules)) + t3;
    }
  }

  lemma DocumentLinesOneLine(c: ConfigData)
    requires ConfigLineSafe(c)
    ensures forall i :: 0 <= i < |DocumentLinesBeforeFooter(c)| ==> '\n' !in DocumentLinesBeforeFooter(c)[i]
  {
    var pl := PropertyLines(c.properties, 2);
    var bl := BlockLines(c.modules);
    var init := DocumentLinesBeforeFooter(c);
    BlockLinesOneLine(c.modules);
    forall i | 0 <= i < |init|
      ensures '\n' !in init[i]
    {
      if 2 <= i < 2 + |pl| {
        PropertyLineIsOneLine(c.properties[i - 2]);
        assert init[i] == pl[i - 2] == Spaces(2) + PropertyLine(c.properties[i - 2]);
      } else if 3 + |pl| <= i < 3 + |pl| + |bl| {
        assert init[i] == bl[i - 3 - |pl|];
      }
    }
  }

  /** Split at line breaks, the document gives back its lines: the header line,
      an empty line, the root property lines indented by exactly two spaces in
      insertion order, an empty line, each module's block lines followed by an
      empty line, then an empty line and the footer line. */
  lemma DocumentSplits(c: ConfigData)
    requires ConfigLineSafe(c)
    ensures Split(DocumentText(c), '\n') == DocumentLines(c)
  {
    DocumentTextAsLines(c);
    DocumentLinesOneLine(c);
    SplitTerminated(DocumentLinesBeforeFooter(c), FOOTER, '\n');
    FramingLines();
    assert DocumentLines(c) == DocumentLinesBeforeFooter(c) + [FOOTER];
  }

  /** The document is its lines joined by line breaks. */
  lemma DocumentIsJoin(c: ConfigData)
    ensures DocumentText(c) == Join(DocumentLines(c), '\n')
  {
    var ls := DocumentLines(c);
    DocumentTextAsLines(c);
    assert DocumentLines(c) == DocumentLinesBeforeFooter(c) + [FOOTER];
    JoinAsTerminated(ls, '\n');
    assert ls[..|ls| - 1] == DocumentLinesBeforeFooter(c);
  }

  /** Every document starts with the versioned header and a blank line and
      ends with a line break and the footer. */
  lemma DocumentFramed(c: ConfigData)
    ensures StartsWith(DocumentText(c), HEADER + NL + NL)
    ensures EndsWith(DocumentText(c), NL + FOOTER)
  {
    var i, b := Indented(c.properties, 2), Blocks(ModuleTexts(c.modules));
    assert DocumentText(c) == (HEADER + NL + NL) + (i + NL + b) + (NL + FOOTER);
    FramedBy(HEADER + NL + NL, i + NL + b, NL + FOOTER);
  }

  /** A configuration without root properties and modules is the header, four
      line breaks and the footer. */
  lemma EmptyDocument()
    ensures DocumentText(ConfigData([], [])) == HEADER + NL + NL + NL + NL + FOOTER
  {
    assert Indented([], 2) == "";
    assert Blocks(ModuleTexts([])) == "";
  }

  /** The header and the footer hold no line break, so each is one line of the
      document. */
  lemma FramingLines()
    ensures '\n' !in HEADER && Split(HEADER, '\n') == [HEADER]
    ensures '\n' !in FOOTER && Split(FOOTER, '\n') == [FOOTER]
  {
    assert forall i :: 0 <= i < |HEADER| ==> HEADER[i] != '\n';
    assert forall i :: 0 <= i < |FOOTER| ==> FOOTER[i] != '\n';
    SplitOfSepFree(HEADER, '\n');
    SplitOfSepFree(FOOTER, '\n');
  }

  /** The values of a list of module objects, in order. */
  ghost function ModulesData(ms: seq<Module>): (r: seq<ModuleData>)
    reads set m | m in ms, set m | m in ms :: m.props
    reads set m, p | m in ms && p in m.props.properties :: p
  {
    seq(|ms|, i requires 0 <= i < |ms| reads set m | m in ms, set m | m in ms :: m.props
                                        reads set m, p | m in ms && p in m.props.properties :: p
                                        => ms[i].Data())
  }

  /** Writing one more block after `head` and the first `i` blocks gives `head`
      and the first `i + 1` blocks. */
  lemma AppendBlock(head: string, blocks: seq<string>, i: nat)
    requires i < |blocks|
    ensures head + Blocks(blocks[..i]) + blocks[i] + NL + NL == head + Blocks(blocks[..i + 1])
  {
    assert blocks[..i + 1][..i] == blocks[..i];
    var pre := Blocks(blocks[..i]);
    assert head + pre + blocks[i] + NL + NL == head + (pre + blocks[i] + NL + NL);
    assert Blocks(blocks[..i + 1]) == Blocks(blocks[..i]) + blocks[i] + NL + NL;
  }

  /** Appending a module object appends its value. */
  lemma ModulesDataAppend(ms: seq<Module>, m: Module)
    ensures ModulesData(ms + [m]) == ModulesData(ms) + [m.Data()]
  {
    var r, d := ModulesData(ms + [m]), ModulesData(ms);
    assert forall j :: 0 <= j < |ms| ==> r[j] == d[j];
    assert r[|ms|] == m.Data();
  }

  /** Deleting a module object deletes its value. */
  lemma ModulesDataDelete(ms: seq<Module>, i: nat)
    requires i < |ms|
    ensures ModulesData(ms[..i] + ms[i + 1..]) == Delete(ModulesData(ms), i)
  {
    SlicesAround(ms, i, ms[..i] + ms[i + 1..]);
    DeleteByIndex(ModulesData(ms[..i] + ms[i + 1..]), ModulesData(ms), i);
  }

  class Configuration {
    const header: string := HEADER
    const footer: string := FOOTER
    const root: PropertyContainer
    var modules: seq<Module>

    /** Every module keeps its header and footer in line with its name, and
        the root and every module own property containers of their own. */
    ghost predicate Valid()
      reads this, set m | m in modules
    {
      && (forall i :: 0 <= i < |modules| ==> modules[i].Valid() && modules[i].props != root)
      && (forall i, j :: 0 <= i < j < |modules| ==> modules[i].props != modules[j].props)
    }

    ghost function Data(): ConfigData
      reads this, root, set p | p in root.properties
      reads set m | m in modules, set m | m in modules :: m.props
      reads set m, p | m in modules && p in m.props.properties :: p
    {
      ConfigData(root.Items(), ModulesData(modules))
    }

    /** An empty configuration: no root properties and no modules. */
    constructor ()
      ensures Valid() && fresh(root)
      ensures root.properties == [] && modules == []
    {
      root := new PropertyContainer();
      modules := [];
    }

    /** The same as the plain constructor; the capacities have no visible effect (a
        negative one makes Java throw, hence `nat`). */
    constructor WithCapacity(propertyCapacity: nat, moduleCapacity: nat)
      ensures Valid() && fresh(root)
      ensures root.properties == [] && modules == []
    {
      root := new PropertyContainer.WithCapacity(propertyCapacity);
      modules := [];
    }

    /** `addProperty` inherited from the container: a root property is added as
        `PropertyContainer.AddProperty` says, and the modules are left alone. */
    method AddRootProperty(id: string, value: string) returns (added: bool)
      requires Valid()
      modifies root
      ensures Valid()
      ensures added == (id !in IdsOf(old(Data()).properties))
      ensures Data() == ConfigData(if added then old(Data()).properties + [PropertyData(StripSpaces(id), value, [])]
                                   else old(Data()).properties,
                                   old(Data()).modules)
    {
      ghost var ms := ModulesData(modules);
      added := root.AddProperty(id, value);
      assert ModulesData(modules) == ms;
    }

    /** Appends a new, empty module named `moduleID` without its spaces, unless a
        module's name equals `moduleID` exactly as given. */
    method AddModule(moduleID: string) returns (added: bool)
      requires Valid()
      modifies this`modules
      ensures Valid()
      ensures added == (moduleID !in NamesOf(old(Data()).modules))
      ensures !added ==> modules == old(modules)
      ensures added ==> && |modules| == |old(modules)| + 1
                        && modules[..|old(modules)|] == old(modules)
                        && fresh(modules[|old(modules)|])
                        && fresh(modules[|old(modules)|].props)
                        && modules[|old(modules)|].moduleName == StripSpaces(moduleID)
                        && modules[|old(modules)|].props.properties == []
      ensures Data() == if added
                        then ConfigData(old(Data()).properties,
                                        old(Data()).modules + [ModuleData(StripSpaces(moduleID), [])])
                        else old(Data())
    {
      for i := 0 to |modules|
        invariant forall j :: 0 <= j < i ==> modules[j].moduleName != moduleID
      {
        if modules[i].moduleName == moduleID {
          assert NamesOf(Data().modules)[i] == moduleID;
          return false;
        }
      }
      ghost var before := Data();
      var m := new Module(moduleID);
      assert ModulesData(modules) == before.modules;
      ModulesDataAppend(modules, m);
      modules := modules + [m];
      assert Data().modules == before.modules + [m.Data()];
      return true;
    }

    /** Removes the first module named `moduleID`, and its properties with it;
        the other modules keep their order. */
    method RemoveModule(moduleID: string) returns (removed: bool)
      requires Valid()
      modifies this`modules
      ensures Valid()
      ensures removed == (moduleID in NamesOf(old(Data()).modules))
      ensures modules == Delete(old(modules), IndexOf(NamesOf(old(Data()).modules), moduleID))
      ensures Data() == ConfigData(old(Data()).properties,
                                   Delete(old(Data()).modules, IndexOf(NamesOf(old(Data()).modules), moduleID)))
    {
      ghost var before := Data();
      ghost var names := NamesOf(before.modules);
      var i := 0;
      while i < |modules| && modules[i].moduleName != moduleID
        invariant i <= |modules|
        invariant forall j :: 0 <= j < i ==> names[j] != moduleID
      {
        i := i + 1;
      }
      assert i < |modules| ==> names[i] == moduleID;
      assert IndexOf(names, moduleID) == i;
      if i == |modules| {
        return false;
      }
      var rest := modules[..i] + modules[i + 1..];
      ModulesDataDelete(modules, i);
      modules := rest;
      assert ModulesData(modules) == Delete(before.modules, i);
      return true;
    }

    /** A fresh array holding each module's block, in order. */
    method RetrieveConfigModules() returns (texts: array<string>)
      requires Valid() && forall i :: 0 <= i < |Data().modules| ==> ModuleFormatSafe(Data().modules[i])
      ensures fresh(texts)
      ensures texts[..] == ModuleTexts(Data().modules)
    {
      ghost var mds := ModulesData(modules);
      assert mds == Data().modules;
      var ts: seq<string> := [];
      for i := 0 to |modules|
        invariant forall j :: 0 <= j < |mds| ==> ModuleFormatSafe(mds[j])
        invariant ts == ModuleTexts(mds[..i])
      {
        assert mds[i] == modules[i].Data();
        var t := modules[i].ToString();
        ModuleTextsSnoc(mds, i);
        ts := ts + [t];
      }
      assert mds[..|modules|] == mds;
      texts := new string[|ts|](i requires 0 <= i < |ts| => ts[i]);
    }

    /** A fresh array holding the same module objects, in order: changes made
        through an element are changes to this configuration's modules. */
    method RetrieveModules() returns (list: array<Module>)
      ensures fresh(list)
      ensures list[..] == modules
    {
      if |modules| == 0 {
        list := new Module[0];
      } else {
        list := new Module[|modules|](i requires 0 <= i < |modules| reads this => modules[i]);
      }
    }

    /** Drops every module; the root properties stay. */
    method ClearModules()
      modifies this`modules
      ensures Valid() && modules == []
      ensures unchanged(root)
    {
      modules := [];
    }

    /** The document: the header and a blank line, the root properties indented
        by two spaces, a line break, each module block followed by two line
        breaks, then a line break and the footer. */
    method ToString() returns (s: string)
      requires Valid() && ConfigFormatSafe(Data())
      ensures s == DocumentText(Data())
    {
      ghost var d := Data();
      s := header + NL + NL;
      if !(|root.properties| == 0) {
        var props := root.ToString();
        s := s + props;
      } else {
        assert s == s + Indented(d.properties, 2);
      }
      s := s + NL;
      ghost var head := s;
      assert head == HEADER + NL + NL + Indented(d.properties, 2) + NL;
      if !(|modules| == 0) {
        var mods := RetrieveConfigModules();
        assert Data() == d;
        for i := 0 to mods.Length
          invariant mods[..] == ModuleTexts(d.modules)
          invariant Data() == d
          invariant s == head + Blocks(mods[..i])
        {
          AppendBlock(head, mods[..], i);
          s := s + mods[i] + NL + NL;
        }
        assert mods[..mods.Length] == mods[..];
      } else {
        assert s == head + Blocks(ModuleTexts(d.modules));
      }
      s := s + NL + footer;
      assert s == DocumentText(d);
    }
  }
}
