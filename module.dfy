/** A named property container, written as a block framed by `{name}` and
    `{name:end}`. */
module Modules {
  import opened Text
  import opened Properties
  import opened Containers

  /** The state of one `Module` object as a value. */
  datatype ModuleData = ModuleData(name: string, properties: seq<PropertyData>)

  function Header(name: string): string
  {
    "{" + name + "}"
  }

  function Footer(name: string): string
  {
    "{" + name + ":end}"
  }

  /** The module block; a module without properties has no property section. */
  function ModuleText(m: ModuleData): string
  {
    if m.properties == [] then
      "  " + Header(m.name) + NL + NL + "  " + Footer(m.name)
    else
      "  " + Header(m.name) + NL + NL + Indented(m.properties, 4) + NL + "  " + Footer(m.name)
  }

  /** The lines of a module block. */
  function ModuleLines(m: ModuleData): seq<string>
  {
    ["  " + Header(m.name), ""]
    + PropertyLines(m.properties, 4)
    + (if m.properties == [] then [] else [""])
    + ["  " + Footer(m.name)]
  }

  predicate ModuleFormatSafe(m: ModuleData)
  {
    '%' !in m.name && AllFormatSafe(m.properties)
  }

  predicate ModuleLineSafe(m: ModuleData)
  {
    '\n' !in m.name && AllLineSafe(m.properties)
  }

  /** The block shape over abstract header line `a`, footer line `f` and body
      lines `pl`. */
  lemma BlockShape(a: string, pl: seq<string>, f: string)
    ensures Terminated([a, ""] + pl + (if pl == [] then [] else [""]), '\n') + f
         == if pl == [] then a + NL + NL + f else a + NL + NL + Terminated(pl, '\n') + NL + f
  {
    var head := [a, ""];
    var body := pl + (if pl == [] then [] else [""]);
    assert [a, ""] + pl + (if pl == [] then [] else [""]) == head + body;
    TerminatedAppend(head, body, '\n');
    assert Terminated(head, '\n') == a + NL + NL by {
      assert Terminated(head, '\n') == head[0] + ['\n'] + Terminated(head[1..], '\n');
      assert head[1..] == [""];
      assert Terminated([""], '\n') == "" + ['\n'] + Terminated([], '\n');
    }
    if pl != [] {
      TerminatedSnoc(pl, "", '\n');
      assert Terminated(body, '\n') == Terminated(pl, '\n') + "" + NL;
      assert Terminated(pl, '\n') + "" == Terminated(pl, '\n');
    } else {
      assert head + body == head;
    }
  }

  /** The block is its lines, each but the last followed by a line break. */
  lemma ModuleTextAsLines(m: ModuleData)
    ensures var ls := ModuleLines(m); ModuleText(m) == Terminated(ls[..|ls| - 1], '\n') + ls[|ls| - 1]
  {
    var a, f := "  " + Header(m.name), "  " + Footer(m.name);
    var pl := PropertyLines(m.properties, 4);
    var ls := ModuleLines(m);
    assert ls[..|ls| - 1] == [a, ""] + pl + (if pl == [] then [] else [""]);
    BlockShape(a, pl, f);
    IndentedAsLines(m.properties, 4);
  }

  /** Split at line breaks, a module block gives back its header line, an empty
      line, each property line indented by exactly four spaces in insertion order,
      then (when there were properties) an empty line, and its footer line. */
  lemma ModuleTextSplits(m: ModuleData)
    requires ModuleLineSafe(m)
    ensures Split(ModuleText(m), '\n') == ModuleLines(m)
  {
    var ls := ModuleLines(m);
    ModuleTextAsLines(m);
    forall i | 0 <= i < |m.properties|
      ensures '\n' !in PropertyLines(m.properties, 4)[i]
    {
      PropertyLineIsOneLine(m.properties[i]);
    }
    var init := ls[..|ls| - 1];
    forall i | 0 <= i < |init|
      ensures '\n' !in init[i]
    {
      if 2 <= i < 2 + |m.properties| {
        assert init[i] == PropertyLines(m.properties, 4)[i - 2];
      }
    }
    var last := "  " + Footer(m.name);
    assert ls[|ls| - 1] == last;
    assert ModuleText(m) == Terminated(init, '\n') + last;
    SplitTerminated(init, last, '\n');
    assert '\n' !in last;
    SplitOfSepFree(last, '\n');
    assert init + [last] == ls;
  }

  class Module {
    var moduleName: string
    var header: string
    var footer: string
    const props: PropertyContainer

    /** The header and footer are the ones the current name determines. */
    ghost predicate Valid()
      reads this
    {
      header == Header(moduleName) && footer == Footer(moduleName)
    }

    ghost function Data(): ModuleData
      reads this, props, set p | p in props.properties
    {
      ModuleData(moduleName, props.Items())
    }

    /** A module with the name stripped of spaces, matching header and footer,
        and an empty container of its own. */
    constructor (moduleName: string)
      ensures Valid() && this.moduleName == StripSpaces(moduleName)
      ensures fresh(props) && props.properties == []
    {
      props := new PropertyContainer();
      new;
      SetModuleName(moduleName);
      UpdateModuleIdentifier();
    }

    /** The same as the plain constructor; the capacity has no visible effect. */
    constructor WithCapacity(moduleName: string, propertyCapacity: nat)
      ensures Valid() && this.moduleName == StripSpaces(moduleName)
      ensures fresh(props) && props.properties == []
    {
      props := new PropertyContainer.WithCapacity(propertyCapacity);
      new;
      SetModuleName(moduleName);
      UpdateModuleIdentifier();
    }

    method GetHeader() returns (h: string)
      requires Valid()
      ensures h == "{" + moduleName + "}"
    {
      h := header;
    }

    method GetFooter() returns (f: string)
      requires Valid()
      ensures f == "{" + moduleName + ":end}"
    {
      f := footer;
    }

    method GetModuleName() returns (name: string)
      ensures name == Data().name
    {
      name := moduleName;
    }

    /** Renames the module (spaces removed) and brings header and footer in line;
        the properties are not touched. */
    method SetModuleName(moduleName: string)
      modifies this`moduleName, this`header, this`footer
      ensures Valid() && this.moduleName == StripSpaces(moduleName)
      ensures unchanged(props)
    {
      this.moduleName := StripSpaces(moduleName);
      UpdateModuleIdentifier();
    }

    method UpdateModuleIdentifier()
      modifies this`header, this`footer
      ensures Valid()
    {
      header := "{" + moduleName + "}";
      footer := "{" + moduleName + ":end}";
    }

    /** The module block: the indented header, a blank line, the properties
        indented by four spaces when there are any, and the indented footer. */
    method ToString() returns (s: string)
      requires Valid() && ModuleFormatSafe(Data())
      ensures s == ModuleText(Data())
    {
      if |props.properties| == 0 {
        return "  " + header + NL + NL + "  " + footer;
      } else {
        s := "  " + header + NL + NL;
        var body := props.MoreSpaces(4);
        s := s + body;
        s := s + NL + "  " + footer;
      }
    }
  }
}
