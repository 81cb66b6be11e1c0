/** The ordered, id-keyed list of properties that a module and a configuration
    each hold, and its indented text form. Java shares it by inheritance; here
    `Module` and `Configuration` each own one `PropertyContainer` object. */
module Containers {
  import opened Text
  import opened Properties

  /** The values of a list of property objects, in order. */
  ghost function DataOf(ps: seq<Property>): (r: seq<PropertyData>)
    reads set p | p in ps
  {
    seq(|ps|, i requires 0 <= i < |ps| reads set p | p in ps => ps[i].Data())
  }

  /** Deleting a property object deletes its value. */
  lemma DataOfDelete(ps: seq<Property>, k: nat)
    requires k < |ps|
    ensures DataOf(ps[..k] + ps[k + 1..]) == Delete(DataOf(ps), k)
  {
    var rest, d := ps[..k] + ps[k + 1..], DataOf(ps);
    SlicesAround(ps, k, ps[..k] + ps[k + 1..]);
    DeleteByIndex(DataOf(rest), d, k);
  }

  function IdsOf(ps: seq<PropertyData>): (ids: seq<string>)
  {
    seq(|ps|, i requires 0 <= i < |ps| => ps[i].id)
  }

  lemma IdsOfDelete(ps: seq<PropertyData>, k: nat)
    requires k < |ps|
    ensures IdsOf(Delete(ps, k)) == Delete(IdsOf(ps), k)
  {
    SlicesAround(ps, k, ps[..k] + ps[k + 1..]);
    DeleteByIndex(IdsOf(ps[..k] + ps[k + 1..]), IdsOf(ps), k);
  }

  /** Appending a property whose id is not stored yet keeps the ids distinct. */
  lemma AppendKeepsIdsDistinct(ps: seq<PropertyData>, p: PropertyData)
    requires Distinct(IdsOf(ps)) && p.id !in IdsOf(ps)
    ensures Distinct(IdsOf(ps + [p]))
  {
    assert IdsOf(ps + [p]) == IdsOf(ps) + [p.id];
    AppendKeepsDistinct(IdsOf(ps), p.id);
  }

  /** A property that `addProperty` accepts under an id without spaces keeps the
      stored ids distinct. */
  lemma AddPropertyKeepsIdsDistinct(ps: seq<PropertyData>, id: string, value: string)
    requires Distinct(IdsOf(ps)) && ' ' !in id && id !in IdsOf(ps)
    ensures Distinct(IdsOf(ps + [PropertyData(StripSpaces(id), value, [])]))
  {
    StripSpacesOfSpaceFree(id);
    AppendKeepsIdsDistinct(ps, PropertyData(StripSpaces(id), value, []));
  }

  /** The duplicate check compares the id as given with ids stored without spaces,
      so `" a"` passes it next to a stored `"a"` and is then stored as a second `"a"`. */
  lemma AddPropertyWithSpacesDuplicates()
    ensures var ps := [PropertyData("a", "1", [])];
      && " a" !in IdsOf(ps)
      && !Distinct(IdsOf(ps + [PropertyData(StripSpaces(" a"), "2", [])]))
  {
    var ps := [PropertyData("a", "1", [])];
    assert IdsOf(ps) == ["a"];
    assert StripSpaces(" a") == StripSpaces("a");
    assert StripSpaces("a") == "a" + StripSpaces("");
    var ids := IdsOf(ps + [PropertyData(StripSpaces(" a"), "2", [])]);
    assert ids[0] == ids[1];
  }

  /** `removeProperty` on a list with distinct ids keeps them distinct and leaves
      no property with the removed id. */
  lemma RemoveKeepsIdsDistinct(ps: seq<PropertyData>, id: string)
    requires Distinct(IdsOf(ps))
    ensures var r := Delete(ps, IndexOf(IdsOf(ps), id));
      Distinct(IdsOf(r)) && id !in IdsOf(r)
  {
    var k := IndexOf(IdsOf(ps), id);
    DeleteFirstKeepsDistinct(IdsOf(ps), id);
    if k < |ps| {
      IdsOfDelete(ps, k);
    }
  }

  predicate AllFormatSafe(ps: seq<PropertyData>)
  {
    forall i :: 0 <= i < |ps| ==> FormatSafe(ps[i])
  }

  predicate AllLineSafe(ps: seq<PropertyData>)
  {
    forall i :: 0 <= i < |ps| ==> LineSafe(ps[i])
  }

  /** `moreSpaces(n)`: for each property in order, `n` spaces, its line and a line break. */
  function Indented(ps: seq<PropertyData>, n: int): string
  {
    if ps == [] then ""
    else Indented(ps[..|ps| - 1], n) + Spaces(n) + PropertyLine(ps[|ps| - 1]) + NL
  }

  lemma IndentedSnoc(ps: seq<PropertyData>, j: nat, n: int)
    requires j < |ps|
    ensures Indented(ps[..j + 1], n) == Indented(ps[..j], n) + Spaces(n) + PropertyLine(ps[j]) + NL
  {
    assert ps[..j + 1][..j] == ps[..j];
  }

  /** The lines `Indented` writes, one per property. */
  function PropertyLines(ps: seq<PropertyData>, n: int): (ls: seq<string>)
  {
    seq(|ps|, i requires 0 <= i < |ps| => Spaces(n) + PropertyLine(ps[i]))
  }

  lemma PropertyLinesSnoc(ps: seq<PropertyData>, n: int)
    requires ps != []
    ensures PropertyLines(ps, n)
         == PropertyLines(ps[..|ps| - 1], n) + [Spaces(n) + PropertyLine(ps[|ps| - 1])]
  {
    var r, d := PropertyLines(ps, n), PropertyLines(ps[..|ps| - 1], n);
    assert forall j :: 0 <= j < |d| ==> r[j] == d[j];
  }

  /** The indented text is each property line, indented by `n` spaces, followed by
      a line break, in insertion order. */
  lemma {:induction false} IndentedAsLines(ps: seq<PropertyData>, n: int)
    ensures Indented(ps, n) == Terminated(PropertyLines(ps, n), '\n')
    decreases |ps|
  {
    if ps != [] {
      var init, last := ps[..|ps| - 1], ps[|ps| - 1];
      IndentedAsLines(init, n);
      PropertyLinesSnoc(ps, n);
      TerminatedSnoc(PropertyLines(init, n), Spaces(n) + PropertyLine(last), '\n');
      var a, b, c := Indented(init, n), Spaces(n), PropertyLine(last);
      assert a + b + c + NL == a + (b + c) + NL;
    }
  }

  /** Split at line breaks, the indented text gives back exactly the indented
      property lines, followed by the empty rest after the last break. */
  lemma IndentedSplits(ps: seq<PropertyData>, n: int)
    requires AllLineSafe(ps)
    ensures Split(Indented(ps, n), '\n') == PropertyLines(ps, n) + [""]
  {
    IndentedAsLines(ps, n);
    var ls := PropertyLines(ps, n);
    forall i | 0 <= i < |ls|
      ensures '\n' !in ls[i]
    {
      PropertyLineIsOneLine(ps[i]);
    }
    SplitTerminated(ls, "", '\n');
    assert Terminated(ls, '\n') + "" == Terminated(ls, '\n');
  }

  class PropertyContainer {
    var properties: seq<Property>

    ghost function Items(): seq<PropertyData>
      reads this, set p | p in properties
    {
      DataOf(properties)
    }

    /** An empty container. */
    constructor ()
      ensures properties == []
    {
      properties := [];
    }

    /** An empty container; Java's list capacity has no visible effect
        (a negative one makes it throw, hence `nat`). */
    constructor WithCapacity(capacity: nat)
      ensures properties == []
    {
      properties := [];
    }

    /** Appends a new property unless a stored id equals `id` exactly. The stored
        ids are space-stripped but `id` is compared as given. */
    method AddProperty(id: string, value: string) returns (added: bool)
      modifies this
      ensures added == (id !in IdsOf(old(Items())))
      ensures !added ==> properties == old(properties)
      ensures added ==> && |properties| == |old(properties)| + 1
                        && properties[..|old(properties)|] == old(properties)
                        && fresh(properties[|old(properties)|])
      ensures Items() == if added then old(Items()) + [PropertyData(StripSpaces(id), value, [])]
                         else old(Items())
    {
      for i := 0 to |properties|
        invariant forall j :: 0 <= j < i ==> properties[j].id != id
      {
        if properties[i].id == id {
          assert IdsOf(Items())[i] == id;
          return false;
        }
      }
      ghost var before := Items();
      var p := new Property(id, value);
      properties := properties + [p];
      assert Items() == before + [p.Data()];
      return true;
    }

    /** Appends `property` itself unless a stored id equals its id. */
    method AddExistingProperty(property: Property) returns (added: bool)
      modifies this
      ensures added == (property.id !in IdsOf(old(Items())))
      ensures properties == if added then old(properties) + [property] else old(properties)
      ensures Items() == if added then old(Items()) + [property.Data()] else old(Items())
    {
      for i := 0 to |properties|
        invariant forall j :: 0 <= j < i ==> properties[j].id != property.id
      {
        if properties[i].id == property.id {
          assert IdsOf(Items())[i] == property.id;
          return false;
        }
      }
      ghost var before := Items();
      properties := properties + [property];
      assert Items() == before + [property.Data()];
      return true;
    }

    /** Removes the first property whose id equals `id`; the others keep their order. */
    method RemoveProperty(id: string) returns (removed: bool)
      modifies this
      ensures removed == (id in IdsOf(old(Items())))
      ensures properties == Delete(old(properties), IndexOf(IdsOf(old(Items())), id))
      ensures Items() == Delete(old(Items()), IndexOf(IdsOf(old(Items())), id))
    {
      ghost var before := Items();
      ghost var ids := IdsOf(before);
      for i := 0 to |properties|
        invariant forall j :: 0 <= j < i ==> ids[j] != id
      {
        if properties[i].id == id {
          assert ids[i] == id;
          assert IndexOf(ids, id) == i;
          var rest := properties[..i] + properties[i + 1..];
          DataOfDelete(properties, i);
          properties := rest;
          assert Items() == Delete(before, i);
          return true;
        }
      }
      assert ids[..|ids|] == ids;
      return false;
    }

    /** A fresh array holding each property's line, in order. */
    method RetrieveExportProperties() returns (lines: array<string>)
      ensures fresh(lines)
      ensures lines.Length == |properties|
      ensures forall i :: 0 <= i < lines.Length ==> lines[i] == PropertyLine(properties[i].Data())
    {
      if |properties| == 0 {
        lines := new string[0];
      } else {
        lines := new string[|properties|];
        for i := 0 to |properties|
          invariant forall j :: 0 <= j < i ==> lines[j] == PropertyLine(properties[j].Data())
        {
          lines[i] := properties[i].ToString();
        }
      }
    }

    /** A fresh array holding the same property objects in the same order. */
    method RetrieveProperties() returns (list: array<Property>)
      ensures fresh(list)
      ensures list[..] == properties
    {
      if |properties| == 0 {
        list := new Property[0];
      } else {
        list := new Property[|properties|](i requires 0 <= i < |properties| reads this => properties[i]);
      }
    }

    method ClearProperties()
      modifies this
      ensures properties == []
    {
      properties := [];
    }

    /** The properties indented by two spaces, as `MoreSpaces(2)` renders them. */
    method ToString() returns (s: string)
      requires AllFormatSafe(Items())
      ensures s == Indented(Items(), 2)
    {
      s := MoreSpaces(2);
    }

    /** Each property line prefixed by `numOfSpaces` spaces and followed by a line break. */
    method MoreSpaces(numOfSpaces: int) returns (s: string)
      requires AllFormatSafe(Items())
      ensures s == Indented(Items(), numOfSpaces)
    {
      var spaces := "";
      var i := 0;
      while i < numOfSpaces
        invariant i <= numOfSpaces || i == 0
        invariant spaces == Spaces(i)
      {
        spaces := spaces + " ";
        i := i + 1;
      }
      assert spaces == Spaces(numOfSpaces);
      s := "";
      var props := RetrieveExportProperties();
      ghost var items := Items();
      assert forall j :: 0 <= j < props.Length ==> props[j] == PropertyLine(items[j]);
      for j := 0 to props.Length
        invariant forall k :: 0 <= k < props.Length ==> props[k] == PropertyLine(items[k])
        invariant s == Indented(items[..j], numOfSpaces)
      {
        IndentedSnoc(items, j, numOfSpaces);
        s := s + spaces + props[j] + NL;
      }
      assert items[..props.Length] == items;
    }
  }
}
