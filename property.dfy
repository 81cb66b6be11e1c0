/** A configuration property: an id/value pair with an ordered list of advisory
    valid values, and the one-line text form it is written in. */
module Properties {
  import opened Text

  /** The state of one `Property` object as a value. */
  datatype PropertyData = PropertyData(id: string, value: string, validValues: seq<string>)

  /** The property line: `<id:value>`, or `<id:value[v1,...,vn]>` when there are valid values. */
  function PropertyLine(p: PropertyData): string
  {
    "<" + p.id + ":" + p.value
    + (if p.validValues == [] then "" else "[" + Join(p.validValues, ',') + "]")
    + ">"
  }

  /** No field holds `%`, so passing the line to `String.format` as its format
      string leaves it as it is. */
  predicate FormatSafe(p: PropertyData)
  {
    && '%' !in p.id
    && '%' !in p.value
    && forall i :: 0 <= i < |p.validValues| ==> '%' !in p.validValues[i]
  }

  /** No field holds a line break. */
  predicate LineSafe(p: PropertyData)
  {
    && '\n' !in p.id
    && '\n' !in p.value
    && forall i :: 0 <= i < |p.validValues| ==> '\n' !in p.validValues[i]
  }

  lemma {:induction false} JoinKeepsOut(ls: seq<string>, sep: char, c: char)
    requires c != sep
    requires forall i :: 0 <= i < |ls| ==> c !in ls[i]
    ensures c !in Join(ls, sep)
    decreases |ls|
  {
    if |ls| > 1 {
      JoinKeepsOut(ls[1..], sep, c);
    }
  }

  /** A property whose fields hold no line break renders as exactly one line. */
  lemma PropertyLineIsOneLine(p: PropertyData)
    requires LineSafe(p)
    ensures '\n' !in PropertyLine(p)
  {
    JoinKeepsOut(p.validValues, ',', '\n');
  }

  /** With valid values none of which holds a comma, the segment between
      `<id:value[` and the closing `]>` of the line splits back, at its commas,
      into exactly the valid values in their order. */
  lemma ValidValuesRecoverable(p: PropertyData)
    requires p.validValues != []
    requires forall i :: 0 <= i < |p.validValues| ==> ',' !in p.validValues[i]
    ensures var line, k := PropertyLine(p), |"<" + p.id + ":" + p.value + "["|;
      && k + 2 <= |line|
      && line[k - 1] == '[' && line[|line| - 2..] == "]>"
      && Split(line[k..|line| - 2], ',') == p.validValues
  {
    var pre, j := "<" + p.id + ":" + p.value + "[", Join(p.validValues, ',');
    var line := PropertyLine(p);
    assert line == pre + j + "]>";
    assert line[|pre|..|line| - 2] == j;
    SplitJoin(p.validValues, ',');
  }

  class Property {
    var id: string
    var value: string
    var validValues: seq<string>

    function Data(): PropertyData
      reads this
    {
      PropertyData(id, value, validValues)
    }

    /** The id is always stored without spaces. */
    ghost predicate Valid()
      reads this
    {
      ' ' !in id
    }

    /** A property with the id stripped of spaces and the value as given; the
        list of valid values starts empty. */
    constructor (id: string, value: string)
      ensures Valid() && Data() == PropertyData(StripSpaces(id), value, [])
    {
      validValues := [];
      new;
      SetID(id);
      SetValue(value);
    }

    /** As the plain constructor, then the valid values are the array's elements. */
    constructor WithValidValues(id: string, value: string, values: array<string>)
      ensures Valid() && Data() == PropertyData(StripSpaces(id), value, values[..])
    {
      validValues := [];
      new;
      SetID(id);
      SetValue(value);
      SetValidValues(values);
    }

    method GetID() returns (r: string)
      ensures r == Data().id
      ensures Valid() ==> ' ' !in r
    {
      r := id;
    }

    method SetID(id: string)
      modifies this`id
      ensures Valid() && this.id == StripSpaces(id)
    {
      this.id := StripSpaces(id);
    }

    method GetValue() returns (r: string)
      ensures r == Data().value
    {
      r := value;
    }

    method SetValue(value: string)
      modifies this`value
      ensures this.value == value
    {
      this.value := value;
    }

    /** A fresh array holding the valid values in order. */
    method GetValidValues() returns (a: array<string>)
      ensures fresh(a) && a[..] == validValues
    {
      a := new string[|validValues|];
      for i := 0 to |validValues|
        invariant forall j :: 0 <= j < i ==> a[j] == validValues[j]
      {
        a[i] := validValues[i];
      }
    }

    /** Replaces the list by the array's elements, in order and duplicates included. */
    method SetValidValues(values: array<string>)
      modifies this`validValues
      ensures validValues == values[..]
    {
      ClearValidValues();
      for i := 0 to values.Length
        invariant validValues == values[..i]
      {
        validValues := validValues + [values[i]];
      }
    }

    /** Appends `validValue` unless an equal one is already listed. */
    method AddValidValue(validValue: string) returns (added: bool)
      modifies this`validValues
      ensures added == (validValue !in old(validValues))
      ensures validValues == if added then old(validValues) + [validValue] else old(validValues)
    {
      for i := 0 to |validValues|
        invariant validValue !in validValues[..i]
      {
        if validValues[i] == validValue {
          return false;
        }
      }
      validValues := validValues + [validValue];
      return true;
    }

    /** Removes the first listed value equal to `validValue`, if there is one. */
    method RemoveValidValue(validValue: string) returns (removed: bool)
      modifies this`validValues
      ensures removed == (validValue in old(validValues))
      ensures validValues == Delete(old(validValues), IndexOf(old(validValues), validValue))
    {
      for i := 0 to |validValues|
        invariant validValue !in validValues[..i]
      {
        if validValues[i] == validValue {
          assert IndexOf(validValues, validValue) == i;
          validValues := validValues[..i] + validValues[i + 1..];
          return true;
        }
      }
      assert validValues[..|validValues|] == validValues;
      return false;
    }

    method ClearValidValues()
      modifies this`validValues
      ensures validValues == []
    {
      validValues := [];
    }

    /** Builds the property line the way the source does: with a comma after each
        valid value but the last, and `]>` after the last. */
    method ToString() returns (s: string)
      ensures s == PropertyLine(Data())
    {
      if |validValues| <= 0 {
        return "<" + id + ":" + value + ">";
      }
      var head := "<" + id + ":" + value + "[";
      var n := |validValues|;
      s := head;
      for i := 0 to n
        invariant i < n ==> s == head + Terminated(validValues[..i], ',')
        invariant i == n ==> s == head + Terminated(validValues[..n - 1], ',') + validValues[n - 1] + "]>"
      {
        if i < n - 1 {
          TerminatedSnoc(validValues[..i], validValues[i], ',');
          assert validValues[..i + 1] == validValues[..i] + [validValues[i]];
          s := s + validValues[i] + ",";
        } else if i == n - 1 {
          s := s + validValues[i] + "]>";
        }
      }
      JoinAsTerminated(validValues, ',');
    }
  }
}
