/** String and sequence helpers shared by the scnfg model: space stripping,
    indentation, separator-terminated and separator-joined lists, and linear
    search. */
module Text {

  /** The line separator that `%n` produces in Java's `String.format`. */
  const NL: string := "\n"

  /** `s.replaceAll(" ", "")`: every space character removed, nothing else touched. */
  function StripSpaces(s: string): (r: string)
    ensures ' ' !in r
    ensures |r| <= |s|
  {
    if s == [] then []
    else if s[0] == ' ' then StripSpaces(s[1..])
    else [s[0]] + StripSpaces(s[1..])
  }

  /** Stripping works piece by piece, so the surviving characters keep their order. */
  lemma {:induction false} StripSpacesAppend(a: string, b: string)
    ensures StripSpaces(a + b) == StripSpaces(a) + StripSpaces(b)
    decreases |a|
  {
    if a == [] {
      assert a + b == b;
    } else {
      assert (a + b)[1..] == a[1..] + b;
      StripSpacesAppend(a[1..], b);
    }
  }

  /** A string without spaces is left as it is; in particular stripping is idempotent. */
  lemma {:induction false} StripSpacesOfSpaceFree(s: string)
    requires ' ' !in s
    ensures StripSpaces(s) == s
    decreases |s|
  {
    if s != [] {
      assert s == [s[0]] + s[1..];
      StripSpacesOfSpaceFree(s[1..]);
    }
  }

  /** Every character other than a space survives stripping as often as it occurs. */
  lemma {:induction false} StripSpacesKeepsOthers(s: string, c: char)
    requires c != ' '
    ensures multiset(StripSpaces(s))[c] == multiset(s)[c]
    decreases |s|
  {
    if s != [] {
      assert s == [s[0]] + s[1..];
      StripSpacesKeepsOthers(s[1..], c);
    }
  }

  /** `n` spaces; the source's loop adds none when `n` is not positive. */
  function Spaces(n: int): (r: string)
    ensures |r| == if n <= 0 then 0 else n
    ensures forall i :: 0 <= i < |r| ==> r[i] == ' '
    decreases n
  {
    if n <= 0 then "" else Spaces(n - 1) + " "
  }

  /** Every element followed by the separator: `l0 sep l1 sep ... lk sep`. */
  function Terminated(ls: seq<string>, sep: char): string
  {
    if ls == [] then "" else ls[0] + [sep] + Terminated(ls[1..], sep)
  }

  lemma {:induction false} TerminatedAppend(a: seq<string>, b: seq<string>, sep: char)
    ensures Terminated(a + b, sep) == Terminated(a, sep) + Terminated(b, sep)
    decreases |a|
  {
    if a == [] {
      assert a + b == b;
    } else {
      assert (a + b)[0] == a[0] && (a + b)[1..] == a[1..] + b;
      TerminatedAppend(a[1..], b, sep);
    }
  }

  lemma TerminatedSnoc(ls: seq<string>, l: string, sep: char)
    ensures Terminated(ls + [l], sep) == Terminated(ls, sep) + l + [sep]
  {
    TerminatedAppend(ls, [l], sep);
    assert Terminated([l], sep) == l + [sep] + Terminated([], sep);
  }

  /** A block of lines and an empty line after them, appended to `pre`. */
  lemma TerminatedBlock(pre: seq<string>, ls: seq<string>, sep: char)
    requires |ls| >= 1
    ensures Terminated(pre + ls + [""], sep)
         == Terminated(pre, sep) + (Terminated(ls[..|ls| - 1], sep) + ls[|ls| - 1]) + [sep] + [sep]
  {
    TerminatedSnoc(ls[..|ls| - 1], ls[|ls| - 1], sep);
    assert ls[..|ls| - 1] + [ls[|ls| - 1]] == ls;
    TerminatedAppend(pre, ls, sep);
    TerminatedSnoc(pre + ls, "", sep);
  }

  /** The elements with the separator between them and none at the end. */
  function Join(ls: seq<string>, sep: char): string
  {
    if |ls| == 0 then ""
    else if |ls| == 1 then ls[0]
    else ls[0] + [sep] + Join(ls[1..], sep)
  }

  /** A non-empty join is the terminated list of all but the last element, then the last. */
  lemma {:induction false} JoinAsTerminated(ls: seq<string>, sep: char)
    requires |ls| >= 1
    ensures Join(ls, sep) == Terminated(ls[..|ls| - 1], sep) + ls[|ls| - 1]
    decreases |ls|
  {
    if |ls| == 1 {
      assert ls[..0] == [];
    } else {
      JoinAsTerminated(ls[1..], sep);
      assert ls[1..][..|ls| - 2] == ls[..|ls| - 1][1..];
      assert ls[..|ls| - 1][0] == ls[0];
    }
  }

  /** Cuts `s` at every occurrence of `sep`; there is always at least one piece. */
  function Split(s: string, sep: char): (r: seq<string>)
    ensures |r| >= 1
    ensures forall i :: 0 <= i < |r| ==> sep !in r[i]
    decreases |s|
  {
    if s == [] then [""]
    else
      var rest := Split(s[1..], sep);
      if s[0] == sep then [""] + rest
      else [[s[0]] + rest[0]] + rest[1..]
  }

  lemma {:induction false} SplitOfSepFree(t: string, sep: char)
    requires sep !in t
    ensures Split(t, sep) == [t]
    decreases |t|
  {
    if t != [] {
      SplitOfSepFree(t[1..], sep);
      assert [t[0]] + t[1..] == t;
    }
  }

  lemma {:induction false} SplitFirst(l: string, t: string, sep: char)
    requires sep !in l
    ensures Split(l + [sep] + t, sep) == [l] + Split(t, sep)
    decreases |l|
  {
    var s := l + [sep] + t;
    if l == [] {
      assert s[0] == sep && s[1..] == t;
    } else {
      assert s[0] == l[0] && s[1..] == l[1..] + [sep] + t;
      SplitFirst(l[1..], t, sep);
      assert [l[0]] + l[1..] == l;
    }
  }

  /** Splitting undoes termination when no element contains the separator. */
  lemma {:induction false} SplitTerminated(ls: seq<string>, t: string, sep: char)
    requires forall i :: 0 <= i < |ls| ==> sep !in ls[i]
    ensures Split(Terminated(ls, sep) + t, sep) == ls + Split(t, sep)
    decreases |ls|
  {
    if ls == [] {
      assert Terminated(ls, sep) + t == t;
    } else {
      calc {
        Split(Terminated(ls, sep) + t, sep);
        { assert Terminated(ls, sep) + t == ls[0] + [sep] + (Terminated(ls[1..], sep) + t); }
        Split(ls[0] + [sep] + (Terminated(ls[1..], sep) + t), sep);
        { SplitFirst(ls[0], Terminated(ls[1..], sep) + t, sep); }
        [ls[0]] + Split(Terminated(ls[1..], sep) + t, sep);
        { SplitTerminated(ls[1..], t, sep); }
        [ls[0]] + (ls[1..] + Split(t, sep));
        { assert [ls[0]] + ls[1..] == ls; }
        ls + Split(t, sep);
      }
    }
  }

  /** Splitting undoes joining when no element contains the separator. */
  lemma SplitJoin(ls: seq<string>, sep: char)
    requires |ls| >= 1
    requires forall i :: 0 <= i < |ls| ==> sep !in ls[i]
    ensures Split(Join(ls, sep), sep) == ls
  {
    var init, last := ls[..|ls| - 1], ls[|ls| - 1];
    JoinAsTerminated(ls, sep);
    SplitTerminated(init, last, sep);
    SplitOfSepFree(last, sep);
    assert init + [last] == ls;
  }

  /** Index of the first element equal to `x`, or `|s|` when there is none. */
  function IndexOf<T(==)>(s: seq<T>, x: T): (k: nat)
    ensures k <= |s|
    ensures k < |s| ==> s[k] == x
    ensures forall j :: 0 <= j < k ==> s[j] != x
    decreases |s|
  {
    if s == [] then 0
    else if s[0] == x then 0
    else 1 + IndexOf(s[1..], x)
  }

  /** `s` without its element at `k` (unchanged when `k == |s|`), the rest in order. */
  function Delete<T>(s: seq<T>, k: nat): (r: seq<T>)
    requires k <= |s|
  {
    if k == |s| then s else s[..k] + s[k + 1..]
  }

  /** A list that holds the elements of `s` before `k` and the ones after it, in
      order, is `s` without its element at `k`. */
  lemma DeleteByIndex<T>(r: seq<T>, s: seq<T>, k: nat)
    requires k < |s| && |r| == |s| - 1
    requires forall j :: 0 <= j < |r| ==> r[j] == s[if j < k then j else j + 1]
    ensures r == Delete(s, k)
  {
    var d := Delete(s, k);
    assert forall j :: 0 <= j < |r| ==> d[j] == s[if j < k then j else j + 1];
  }

  /** The slices around `k`, element by element. */
  lemma SlicesAround<T>(s: seq<T>, k: nat, r: seq<T>)
    requires k < |s| && r == s[..k] + s[k + 1..]
    ensures |r| == |s| - 1
    ensures forall j :: 0 <= j < |r| ==> r[j] == s[if j < k then j else j + 1]
  {
  }

  /** Deleting at the first match of `x` takes away exactly one `x` if there is one,
      and keeps the other elements in their order. */
  lemma DeleteFirstMatch<T>(s: seq<T>, x: T)
    ensures var r := Delete(s, IndexOf(s, x));
      && (x in s ==> |r| == |s| - 1 && multiset(r) == multiset(s) - multiset{x})
      && (x !in s ==> r == s)
      && forall j :: 0 <= j < |r| ==> r[j] == s[if j < IndexOf(s, x) then j else j + 1]
  {
    var k := IndexOf(s, x);
    if k < |s| {
      assert s == s[..k] + [s[k]] + s[k + 1..];
      assert multiset(s) == multiset(s[..k]) + multiset{x} + multiset(s[k + 1..]);
    }
  }

  predicate Distinct<T(==)>(s: seq<T>)
  {
    forall i, j :: 0 <= i < j < |s| ==> s[i] != s[j]
  }

  /** Appending an element not yet present keeps a list free of duplicates. */
  lemma AppendKeepsDistinct<T>(s: seq<T>, x: T)
    requires Distinct(s) && x !in s
    ensures Distinct(s + [x])
  {
  }

  /** Removing an element keeps a list free of duplicates. */
  lemma DeleteKeepsDistinct<T>(s: seq<T>, k: nat)
    requires k <= |s| && Distinct(s)
    ensures Distinct(Delete(s, k))
  {
    var r := Delete(s, k);
    forall i, j | 0 <= i < j < |r|
      ensures r[i] != r[j]
    {
      if k < |s| {
        assert r[i] == s[if i < k then i else i + 1];
        assert r[j] == s[if j < k then j else j + 1];
      }
    }
  }

  /** Deleting the first `x` from a list without duplicates leaves one without
      duplicates in which `x` no longer occurs. */
  lemma DeleteFirstKeepsDistinct<T>(s: seq<T>, x: T)
    requires Distinct(s)
    ensures var r := Delete(s, IndexOf(s, x));
      Distinct(r) && x !in r
  {
    var k := IndexOf(s, x);
    DeleteKeepsDistinct(s, k);
    DeleteFirstMatch(s, x);
    var r := Delete(s, k);
    if k < |s| {
      forall j | 0 <= j < |r|
        ensures r[j] != x
      {
        assert r[j] == s[if j < k then j else j + 1];
      }
    }
  }

  predicate StartsWith(s: string, prefix: string)
  {
    |prefix| <= |s| && s[..|prefix|] == prefix
  }

  predicate EndsWith(s: string, suffix: string)
  {
    |suffix| <= |s| && s[|s| - |suffix|..] == suffix
  }

  lemma FramedBy(a: string, m: string, b: string)
    ensures StartsWith(a + m + b, a) && EndsWith(a + m + b, b)
  {
    assert (a + m + b)[..|a|] == a;
    assert (a + m + b)[|a + m + b| - |b|..] == b;
  }
}
