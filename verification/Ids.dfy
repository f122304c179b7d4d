/** Contract ids, their string order, and the sorted snapshot of a set of ids. */
module Ids {

  /** A contract id as it appears on the wire (a C... strkey, or an operator's typo). */
  type Id = string

  /** Go's `<` on strings: lexicographic, a proper prefix comes first. */
  predicate Less(a: string, b: string)
    decreases |a|
  {
    |b| > 0 && (|a| == 0 || a[0] < b[0] || (a[0] == b[0] && Less(a[1..], b[1..])))
  }

  lemma {:induction false} LessIrreflexive(a: string)
    ensures !Less(a, a)
    decreases |a|
  {
    if |a| > 0 {
      LessIrreflexive(a[1..]);
    }
  }

  lemma {:induction false} LessTransitive(a: string, b: string, c: string)
    requires Less(a, b) && Less(b, c)
    ensures Less(a, c)
    decreases |a|
  {
    if |a| > 0 && a[0] == b[0] && b[0] == c[0] {
      LessTransitive(a[1..], b[1..], c[1..]);
    }
  }

  lemma {:induction false} LessTotal(a: string, b: string)
    requires a != b
    ensures Less(a, b) || Less(b, a)
    decreases |a|
  {
    if |a| > 0 && |b| > 0 && a[0] == b[0] {
      assert a == [a[0]] + a[1..] && b == [b[0]] + b[1..];
      LessTotal(a[1..], b[1..]);
    }
  }

  /** The two agree before i, where a has ended or has the smaller letter. */
  predicate DiffersAt(a: string, b: string, i: int) {
    0 <= i <= |a| && i < |b| && (forall j :: 0 <= j < i ==> a[j] == b[j]) && (i == |a| || a[i] < b[i])
  }

  /** The order is the dictionary's: a proper prefix first, else the first letter that differs decides. */
  lemma {:induction false} LessIff(a: string, b: string)
    ensures Less(a, b) <==> exists i :: DiffersAt(a, b, i)
    decreases |a|
  {
    if |a| > 0 && |b| > 0 && a[0] == b[0] {
      LessIff(a[1..], b[1..]);
      if i :| DiffersAt(a[1..], b[1..], i) {
        assert forall j :: 0 < j < i + 1 ==> a[j] == a[1..][j - 1] && b[j] == b[1..][j - 1];
        assert DiffersAt(a, b, i + 1);
      }
      if i :| DiffersAt(a, b, i) {
        assert DiffersAt(a[1..], b[1..], i - 1);
      }
    } else if Less(a, b) {
      assert DiffersAt(a, b, 0);
    }
  }

  lemma LessAsymmetric(a: string, b: string)
    requires Less(a, b)
    ensures !Less(b, a) && a != b
  {
    LessIrreflexive(a);
    if Less(b, a) {
      LessTransitive(a, b, a);
    }
  }

  /** Strictly ascending, hence without repetition. */
  ghost predicate Sorted(s: seq<Id>) {
    forall i, j :: 0 <= i < j < |s| ==> Less(s[i], s[j])
  }

  ghost function Elements(s: seq<Id>): set<Id> {
    set x | x in s
  }

  /** Puts x at its place in a strictly ascending sequence. */
  function Insert(x: Id, s: seq<Id>): (r: seq<Id>)
    requires Sorted(s) && x !in s
    ensures Sorted(r) && |r| == |s| + 1
    ensures forall y :: y in r <==> y == x || y in s
  {
    if |s| == 0 then [x]
    else if Less(x, s[0]) then
      assert forall j :: 0 < j < |s| ==> Less(s[0], s[j]);
      InsertFirst(x, s);
      [x] + s
    else
      LessTotal(x, s[0]);
      assert s == [s[0]] + s[1..];
      var rest := Insert(x, s[1..]);
      assert forall y :: y in rest ==> Less(s[0], y);
      [s[0]] + rest
  }

  lemma InsertFirst(x: Id, s: seq<Id>)
    requires Sorted(s) && |s| > 0 && Less(x, s[0])
    ensures Sorted([x] + s)
  {
    forall j | 0 <= j < |s|
      ensures Less(x, s[j])
    {
      if j > 0 {
        LessTransitive(x, s[0], s[j]);
      }
    }
  }

  lemma NoElements(s: seq<Id>)
    ensures Elements(s) == {} <==> s == []
  {
    if |s| > 0 {
      assert s[0] in Elements(s);
    }
  }

  /** Two strictly ascending sequences with the same elements are the same sequence. */
  lemma {:induction false} SortedUnique(s: seq<Id>, t: seq<Id>)
    requires Sorted(s) && Sorted(t) && Elements(s) == Elements(t)
    ensures s == t
  {
    if |s| == 0 || |t| == 0 {
      NoElements(s);
      NoElements(t);
    } else {
      assert s[0] in Elements(t) && t[0] in Elements(s);
      if s[0] != t[0] {
        var i :| 0 < i < |t| && t[i] == s[0];
        var j :| 0 < j < |s| && s[j] == t[0];
        LessAsymmetric(s[0], s[j]);
        assert false;
      }
      forall x
        ensures x in s[1..] <==> x in t[1..]
      {
        TailElements(s, x);
        TailElements(t, x);
        assert x in s <==> x in Elements(s);
        assert x in t <==> x in Elements(t);
      }
      assert Elements(s[1..]) == Elements(t[1..]);
      SortedUnique(s[1..], t[1..]);
      assert s == [s[0]] + s[1..] && t == [t[0]] + t[1..];
    }
  }

  lemma TailElements(s: seq<Id>, x: Id)
    requires Sorted(s) && |s| > 0
    ensures x in s[1..] <==> x in s && x != s[0]
  {
    if x in s[1..] {
      var i :| 1 <= i < |s| && s[i] == x;
      LessAsymmetric(s[0], s[i]);
    }
  }

  lemma {:induction false} SortedExists(ids: set<Id>)
    ensures exists r: seq<Id> :: Lists(r, ids)
  {
    if ids == {} {
      assert Lists([], ids);
    } else {
      var x :| x in ids;
      SortedExists(ids - {x});
      var rest :| Lists(rest, ids - {x});
      assert Lists(Insert(x, rest), ids);
    }
  }

  ghost predicate Lists(r: seq<Id>, ids: set<Id>) {
    Sorted(r) && forall x :: x in r <==> x in ids
  }

  /** The ascending sequence of a set's elements: what a snapshot of the set must be. */
  ghost function SortedIds(ids: set<Id>): (r: seq<Id>)
    ensures Lists(r, ids)
  {
    SortedExists(ids);
    var r :| Lists(r, ids);
    r
  }

  lemma SnapshotSize(ids: set<Id>)
    ensures Elements(SortedIds(ids)) == ids && |SortedIds(ids)| == |ids|
  {
    assert Elements(SortedIds(ids)) == ids;
    SortedDistinct(SortedIds(ids));
    DistinctSize(SortedIds(ids));
  }

  /** Collects a set in whatever order iteration yields it and sorts it. */
  method SortIds(ids: set<Id>) returns (out: seq<Id>)
    ensures out == SortedIds(ids)
  {
    out := [];
    var rest := ids;
    while rest != {}
      invariant rest <= ids
      invariant Sorted(out)
      invariant forall x :: x in out <==> x in ids && x !in rest
      decreases |rest|
    {
      var x :| x in rest;
      out := Insert(x, out);
      rest := rest - {x};
    }
    assert Elements(out) == ids == Elements(SortedIds(ids));
    SortedUnique(out, SortedIds(ids));
  }

  ghost predicate Distinct(s: seq<Id>) {
    forall i, j :: 0 <= i < j < |s| ==> s[i] != s[j]
  }

  lemma SortedDistinct(s: seq<Id>)
    requires Sorted(s)
    ensures Distinct(s)
  {
    forall i, j | 0 <= i < j < |s|
      ensures s[i] != s[j]
    {
      LessAsymmetric(s[i], s[j]);
    }
  }

  lemma {:induction false} DistinctSize(s: seq<Id>)
    requires Distinct(s)
    ensures |Elements(s)| == |s|
  {
    if |s| == 0 {
      assert Elements(s) == {};
    } else {
      var n := |s| - 1;
      DistinctSize(s[..n]);
      assert s == s[..n] + [s[n]];
      assert Elements(s) == Elements(s[..n]) + {s[n]};
    }
  }
}
