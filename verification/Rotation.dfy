/**
 The list of routes that both the in-memory queue and the broker route catalog
 serve in turn: its first-match search, removal and move to the back.
 */
module Rotation {
  import opened Prelude

  /** The first position of x, or |s| when x does not occur. */
  function IndexOf<T(==)>(s: seq<T>, x: T): (i: nat)
    ensures i <= |s|
    ensures x in s <==> i < |s|
    ensures i < |s| ==> s[i] == x
    ensures forall j :: 0 <= j < i ==> s[j] != x
  {
    if s == [] then 0
    else if s[0] == x then 0
    else 1 + IndexOf(s[1..], x)
  }

  function RemoveFirst<T(==)>(s: seq<T>, x: T): seq<T> {
    var i := IndexOf(s, x);
    if i < |s| then s[..i] + s[i + 1..] else s
  }

  function MoveToBack<T(==)>(s: seq<T>, x: T): seq<T> {
    if x in s then RemoveFirst(s, x) + [x] else s
  }

  lemma RemoveFirstCounts<T>(s: seq<T>, x: T)
    ensures multiset(RemoveFirst(s, x)) == multiset(s) - multiset{x}
  {
    var i := IndexOf(s, x);
    if i < |s| {
      SplitAround(s, i);
      ConcatCounts(s[..i], [s[i]] + s[i + 1..]);
      ConcatCounts([s[i]], s[i + 1..]);
      ConcatCounts(s[..i], s[i + 1..]);
    }
  }

  lemma ConcatCounts<T>(a: seq<T>, b: seq<T>)
    ensures multiset(a + b) == multiset(a) + multiset(b)
  {
  }

  lemma MoveToBackCounts<T>(s: seq<T>, x: T)
    ensures multiset(MoveToBack(s, x)) == multiset(s)
  {
    RemoveFirstCounts(s, x);
  }

  lemma RemoveFirstNoDuplicates<T>(s: seq<T>, x: T)
    requires NoDuplicates(s)
    ensures NoDuplicates(RemoveFirst(s, x))
    ensures forall y :: y in RemoveFirst(s, x) <==> y in s && y != x
  {
    var i := IndexOf(s, x);
    if i < |s| {
      var t := RemoveFirst(s, x);
      assert forall j :: 0 <= j < i ==> t[j] == s[j];
      assert forall j :: i <= j < |t| ==> t[j] == s[j + 1];
      forall y | y in s && y != x ensures y in t {
        var j :| 0 <= j < |s| && s[j] == y;
        assert y == if j < i then t[j] else t[j - 1];
      }
    }
  }

  lemma MoveToBackNoDuplicates<T>(s: seq<T>, x: T)
    requires NoDuplicates(s)
    ensures NoDuplicates(MoveToBack(s, x))
    ensures forall y :: y in MoveToBack(s, x) <==> y in s
  {
    RemoveFirstNoDuplicates(s, x);
  }

  /** In a duplicate-free list the position found is the only one. */
  lemma IndexOfUnique<T>(s: seq<T>, i: nat)
    requires NoDuplicates(s) && i < |s|
    ensures IndexOf(s, s[i]) == i
  {
    var j := IndexOf(s, s[i]);
    assert s[j] == s[i];
  }

  /** Appending does not move what is already listed. */
  lemma IndexOfAppend<T>(s: seq<T>, x: T, y: T)
    requires x in s
    ensures IndexOf(s + [y], x) == IndexOf(s, x)
  {
    var i := IndexOf(s, x);
    assert (s + [y])[i] == x;
  }

  /**
   Taking x out moves every other element forward by one place when x was ahead
   of it, and leaves it in place otherwise.
   */
  lemma RemoveFirstShifts<T>(s: seq<T>, x: T, y: T)
    requires NoDuplicates(s) && x in s && y in s && x != y
    ensures y in RemoveFirst(s, x)
    ensures IndexOf(RemoveFirst(s, x), y)
         == if IndexOf(s, x) < IndexOf(s, y) then IndexOf(s, y) - 1 else IndexOf(s, y)
  {
    var t, i, j := RemoveFirst(s, x), IndexOf(s, x), IndexOf(s, y);
    RemoveFirstNoDuplicates(s, x);
    var k := if i < j then j - 1 else j;
    assert t[k] == y;
    IndexOfUnique(t, k);
  }

  lemma MoveToBackShifts<T>(s: seq<T>, x: T, y: T)
    requires NoDuplicates(s) && x in s && y in s && x != y
    ensures IndexOf(MoveToBack(s, x), y)
         == if IndexOf(s, x) < IndexOf(s, y) then IndexOf(s, y) - 1 else IndexOf(s, y)
    ensures IndexOf(MoveToBack(s, x), x) == |s| - 1
  {
    RemoveFirstShifts(s, x, y);
    IndexOfAppend(RemoveFirst(s, x), y, x);
    MoveToBackNoDuplicates(s, x);
    var t := MoveToBack(s, x);
    assert t[|s| - 1] == x;
    IndexOfUnique(t, |s| - 1);
  }
}
