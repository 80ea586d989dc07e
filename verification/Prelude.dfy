/**
 Vocabulary shared by the model: optional and failing results, 32-bit unsigned
 numbers, and sums over sequences and finite maps with the facts needed to
 account for one element entering or leaving.
 */
module Prelude {

  datatype Option<+T> = None | Some(value: T)

  datatype Result<+T, +E> = Ok(value: T) | Err(error: E)

  const U32_LIMIT: nat := 0x1_0000_0000

  type u32 = n: nat | n < U32_LIMIT

  function Max(a: nat, b: nat): nat {
    if a < b then b else a
  }

  predicate EndsWith(s: string, end: string) {
    |end| <= |s| && s[|s| - |end|..] == end
  }

  /** No element occurs at two positions. */
  ghost predicate NoDuplicates<T>(s: seq<T>) {
    forall i, j :: 0 <= i < j < |s| ==> s[i] != s[j]
  }

  ghost function SumSeq<T>(s: seq<T>, f: T -> nat): nat {
    if s == [] then 0 else f(s[0]) + SumSeq(s[1..], f)
  }

  lemma {:induction false} SumSeqConcat<T>(a: seq<T>, b: seq<T>, f: T -> nat)
    ensures SumSeq(a + b, f) == SumSeq(a, f) + SumSeq(b, f)
  {
    if a == [] {
      assert a + b == b;
    } else {
      assert (a + b)[1..] == a[1..] + b;
      SumSeqConcat(a[1..], b, f);
    }
  }

  lemma SumSeqSingle<T>(x: T, f: T -> nat)
    ensures SumSeq([x], f) == f(x)
  {
    assert [x][1..] == [];
  }

  lemma SplitAround<T>(s: seq<T>, i: nat)
    requires i < |s|
    ensures s == s[..i] + ([s[i]] + s[i + 1..])
  {
  }

  /** Taking one element out of a sequence takes its value out of the sum. */
  lemma SumSeqRemove<T>(s: seq<T>, i: nat, f: T -> nat)
    requires i < |s|
    ensures SumSeq(s, f) == f(s[i]) + SumSeq(s[..i] + s[i + 1..], f)
  {
    var front, x, back := s[..i], s[i], s[i + 1..];
    SplitAround(s, i);
    SumSeqConcat(front, [x] + back, f);
    SumSeqConcat([x], back, f);
    SumSeqSingle(x, f);
    SumSeqConcat(front, back, f);
  }

  /** A positive sum has an element that contributes to it. */
  lemma {:induction false} SumSeqWitness<T>(s: seq<T>, f: T -> nat) returns (i: nat)
    requires SumSeq(s, f) > 0
    ensures i < |s| && f(s[i]) > 0
  {
    if f(s[0]) > 0 {
      i := 0;
    } else {
      i := SumSeqWitness(s[1..], f);
      i := i + 1;
    }
  }

  lemma SumSeqAtLeast<T>(s: seq<T>, i: nat, f: T -> nat)
    requires i < |s|
    ensures SumSeq(s, f) >= f(s[i])
  {
    SumSeqRemove(s, i, f);
  }

  ghost function Pick<K, V>(m: map<K, V>): (k: K)
    requires m != map[]
    ensures k in m
  {
    var k :| k in m; k
  }

  ghost function SumMap<K, V>(m: map<K, V>, f: V -> nat): nat
    decreases |m|
  {
    if m == map[] then 0
    else
      var k := Pick(m);
      f(m[k]) + SumMap(m - {k}, f)
  }

  /** Any key may be taken out first, not only the one the definition picks. */
  lemma {:induction false} SumMapSplit<K, V>(m: map<K, V>, k: K, f: V -> nat)
    requires k in m
    ensures SumMap(m, f) == f(m[k]) + SumMap(m - {k}, f)
    decreases |m|
  {
    var c := Pick(m);
    if c != k {
      SumMapSplit(m - {c}, k, f);
      SumMapSplit(m - {k}, c, f);
      assert m - {c} - {k} == m - {k} - {c};
    }
  }

  lemma SumMapInsert<K, V>(m: map<K, V>, k: K, v: V, f: V -> nat)
    ensures SumMap(m[k := v], f) == f(v) + SumMap(m - {k}, f)
    ensures k !in m ==> m - {k} == m
    ensures k in m ==> SumMap(m, f) == f(m[k]) + SumMap(m - {k}, f)
  {
    SumMapSplit(m[k := v], k, f);
    assert m[k := v] - {k} == m - {k};
    if k in m {
      SumMapSplit(m, k, f);
    }
  }

  lemma {:induction false} SumMapWitness<K, V>(m: map<K, V>, f: V -> nat) returns (k: K)
    requires SumMap(m, f) > 0
    ensures k in m && f(m[k]) > 0
    decreases |m|
  {
    k := Pick(m);
    if f(m[k]) == 0 {
      k := SumMapWitness(m - {k}, f);
    }
  }
}
