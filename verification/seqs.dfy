/** Sequence helpers shared by the model: de-duplication in first-occurrence order, as a
    JavaScript `Set` built from a list keeps it, and filtering. */
module Seqs {
  /** No value occurs twice. */
  predicate NoDuplicates<T(==)>(s: seq<T>) {
    forall i, j :: 0 <= i < j < |s| ==> s[i] != s[j]
  }

  /** The occurrences of `x` in `s`: its first element's and the rest's. */
  lemma CountCons<T>(s: seq<T>, x: T)
    requires s != []
    ensures multiset(s)[x] == (if s[0] == x then 1 else 0) + multiset(s[1..])[x]
  {
    assert s == [s[0]] + s[1..];
  }

  /** What a `Set` keeps of `s`, in insertion order: each value the first time it is added. */
  function Dedup<T(==,!new)>(s: seq<T>): (r: seq<T>)
    ensures NoDuplicates(r)
    ensures forall x :: x in r <==> x in s
    ensures |r| <= |s|
  {
    if s == [] then []
    else
      var r := Dedup(s[..|s| - 1]);
      var x := s[|s| - 1];
      assert s == s[..|s| - 1] + [x];
      if x in r then r else r + [x]
  }

  /** The position of the first occurrence of `x` in `s`. */
  function FirstIndex<T(==)>(s: seq<T>, x: T): (i: nat)
    requires x in s
    ensures i < |s| && s[i] == x && x !in s[..i]
  {
    if s[0] == x then 0
    else
      var i := 1 + FirstIndex(s[1..], x);
      assert s[..i] == [s[0]] + s[1..][..i - 1];
      i
  }

  /** The first occurrence of `x` in a prefix of `s` is its first occurrence in `s`. */
  lemma FirstIndexPrefix<T>(s: seq<T>, n: nat, x: T)
    requires n <= |s| && x in s[..n]
    ensures x in s && FirstIndex(s, x) == FirstIndex(s[..n], x)
  {
    var i := FirstIndex(s[..n], x);
    var k := FirstIndex(s, x);
    assert s[..n][..i] == s[..i];
    assert forall m :: 0 <= m < i ==> s[..i][m] != x;
    assert forall m :: 0 <= m < k ==> s[..k][m] != x;
  }

  /** The kept values appear in the order of their first occurrences in the input. */
  lemma {:induction false} DedupFirstOrder<T(!new)>(s: seq<T>, i: nat, j: nat)
    requires i < j < |Dedup(s)|
    ensures FirstIndex(s, Dedup(s)[i]) < FirstIndex(s, Dedup(s)[j])
    decreases |s|
  {
    var p := s[..|s| - 1];
    var x := s[|s| - 1];
    var r := Dedup(p);
    assert s == p + [x];
    assert s[..|p|] == p;
    if j < |r| {
      DedupFirstOrder(p, i, j);
      FirstIndexPrefix(s, |p|, r[i]);
      FirstIndexPrefix(s, |p|, r[j]);
    } else {
      // the last value is new, so it first occurs at the end of `s`
      assert x !in r && Dedup(s)[j] == x;
      assert x !in p;
      assert FirstIndex(s, x) == |p| by {
        var k := FirstIndex(s, x);
        assert forall m :: 0 <= m < |p| ==> p[m] != x;
      }
      FirstIndexPrefix(s, |p|, r[i]);
    }
  }

  /** A list without duplicates is kept whole. */
  lemma {:induction false} DedupOfDistinct<T(!new)>(s: seq<T>)
    requires NoDuplicates(s)
    ensures Dedup(s) == s
    decreases |s|
  {
    if s != [] {
      var p := s[..|s| - 1];
      forall i, j | 0 <= i < j < |p| ensures p[i] != p[j] {
        assert p[i] == s[i] && p[j] == s[j];
      }
      DedupOfDistinct(p);
      forall k | 0 <= k < |p| ensures p[k] != s[|s| - 1] {
        assert p[k] == s[k];
      }
    }
  }

  /** De-duplicating twice is de-duplicating once. */
  lemma DedupIdempotent<T(!new)>(s: seq<T>)
    ensures Dedup(Dedup(s)) == Dedup(s)
  {
    DedupOfDistinct(Dedup(s));
  }

}
