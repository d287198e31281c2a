/** JavaScript plain objects as ordered association lists.

    A JS object's own string keys enumerate in insertion order (`Object.keys`, `Object.entries`,
    `for..in`), and `obj[k] = v` keeps an existing key where it is but appends a new one. A
    `seq<(string, V)>` with distinct keys captures exactly that, which a Dafny `map` would not. */
module Dicts {
  import opened Wrappers

  type Dict<V> = seq<(string, V)>

  /** `Object.keys(d)`. */
  function Keys<V>(d: Dict<V>): (ks: seq<string>)
    ensures |ks| == |d|
    ensures forall i :: 0 <= i < |d| ==> ks[i] == d[i].0
  {
    if d == [] then [] else [d[0].0] + Keys(d[1..])
  }

  /** `Object.values(d)`. */
  function Values<V>(d: Dict<V>): (vs: seq<V>)
    ensures |vs| == |d|
    ensures forall i :: 0 <= i < |d| ==> vs[i] == d[i].1
  {
    if d == [] then [] else [d[0].1] + Values(d[1..])
  }

  /** No key occurs twice: true of every object JavaScript can build. */
  ghost predicate DistinctKeys<V>(d: Dict<V>) {
    forall i, j :: 0 <= i < j < |d| ==> d[i].0 != d[j].0
  }

  /** `d[k]`, with `None` for `undefined`. */
  function Get<V>(d: Dict<V>, k: string): (r: Option<V>)
    ensures r.Some? <==> k in Keys(d)
  {
    if d == [] then None
    else if d[0].0 == k then Some(d[0].1)
    else Get(d[1..], k)
  }

  lemma {:induction false} GetAt<V>(d: Dict<V>, i: nat)
    requires DistinctKeys(d) && i < |d|
    ensures Get(d, d[i].0) == Some(d[i].1)
  {
    if i > 0 {
      GetAt(d[1..], i - 1);
    }
  }

  /** `d[k] = v`: an existing key keeps its place and takes the new value, a new key goes last. */
  function Put<V>(d: Dict<V>, k: string, v: V): (r: Dict<V>)
    ensures |r| == if k in Keys(d) then |d| else |d| + 1
  {
    if d == [] then [(k, v)]
    else if d[0].0 == k then [(k, v)] + d[1..]
    else [d[0]] + Put(d[1..], k, v)
  }

  lemma {:induction false} PutKeys<V>(d: Dict<V>, k: string, v: V)
    ensures Keys(Put(d, k, v)) == if k in Keys(d) then Keys(d) else Keys(d) + [k]
  {
    if d != [] && d[0].0 != k {
      PutKeys(d[1..], k, v);
      assert Keys(d) == [d[0].0] + Keys(d[1..]);
    }
  }

  lemma {:induction false} PutAbsent<V>(d: Dict<V>, k: string, v: V)
    requires k !in Keys(d)
    ensures Put(d, k, v) == d + [(k, v)]
  {
    if d != [] {
      assert Keys(d) == [d[0].0] + Keys(d[1..]);
      PutAbsent(d[1..], k, v);
    }
  }

  /** A second store under the same key overrides the first. */
  lemma {:induction false} PutPut<V>(d: Dict<V>, k: string, v: V, w: V)
    ensures Put(Put(d, k, v), k, w) == Put(d, k, w)
  {
    if d != [] && d[0].0 != k {
      var p := Put(d[1..], k, v);
      assert Put(d, k, v) == [d[0]] + p;
      assert ([d[0]] + p)[0] == d[0] && ([d[0]] + p)[1..] == p;
      PutPut(d[1..], k, v, w);
    }
  }

  lemma {:induction false} PutGet<V>(d: Dict<V>, k: string, v: V, k': string)
    ensures Get(Put(d, k, v), k') == if k' == k then Some(v) else Get(d, k')
  {
    if d != [] && d[0].0 != k {
      PutGet(d[1..], k, v, k');
    }
  }

  /** `PutGet` for every key at once. */
  lemma PutGetEvery<V>(d: Dict<V>, k: string, v: V)
    ensures forall k' :: Get(Put(d, k, v), k') == if k' == k then Some(v) else Get(d, k')
  {
    forall k' {
      PutGet(d, k, v, k');
    }
  }

  lemma {:induction false} PutDistinct<V>(d: Dict<V>, k: string, v: V)
    requires DistinctKeys(d)
    ensures DistinctKeys(Put(d, k, v))
  {
    PutKeys(d, k, v);
    var r := Put(d, k, v);
    assert Keys(r) == if k in Keys(d) then Keys(d) else Keys(d) + [k];
    forall i, j | 0 <= i < j < |r| ensures r[i].0 != r[j].0 {
      assert Keys(r)[i] == r[i].0 && Keys(r)[j] == r[j].0;
      if j == |d| {
        assert Keys(d)[i] == d[i].0;
      } else {
        assert Keys(d)[i] == d[i].0 && Keys(d)[j] == d[j].0;
      }
    }
  }

  /** `delete d[k]`: the key goes, every other entry stays where it was. */
  function Delete<V>(d: Dict<V>, k: string): (r: Dict<V>)
    ensures |r| <= |d|
  {
    if d == [] then []
    else if d[0].0 == k then Delete(d[1..], k)
    else [d[0]] + Delete(d[1..], k)
  }

  lemma {:induction false} DeleteGet<V>(d: Dict<V>, k: string, k': string)
    ensures Get(Delete(d, k), k') == if k' == k then None else Get(d, k')
  {
    if d != [] {
      DeleteGet(d[1..], k, k');
    }
  }

  /** `DeleteGet` for every key at once. */
  lemma DeleteGetEvery<V>(d: Dict<V>, k: string)
    ensures forall k' :: Get(Delete(d, k), k') == if k' == k then None else Get(d, k')
  {
    forall k' {
      DeleteGet(d, k, k');
    }
  }

  lemma {:induction false} DeleteAbsent<V>(d: Dict<V>, k: string)
    requires k !in Keys(d)
    ensures Delete(d, k) == d
  {
    if d != [] {
      assert Keys(d) == [d[0].0] + Keys(d[1..]);
      DeleteAbsent(d[1..], k);
    }
  }

  /** Stores every pair of `pairs` into `acc`, left to right. */
  function PutAll<V>(acc: Dict<V>, pairs: seq<(string, V)>): (r: Dict<V>)
    ensures |r| >= |acc|
    decreases |pairs|
  {
    if pairs == [] then acc else PutAll(Put(acc, pairs[0].0, pairs[0].1), pairs[1..])
  }

  /** `Object.fromEntries(pairs)`: a later pair with the same key overwrites the value of the
      earlier one, which keeps its position. */
  function FromEntries<V>(pairs: seq<(string, V)>): Dict<V> {
    PutAll([], pairs)
  }

  lemma {:induction false} PutAllKeys<V>(acc: Dict<V>, pairs: seq<(string, V)>, k: string)
    requires DistinctKeys(acc)
    ensures DistinctKeys(PutAll(acc, pairs))
    ensures k in Keys(PutAll(acc, pairs)) <==> k in Keys(acc) || k in Keys(pairs)
    decreases |pairs|
  {
    if pairs != [] {
      var acc' := Put(acc, pairs[0].0, pairs[0].1);
      PutKeys(acc, pairs[0].0, pairs[0].1);
      PutDistinct(acc, pairs[0].0, pairs[0].1);
      PutAllKeys(acc', pairs[1..], k);
      assert Keys(pairs) == [pairs[0].0] + Keys(pairs[1..]);
    }
  }

  /** Every key of the result comes from some pair, every pair's key is present, none twice. */
  lemma FromEntriesKeys<V>(pairs: seq<(string, V)>, k: string)
    ensures DistinctKeys(FromEntries(pairs))
    ensures k in Keys(FromEntries(pairs)) <==> k in Keys(pairs)
  {
    PutAllKeys([], pairs, k);
  }

  /** The value stored under a key is the one from the LAST pair carrying it. */
  lemma {:induction false} PutAllGet<V>(acc: Dict<V>, pairs: seq<(string, V)>, i: nat)
    requires i < |pairs|
    requires forall j :: i < j < |pairs| ==> pairs[j].0 != pairs[i].0
    ensures Get(PutAll(acc, pairs), pairs[i].0) == Some(pairs[i].1)
    decreases |pairs|
  {
    var acc' := Put(acc, pairs[0].0, pairs[0].1);
    if i == 0 {
      PutGet(acc, pairs[0].0, pairs[0].1, pairs[0].0);
      PutAllMissing(acc', pairs[1..], pairs[0].0);
    } else {
      PutAllGet(acc', pairs[1..], i - 1);
    }
  }

  lemma {:induction false} PutAllMissing<V>(acc: Dict<V>, pairs: seq<(string, V)>, k: string)
    requires k !in Keys(pairs)
    ensures Get(PutAll(acc, pairs), k) == Get(acc, k)
    decreases |pairs|
  {
    if pairs != [] {
      assert Keys(pairs) == [pairs[0].0] + Keys(pairs[1..]);
      PutGet(acc, pairs[0].0, pairs[0].1, k);
      PutAllMissing(Put(acc, pairs[0].0, pairs[0].1), pairs[1..], k);
    }
  }

  /** Storing pairs whose keys are new and distinct just appends them, so
      `Object.fromEntries` of distinct-keyed pairs is those pairs in order. */
  lemma {:induction false} PutAllFresh<V>(acc: Dict<V>, pairs: seq<(string, V)>)
    requires DistinctKeys(acc + pairs)
    ensures PutAll(acc, pairs) == acc + pairs
    decreases |pairs|
  {
    if pairs != [] {
      var a := acc + pairs;
      forall i | 0 <= i < |acc| ensures Keys(acc)[i] != pairs[0].0 {
        assert a[i] == acc[i] && a[|acc|] == pairs[0];
      }
      PutAbsent(acc, pairs[0].0, pairs[0].1);
      assert acc + [pairs[0]] + pairs[1..] == a;
      PutAllFresh(acc + [pairs[0]], pairs[1..]);
    }
  }
}
