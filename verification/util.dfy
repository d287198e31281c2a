/** The generic helpers of `src/util/util.js`: cumulative-weight selection and the recursive
    `Object.assign`. */
module Util {
  import opened Wrappers
  import opened Dicts
  import opened Json
  import Strings

  // ---------------------------------------------------------------------------------------
  // weighted_random
  // ---------------------------------------------------------------------------------------

  /** The sum of the first `n` weights: `cumulativeWeights[n - 1]` for `n > 0`. */
  function Cumulative(ws: seq<real>, n: nat): real
    requires n <= |ws|
  {
    if n == 0 then 0.0 else Cumulative(ws, n - 1) + ws[n - 1]
  }

  /** The first index at or after `i` whose cumulative weight exceeds `t`, or `|ws|` when
      there is none (where the scan runs off the end). */
  function FirstAbove(ws: seq<real>, t: real, i: nat): (k: nat)
    requires i <= |ws|
    ensures i <= k <= |ws|
    ensures k < |ws| ==> Cumulative(ws, k + 1) > t
    ensures forall j :: i < j <= k ==> Cumulative(ws, j) <= t
    decreases |ws| - i
  {
    if i == |ws| then |ws|
    else if Cumulative(ws, i + 1) > t then i
    else FirstAbove(ws, t, i + 1)
  }

  /** `Math.random() * total`, kept behind a name so that the one fact needed about the
      product, `ScaledBelow`, is proved apart from the scans that use it. */
  function Scale(r: real, x: real): real {
    r * x
  }

  /** The index `weighted_random` stops at for the draw `r` (`Math.random()`): the threshold
      is `r` times the total weight. */
  function PickIndex(choices: Dict<real>, r: real): nat {
    var ws := Values(choices);
    FirstAbove(ws, Scale(r, Cumulative(ws, |ws|)), 0)
  }

  /** The key `weighted_random` returns, `None` for `undefined`. */
  function Choice(choices: Dict<real>, r: real): (pick: Option<string>)
    ensures pick.Some? ==> pick.value in Keys(choices)
  {
    var k := PickIndex(choices, r);
    if k < |choices| then Some(choices[k].0) else None
  }

  /** `weighted_random(choiceDict)` with the random draw `r` as a parameter: fills the
      cumulative-weight array, then scans it for the first entry above `r` times the total. */
  method WeightedRandom(choiceDict: Dict<real>, r: real) returns (pick: Option<string>)
    ensures pick == Choice(choiceDict, r)
  {
    var n := |choiceDict|;
    if n == 0 {
      // `cumulativeWeights` is `[undefined]`, the draw is NaN, and `choices[1]` is undefined.
      return None;
    }
    ghost var ws := Values(choiceDict);
    var cumulativeWeights := new real[n];
    cumulativeWeights[0] := choiceDict[0].1;
    var i := 1;
    while i < n
      invariant 1 <= i <= n
      invariant forall j :: 0 <= j < i ==> cumulativeWeights[j] == Cumulative(ws, j + 1)
    {
      cumulativeWeights[i] := choiceDict[i].1 + cumulativeWeights[i - 1];
      i := i + 1;
    }
    var random := Scale(r, cumulativeWeights[n - 1]);
    i := 0;
    while i < n
      invariant 0 <= i <= n
      invariant FirstAbove(ws, random, 0) == FirstAbove(ws, random, i)
    {
      if cumulativeWeights[i] > random {
        break;
      }
      i := i + 1;
    }
    pick := if i < n then Some(choiceDict[i].0) else None;
  }

  /** With non-negative weights, a positive total and a draw in [0, 1), a key is always
      chosen, and never one of weight zero. */
  lemma ChoiceAvoidsZero(choices: Dict<real>, r: real)
    requires forall i :: 0 <= i < |choices| ==> choices[i].1 >= 0.0
    requires Cumulative(Values(choices), |choices|) > 0.0
    requires 0.0 <= r < 1.0
    ensures PickIndex(choices, r) < |choices|
    ensures choices[PickIndex(choices, r)].1 > 0.0
    ensures Choice(choices, r) == Some(choices[PickIndex(choices, r)].0)
  {
    var ws := Values(choices);
    var t := Scale(r, Cumulative(ws, |ws|));
    ScaledBelow(r, Cumulative(ws, |ws|));
    ValuesNonNegative(choices);
    AboveIsPositive(ws, t);
  }

  lemma ValuesNonNegative(choices: Dict<real>)
    requires forall i :: 0 <= i < |choices| ==> choices[i].1 >= 0.0
    ensures forall i :: 0 <= i < |Values(choices)| ==> Values(choices)[i] >= 0.0
  {
  }

  /** The scan stops inside the list, on a positive weight, when the threshold lies in
      [0, total). */
  lemma AboveIsPositive(ws: seq<real>, t: real)
    requires forall i :: 0 <= i < |ws| ==> ws[i] >= 0.0
    requires 0.0 <= t < Cumulative(ws, |ws|)
    ensures FirstAbove(ws, t, 0) < |ws|
    ensures ws[FirstAbove(ws, t, 0)] > 0.0
  {
    var k := FirstAbove(ws, t, 0);
    assert Cumulative(ws, k + 1) == Cumulative(ws, k) + ws[k];
    if k > 0 {
      assert Cumulative(ws, k) <= t;
    }
  }

  lemma ScaledBelow(r: real, total: real)
    requires 0.0 <= r < 1.0 && total > 0.0
    ensures 0.0 <= Scale(r, total) < total
  {
  }

  /** When no cumulative weight exceeds the threshold the scan runs past the end and the
      result is `undefined`; in particular when every weight is zero. */
  lemma NoneAbove(choices: Dict<real>, r: real)
    requires forall j :: 0 < j <= |choices| ==>
      Cumulative(Values(choices), j) <= Scale(r, Cumulative(Values(choices), |choices|))
    ensures Choice(choices, r) == None
  {
  }

  lemma {:induction false} CumulativeZero(ws: seq<real>, n: nat)
    requires n <= |ws|
    requires forall i :: 0 <= i < |ws| ==> ws[i] == 0.0
    ensures Cumulative(ws, n) == 0.0
  {
    if n > 0 {
      CumulativeZero(ws, n - 1);
    }
  }

  lemma AllZeroUndefined(choices: Dict<real>, r: real)
    requires forall i :: 0 <= i < |choices| ==> choices[i].1 == 0.0
    ensures Choice(choices, r) == None
  {
    var ws := Values(choices);
    forall j | 0 < j <= |choices|
      ensures Cumulative(ws, j) <= Scale(r, Cumulative(ws, |choices|))
    {
      CumulativeZero(ws, j);
      CumulativeZero(ws, |choices|);
    }
    NoneAbove(choices, r);
  }

  // ---------------------------------------------------------------------------------------
  // nested_assign
  // ---------------------------------------------------------------------------------------

  /** `nested_assign` recurses into a key exactly when the target's and the source's values
      are both truthy and of type `'object'`, i.e. both are arrays or plain objects. */
  predicate Recurses(tv: Option<Json>, sv: Json) {
    TruthyOpt(tv) && Truthy(sv) && IsObjectType(tv.value) && IsObjectType(sv)
  }

  lemma RecursesOnContainers(tv: Option<Json>, sv: Json)
    ensures Recurses(tv, sv) <==>
      tv.Some? && (tv.value.JArr? || tv.value.JObj?) && (sv.JArr? || sv.JObj?)
  {
  }

  /** The number of keys `Object.keys` lists for an array or object source. */
  function KeyCount(s: Json): nat {
    if s.JObj? then |s.props| else if s.JArr? then |s.items| else 0
  }

  /** `Object.keys(s)[i]`: array indices print as decimal strings. */
  function KeyAt(s: Json, i: nat): string
    requires i < KeyCount(s)
  {
    if s.JObj? then s.props[i].0 else Strings.NatToString(i)
  }

  /** `s[Object.keys(s)[i]]`. */
  function ValueAt(s: Json, i: nat): (v: Json)
    requires i < KeyCount(s)
    ensures v < s
  {
    if s.JObj? then s.props[i].1 else s.items[i]
  }

  /** The value `target[key]` holds after `nested_assign` handles `key`, where `tv` is its old
      value and `sv` the source's. */
  function MergeValue(tv: Option<Json>, sv: Json): Json
    decreases sv, 2
  {
    if !Recurses(tv, sv) then sv
    else if tv.value.JObj? then JObj(AssignProps(tv.value.props, sv, 0))
    else if sv.JArr? then JArr(AssignItems(tv.value.items, sv, 0))
    // An array target with a plain-object source: the named properties this puts on the
    // array are not representable as a Json value, so the array is kept as it was.
    else tv.value
  }

  /** The object target after the keys of `s` from the `i`-th on are assigned into it. */
  function AssignProps(tp: Dict<Json>, s: Json, i: nat): Dict<Json>
    requires i <= KeyCount(s)
    decreases s, 0, KeyCount(s) - i
  {
    if i == KeyCount(s) then tp
    else
      var k := KeyAt(s, i);
      AssignProps(Put(tp, k, MergeValue(Get(tp, k), ValueAt(s, i))), s, i + 1)
  }

  /** An array target after the indices of the array `s` from `i` on are assigned into it;
      index `i` is an existing element or the next one to append. */
  function AssignItems(ti: seq<Json>, s: Json, i: nat): (r: seq<Json>)
    requires s.JArr? && i <= |s.items| && i <= |ti|
    ensures |r| == if |s.items| <= |ti| then |ti| else |s.items|
    ensures forall j :: 0 <= j < |ti| && (j < i || |s.items| <= j) ==> r[j] == ti[j]
    decreases s, 0, |s.items| - i
  {
    if i == |s.items| then ti
    else if i < |ti| then
      AssignItems(ti[i := MergeValue(Some(ti[i]), s.items[i])], s, i + 1)
    else AssignItems(ti + [s.items[i]], s, i + 1)
  }

  /** `nested_assign(target, ...sources)` on an object target: the sources are applied in
      order. */
  function AssignAll(target: Dict<Json>, sources: seq<Dict<Json>>): Dict<Json>
    decreases |sources|
  {
    if sources == [] then target
    else AssignAll(AssignProps(target, JObj(sources[0]), 0), sources[1..])
  }

  /** `nested_assign(target, ...sources)`: the target is updated key by key, source by
      source. */
  method NestedAssign(target: Dict<Json>, sources: seq<Dict<Json>>) returns (r: Dict<Json>)
    ensures r == AssignAll(target, sources)
  {
    r := target;
    for j := 0 to |sources|
      invariant AssignAll(target, sources) == AssignAll(r, sources[j..])
    {
      assert sources[j..][1..] == sources[j + 1..];
      r := AssignFrom(r, JObj(sources[j]));
    }
  }

  /** One source's `Object.keys(source).forEach(...)` on an object target. */
  method AssignFrom(tp: Dict<Json>, s: Json) returns (r: Dict<Json>)
    ensures r == AssignProps(tp, s, 0)
    decreases s, 0
  {
    r := tp;
    for i := 0 to KeyCount(s)
      invariant AssignProps(tp, s, 0) == AssignProps(r, s, i)
    {
      var key := KeyAt(s, i);
      var v := MergeInto(Get(r, key), ValueAt(s, i));
      r := Put(r, key, v);
    }
  }

  /** One source's `forEach` on an array target with an array source. */
  method AssignElements(ti: seq<Json>, s: Json) returns (r: seq<Json>)
    requires s.JArr?
    ensures r == AssignItems(ti, s, 0)
    decreases s, 0
  {
    r := ti;
    for i := 0 to |s.items|
      invariant i <= |r|
      invariant AssignItems(ti, s, 0) == AssignItems(r, s, i)
    {
      if i < |r| {
        var v := MergeInto(Some(r[i]), s.items[i]);
        r := r[i := v];
      } else {
        r := r + [s.items[i]];
      }
    }
  }

  /** The right-hand side of `target[key] = ...`: a recursive `nested_assign` or the source
      value itself. */
  method MergeInto(tv: Option<Json>, sv: Json) returns (r: Json)
    ensures r == MergeValue(tv, sv)
    decreases sv, 2
  {
    if !Recurses(tv, sv) {
      return sv;
    }
    if tv.value.JObj? {
      var p := AssignFrom(tv.value.props, sv);
      r := JObj(p);
    } else if sv.JArr? {
      var items := AssignElements(tv.value.items, sv);
      r := JArr(items);
    } else {
      r := tv.value;
    }
  }

  /** The keys `Object.keys` lists for an array or object source. */
  function SourceKeys(s: Json): (ks: seq<string>)
    ensures |ks| == KeyCount(s)
    ensures forall i :: 0 <= i < KeyCount(s) ==> ks[i] == KeyAt(s, i)
  {
    seq(KeyCount(s), i requires 0 <= i < KeyCount(s) => KeyAt(s, i))
  }

  /** The merged object has exactly the target's keys and the source's keys, none twice;
      the target's keys keep their order and new keys follow. */
  lemma {:induction false} AssignPropsKeys(tp: Dict<Json>, s: Json, i: nat, k: string)
    requires i <= KeyCount(s) && DistinctKeys(tp)
    ensures DistinctKeys(AssignProps(tp, s, i))
    ensures k in Keys(AssignProps(tp, s, i)) <==> k in Keys(tp) || k in SourceKeys(s)[i..]
    decreases KeyCount(s) - i
  {
    if i < KeyCount(s) {
      var key := KeyAt(s, i);
      var v := MergeValue(Get(tp, key), ValueAt(s, i));
      AssignPropsStep(tp, s, i);
      PutMembership(tp, key, v, k);
      AssignPropsKeys(Put(tp, key, v), s, i + 1, k);
      assert SourceKeys(s)[i..] == [key] + SourceKeys(s)[i + 1..];
    }
  }

  lemma PutMembership<V>(d: Dict<V>, key: string, v: V, k: string)
    requires DistinctKeys(d)
    ensures DistinctKeys(Put(d, key, v))
    ensures k in Keys(Put(d, key, v)) <==> k in Keys(d) || k == key
  {
    PutKeys(d, key, v);
    PutDistinct(d, key, v);
  }

  /** A key the source does not list keeps the target's value. */
  lemma {:induction false} AssignPropsKeeps(tp: Dict<Json>, s: Json, i: nat, k: string)
    requires i <= KeyCount(s) && k !in SourceKeys(s)[i..]
    ensures Get(AssignProps(tp, s, i), k) == Get(tp, k)
    decreases KeyCount(s) - i
  {
    if i < KeyCount(s) {
      var key := KeyAt(s, i);
      assert SourceKeys(s)[i] == key;
      PutGet(tp, key, MergeValue(Get(tp, key), ValueAt(s, i)), k);
      assert SourceKeys(s)[i + 1..] == SourceKeys(s)[i..][1..];
      AssignPropsKeeps(Put(tp, key, MergeValue(Get(tp, key), ValueAt(s, i))), s, i + 1, k);
    }
  }

  /** The `j`-th key of the source ends up holding the merge of the target's old value with
      the source's, provided no other key of the source repeats it (as in any real object). */
  lemma {:induction false} AssignPropsSets(tp: Dict<Json>, s: Json, i: nat, j: nat)
    requires i <= j < KeyCount(s)
    requires forall m :: 0 <= m < KeyCount(s) && m != j ==> KeyAt(s, m) != KeyAt(s, j)
    ensures Get(AssignProps(tp, s, i), KeyAt(s, j)) ==
      Some(MergeValue(Get(tp, KeyAt(s, j)), ValueAt(s, j)))
    decreases KeyCount(s) - i
  {
    if i == j {
      AssignPropsSetsHere(tp, s, j);
    } else {
      var key, kj := KeyAt(s, i), KeyAt(s, j);
      assert key != kj;
      var v := MergeValue(Get(tp, key), ValueAt(s, i));
      AssignPropsStep(tp, s, i);
      PutGet(tp, key, v, kj);
      AssignPropsSets(Put(tp, key, v), s, i + 1, j);
    }
  }

  /** The `j`-th key's own step, after which no later key touches it. */
  lemma AssignPropsSetsHere(tp: Dict<Json>, s: Json, j: nat)
    requires j < KeyCount(s)
    requires forall m :: 0 <= m < KeyCount(s) && m != j ==> KeyAt(s, m) != KeyAt(s, j)
    ensures Get(AssignProps(tp, s, j), KeyAt(s, j)) ==
      Some(MergeValue(Get(tp, KeyAt(s, j)), ValueAt(s, j)))
  {
    var kj := KeyAt(s, j);
    var v := MergeValue(Get(tp, kj), ValueAt(s, j));
    AssignPropsStep(tp, s, j);
    PutGet(tp, kj, v, kj);
    LaterKeysDiffer(s, j);
    AssignPropsKeeps(Put(tp, kj, v), s, j + 1, kj);
  }

  /** One key of the source assigned. */
  lemma AssignPropsStep(tp: Dict<Json>, s: Json, i: nat)
    requires i < KeyCount(s)
    ensures AssignProps(tp, s, i) ==
      AssignProps(Put(tp, KeyAt(s, i), MergeValue(Get(tp, KeyAt(s, i)), ValueAt(s, i))), s, i + 1)
  {
  }

  lemma LaterKeysDiffer(s: Json, j: nat)
    requires j < KeyCount(s)
    requires forall m :: 0 <= m < KeyCount(s) && m != j ==> KeyAt(s, m) != KeyAt(s, j)
    ensures KeyAt(s, j) !in SourceKeys(s)[j + 1..]
  {
    var later := SourceKeys(s)[j + 1..];
    forall m | 0 <= m < |later| ensures later[m] != KeyAt(s, j) {
      assert later[m] == KeyAt(s, j + 1 + m);
    }
  }

  /** Keys present in no source are left unchanged by `nested_assign`. */
  lemma {:induction false} TargetOnlyKeysKept(target: Dict<Json>, sources: seq<Dict<Json>>, k: string)
    requires forall j :: 0 <= j < |sources| ==> k !in Keys(sources[j])
    ensures Get(AssignAll(target, sources), k) == Get(target, k)
    decreases |sources|
  {
    if sources != [] {
      assert SourceKeys(JObj(sources[0])) == Keys(sources[0]);
      AssignPropsKeeps(target, JObj(sources[0]), 0, k);
      TargetOnlyKeysKept(AssignProps(target, JObj(sources[0]), 0), sources[1..], k);
    }
  }

  /** Sources apply left to right: a key whose value in the last source that has it is not
      a truthy object ends up holding exactly that value. */
  lemma {:induction false} LaterSourcesWin(target: Dict<Json>, sources: seq<Dict<Json>>,
                                           j: nat, k: string, v: Json)
    requires j < |sources| && DistinctKeys(sources[j]) && Get(sources[j], k) == Some(v)
    requires !(Truthy(v) && IsObjectType(v))
    requires forall m :: j < m < |sources| ==> k !in Keys(sources[m])
    ensures Get(AssignAll(target, sources), k) == Some(v)
    decreases |sources|
  {
    var next := AssignProps(target, JObj(sources[0]), 0);
    if j == 0 {
      SourceSets(target, sources[0], k, v);
      LaterSourcesLack(sources, k);
      TargetOnlyKeysKept(next, sources[1..], k);
    } else {
      LaterSourcesWin(next, sources[1..], j - 1, k, v);
    }
  }

  /** Assigning one source sets its keys' plain values as they are. */
  lemma SourceSets(target: Dict<Json>, source: Dict<Json>, k: string, v: Json)
    requires DistinctKeys(source) && Get(source, k) == Some(v)
    requires !(Truthy(v) && IsObjectType(v))
    ensures Get(AssignProps(target, JObj(source), 0), k) == Some(v)
  {
    var s := JObj(source);
    var i := KeyIndex(source, k);
    forall m | 0 <= m < KeyCount(s) && m != i ensures KeyAt(s, m) != KeyAt(s, i) {
    }
    GetAt(source, i);
    AssignPropsSets(target, s, 0, i);
  }

  lemma LaterSourcesLack(sources: seq<Dict<Json>>, k: string)
    requires sources != []
    requires forall m :: 0 < m < |sources| ==> k !in Keys(sources[m])
    ensures forall m :: 0 <= m < |sources[1..]| ==> k !in Keys(sources[1..][m])
  {
  }

  /** Where a present key sits in an object. */
  lemma KeyIndex(d: Dict<Json>, k: string) returns (i: nat)
    requires k in Keys(d)
    ensures i < |d| && d[i].0 == k
  {
    i :| 0 <= i < |Keys(d)| && Keys(d)[i] == k;
  }
}
