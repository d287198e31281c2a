/** JSON-shaped JavaScript values, with JavaScript's truthiness and `typeof` tests.
    Numbers are reals: IEEE-754 rounding, NaN and the infinities are outside this model. */
module Json {
  import opened Wrappers
  import opened Dicts

  datatype Json =
    | JNull
    | JBool(b: bool)
    | JNum(n: real)
    | JStr(s: string)
    | JArr(items: seq<Json>)
    | JObj(props: Dict<Json>)

  /** JavaScript truthiness: `null`, `false`, `0` and `""` are falsy, every array and object
      (even an empty one) is truthy. */
  predicate Truthy(v: Json) {
    match v
    case JNull => false
    case JBool(b) => b
    case JNum(n) => n != 0.0
    case JStr(s) => s != ""
    case JArr(_) => true
    case JObj(_) => true
  }

  /** `typeof v === 'object'`, which also holds of `null` and of arrays. */
  predicate IsObjectType(v: Json) {
    v.JNull? || v.JArr? || v.JObj?
  }

  /** A possibly-missing value is truthy when present and truthy (`undefined` is falsy). */
  predicate TruthyOpt(v: Option<Json>) {
    v.Some? && Truthy(v.value)
  }

  /** A list of strings as a JSON array's items, one string each. */
  function Strs(ss: seq<string>): (r: seq<Json>)
    ensures |r| == |ss| && forall i :: 0 <= i < |ss| ==> r[i] == JStr(ss[i])
  {
    seq(|ss|, i requires 0 <= i < |ss| => JStr(ss[i]))
  }

  /** `v[k]` on an object; `undefined` on anything else or a missing key. */
  function Field(v: Json, k: string): (r: Option<Json>)
    ensures r.Some? ==> v.JObj?
  {
    if v.JObj? then Get(v.props, k) else None
  }
}
