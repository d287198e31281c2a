/** The message envelope of the extension's window-message channel: key prefixing on the
    wire, target and reply resolution when posting, and the filter a listener applies. */
module Messaging {
  import opened Wrappers
  import opened Dicts
  import opened Strings
  import opened Json

  const TARGETS: seq<string> := ["injected-script", "content-script", "background"]
  const PREFIX: string := "guzztool_"

  /** `_addPrefix`: a left fold that stores every entry under `PREFIX + key`. */
  function AddPrefix<V>(obj: Dict<V>): (r: Dict<V>)
    ensures |r| <= |obj|
  {
    if obj == [] then []
    else
      var last := obj[|obj| - 1];
      var acc := AddPrefix(obj[..|obj| - 1]);
      PutCountBound(acc, PREFIX + last.0, last.1);
      Put(acc, PREFIX + last.0, last.1)
  }

  lemma PutCountBound<V>(d: Dict<V>, k: string, v: V)
    ensures |Put(d, k, v)| <= |d| + 1
  {
  }

  /** The entries of `obj`, each key prefixed, in the same order. */
  function Prefixed<V>(obj: Dict<V>): (r: Dict<V>)
    ensures |r| == |obj|
    ensures forall i :: 0 <= i < |obj| ==> r[i] == (PREFIX + obj[i].0, obj[i].1)
  {
    seq(|obj|, i requires 0 <= i < |obj| => (PREFIX + obj[i].0, obj[i].1))
  }

  /** Whether every key carries the prefix. */
  predicate AllPrefixed<V>(obj: Dict<V>) {
    forall i :: 0 <= i < |obj| ==> StartsWith(obj[i].0, PREFIX)
  }

  /** The fold of `_removePrefix` once its guard has passed. */
  function StripAll<V>(obj: Dict<V>): Dict<V>
    requires AllPrefixed(obj)
  {
    if obj == [] then []
    else
      var last := obj[|obj| - 1];
      Put(StripAll(obj[..|obj| - 1]), last.0[|PREFIX|..], last.1)
  }

  /** `_removePrefix`: `None` stands for the `false` it returns when a key lacks the prefix. */
  function RemovePrefix<V>(obj: Dict<V>): (r: Option<Dict<V>>)
    ensures r.None? <==> exists i :: 0 <= i < |obj| && !StartsWith(obj[i].0, PREFIX)
  {
    if AllPrefixed(obj) then Some(StripAll(obj)) else None
  }

  /** For an object (whose keys are distinct), prefixing renames each key in place. */
  lemma {:induction false} AddPrefixPointwise<V>(obj: Dict<V>)
    requires DistinctKeys(obj)
    ensures AddPrefix(obj) == Prefixed(obj)
  {
    if obj != [] {
      var n := |obj| - 1;
      var init := obj[..n];
      AddPrefixPointwise(init);
      var k := PREFIX + obj[n].0;
      forall j | 0 <= j < n ensures Keys(Prefixed(init))[j] != k {
        assert (PREFIX + init[j].0)[|PREFIX|..] == init[j].0;
        assert obj[n].0 == k[|PREFIX|..];
      }
      PutAbsent(Prefixed(init), k, obj[n].1);
      assert Prefixed(init) + [(k, obj[n].1)] == Prefixed(obj);
    }
  }

  /** Every key of a prefixed object starts with `PREFIX`, and no entry is lost. */
  lemma AddPrefixKeys<V>(obj: Dict<V>)
    requires DistinctKeys(obj)
    ensures |AddPrefix(obj)| == |obj|
    ensures forall i :: 0 <= i < |obj| ==> AddPrefix(obj)[i].0 == PREFIX + obj[i].0
    ensures AllPrefixed(AddPrefix(obj))
  {
    AddPrefixPointwise(obj);
    forall i | 0 <= i < |obj| ensures StartsWith(AddPrefix(obj)[i].0, PREFIX) {
      assert (PREFIX + obj[i].0)[..|PREFIX|] == PREFIX;
    }
  }

  lemma {:induction false} StripPrefixed<V>(obj: Dict<V>)
    requires DistinctKeys(obj) && AllPrefixed(Prefixed(obj))
    ensures StripAll(Prefixed(obj)) == obj
  {
    if obj != [] {
      var n := |obj| - 1;
      var init := obj[..n];
      assert Prefixed(obj)[..n] == Prefixed(init);
      StripPrefixed(init);
      assert (PREFIX + obj[n].0)[|PREFIX|..] == obj[n].0;
      PutAbsent(init, obj[n].0, obj[n].1);
      assert init + [obj[n]] == obj;
    }
  }

  /** Unwrapping a wrapped object gives the object back. */
  lemma RemoveAddPrefix<V>(obj: Dict<V>)
    requires DistinctKeys(obj)
    ensures RemovePrefix(AddPrefix(obj)) == Some(obj)
  {
    AddPrefixKeys(obj);
    AddPrefixPointwise(obj);
    StripPrefixed(obj);
  }

  /** The `target` argument of `postMessage`: `null` (the default), one name, or an array. */
  datatype TargetArg = Unset | Scalar(name: string) | List(names: seq<string>) {
    /** JavaScript truthiness of the argument: every array is truthy, `""` is not. */
    predicate Truthy() {
      match this
      case Unset => false
      case Scalar(n) => n != ""
      case List(_) => true
    }
  }

  /** The fields of a received message that a reply reads. */
  datatype Received = Received(id: string, msgType: Option<string>, source: string)

  /** The message `postMessage` builds (before prefixing). `None` stands for `null`. */
  datatype Envelope = Envelope(
    id: string,
    msgType: Option<string>,
    content: Json,
    source: string,
    target: seq<string>,
    context: Option<string>,
    replyTo: Option<string>)

  function OptStr(o: Option<string>): Json {
    if o.Some? then JStr(o.value) else JNull
  }

  /** The envelope as the object literal `{id, type, content, source, target, context, replyTo}`. */
  function EnvelopeObject(e: Envelope): (d: Dict<Json>)
    ensures DistinctKeys(d)
  {
    [("id", JStr(e.id)), ("type", OptStr(e.msgType)), ("content", e.content),
     ("source", JStr(e.source)), ("target", JArr(Strs(e.target))),
     ("context", OptStr(e.context)), ("replyTo", OptStr(e.replyTo))]
  }

  /** What goes over the wire. */
  function Wire(e: Envelope): Dict<Json> {
    AddPrefix(EnvelopeObject(e))
  }

  /** `TARGETS` without `source`. */
  function OtherTargets(source: string): (r: seq<string>)
    ensures forall t :: t in r <==> t in TARGETS && t != source
    ensures |r| > 0
  {
    if source == TARGETS[0] then TARGETS[1..]
    else if source == TARGETS[1] then [TARGETS[0], TARGETS[2]]
    else if source == TARGETS[2] then TARGETS[..2]
    else TARGETS
  }

  /** The `type` argument of `onMessage`: `null`, one type, or an array of types. */
  datatype TypeArg = AnyType | OneType(t: string) | Types(ts: seq<string>)

  /** What a registered listener does with one `message` event. */
  datatype Verdict = Deliver | Ignore | Throws

  /** `x.includes(source)` on the received `target` field: membership for an array,
      substring search for a string, a TypeError for anything else (or a missing field). */
  function TargetIncludes(target: Option<Json>, source: string): (r: Result<bool>)
  {
    match target
    case Some(JArr(items)) => Ok(JStr(source) in items)
    case Some(JStr(s)) => Ok(Contains(s, source))
    case _ => Err("TypeError: target.includes is not a function")
  }

  /** The listener's type filter, on the message's `type`: any type, one type (the empty
      name letting everything through) or one of a list. */
  predicate TypeOk(typeArg: TypeArg, msgType: Option<Json>) {
    match typeArg
    case AnyType => true
    case OneType(t) => t == "" || msgType == Some(JStr(t))
    case Types(ts) => msgType.Some? && msgType.value.JStr? && msgType.value.s in ts
  }

  /** The context check: a message without a (truthy) context is global. */
  predicate ContextOk(dataContext: Option<Json>, context: Option<string>) {
    !TruthyOpt(dataContext) || dataContext.value == OptStr(context)
  }

  /** The type filter on a posted envelope's type. */
  lemma TypeOkPosted(typeArg: TypeArg, msgType: Option<string>)
    ensures TypeOk(typeArg, Some(OptStr(msgType))) ==
      match typeArg
      case AnyType => true
      case OneType(t) => t == "" || msgType == Some(t)
      case Types(ts) => msgType.Some? && msgType.value in ts
  {
  }

  class Messaging {
    const source: string
    /** `None` is the global context (`null`). */
    const context: Option<string>

    constructor (source: string, context: Option<string>)
      ensures this.source == source && this.context == context
    {
      this.source := source;
      this.context := context;
    }

    /** `getContext`: the same instance when the context is unchanged, otherwise a new one
        with the same source. */
    method GetContext(context: Option<string>) returns (m: Messaging)
      ensures context == this.context ==> m == this
      ensures context != this.context ==> fresh(m)
      ensures m.source == source && m.context == context
    {
      if context == this.context {
        return this;
      }
      m := new Messaging(source, context);
    }

    /** The envelope `postMessage` builds, or the error it throws. `id` is the random UUID. */
    method PostMessage(msgType: Option<string>, target: TargetArg, content: Json,
                       context: Option<string>, replyTo: Option<Received>, id: string)
      returns (r: Result<Envelope>)
      // a reply must not name its targets, and goes back to the replied-to message's source
      ensures replyTo.Some? && target.Truthy() ==> r.Err?
      ensures replyTo.Some? && !target.Truthy() ==> (r.Ok? <==> replyTo.value.source in TARGETS)
      ensures replyTo.Some? && r.Ok? ==>
        && r.value.target == [replyTo.value.source]
        && r.value.replyTo == Some(replyTo.value.id)
        && r.value.msgType == (if msgType.Some? && msgType.value != "" then msgType else replyTo.value.msgType)
      // a fresh message keeps its type and resolves its targets
      ensures replyTo.None? && r.Ok? ==> r.value.msgType == msgType && r.value.replyTo.None?
      ensures replyTo.None? && target.Unset? ==> r.Ok? && r.value.target == OtherTargets(source)
      ensures replyTo.None? && target.Scalar? ==>
        (r.Ok? <==> target.name in TARGETS) && (r.Ok? ==> r.value.target == [target.name])
      ensures replyTo.None? && target.List? ==>
        && (r.Ok? <==> |target.names| > 0 && forall t :: t in target.names ==> t in TARGETS)
        && (r.Ok? ==> r.value.target == target.names)
      // the fixed fields
      ensures r.Ok? ==>
        && r.value.id == id && r.value.content == content
        && r.value.source == source && r.value.context == context
      ensures r.Ok? ==> |r.value.target| > 0 && forall t :: t in r.value.target ==> t in TARGETS
    {
      var msgType, target, replyId := msgType, target, None;
      if replyTo.Some? {
        if target.Truthy() {
          return Err("Targets are inferred automatically for replies");
        }
        target := List([replyTo.value.source]);
        if msgType.None? || msgType.value == "" {
          msgType := replyTo.value.msgType;
        }
        replyId := Some(replyTo.value.id);
      }
      var targets: seq<string>;
      match target {
        case Unset => targets := OtherTargets(source);
        case Scalar(t) => targets := [t];
        case List(ts) => targets := ts;
      }
      if |targets| == 0 {
        return Err("Target cannot be empty");
      }
      if !(forall t :: t in targets ==> t in TARGETS) {
        return Err("Invalid target(s)");
      }
      r := Ok(Envelope(id, msgType, content, source, targets, context, replyId));
    }

    /** The listener `onMessage` registers, applied to one event's `data` object. */
    function Receive(typeArg: TypeArg, includeReplies: bool, raw: Dict<Json>): (v: Verdict)
      ensures v == Deliver ==> RemovePrefix(raw).Some?
    {
      match RemovePrefix(raw)
      case None => Ignore
      case Some(data) =>
        Judge(typeArg, includeReplies, Get(data, "type"), Get(data, "target"), Get(data, "context"), Get(data, "replyTo"))
    }

    /** The listener's checks on the message's `type`, `target`, `context` and `replyTo`. */
    function Judge(typeArg: TypeArg, includeReplies: bool,
                   msgType: Option<Json>, target: Option<Json>, dataContext: Option<Json>, replyTo: Option<Json>): Verdict
    {
      if !TypeOk(typeArg, msgType) then Ignore
      else match TargetIncludes(target, source)
        case Err(_) => Throws
        case Ok(included) =>
          if included && ContextOk(dataContext, context) && (includeReplies || !TruthyOpt(replyTo))
          then Deliver else Ignore
    }

    /** A posted envelope reaches a listener exactly when its type passes the filter, the
        listener's source is a target, the context is global or the listener's, and it is not a
        reply (unless replies are asked for). Such an envelope never makes a listener throw. */
    lemma ReceivePosted(typeArg: TypeArg, includeReplies: bool, e: Envelope)
      ensures Receive(typeArg, includeReplies, Wire(e)) ==
        if (match typeArg
              case AnyType => true
              case OneType(t) => t == "" || e.msgType == Some(t)
              case Types(ts) => e.msgType.Some? && e.msgType.value in ts)
           && source in e.target
           && (e.context.None? || e.context.value == "" || e.context == context)
           && (includeReplies || e.replyTo.None? || e.replyTo.value == "")
        then Deliver else Ignore
    {
      ReceiveWire(typeArg, includeReplies, e);
      JudgePosted(typeArg, includeReplies, e);
    }

    /** A listener reads an envelope's fields back from its wire form. */
    lemma ReceiveWire(typeArg: TypeArg, includeReplies: bool, e: Envelope)
      ensures Receive(typeArg, includeReplies, Wire(e)) ==
        Judge(typeArg, includeReplies, Some(OptStr(e.msgType)), Some(JArr(Strs(e.target))),
              Some(OptStr(e.context)), Some(OptStr(e.replyTo)))
    {
      WireFields(e);
    }

    /** The checks on the fields of a posted envelope. */
    lemma JudgePosted(typeArg: TypeArg, includeReplies: bool, e: Envelope)
      ensures Judge(typeArg, includeReplies, Some(OptStr(e.msgType)), Some(JArr(Strs(e.target))),
                    Some(OptStr(e.context)), Some(OptStr(e.replyTo))) ==
        if (match typeArg
              case AnyType => true
              case OneType(t) => t == "" || e.msgType == Some(t)
              case Types(ts) => e.msgType.Some? && e.msgType.value in ts)
           && source in e.target
           && (e.context.None? || e.context.value == "" || e.context == context)
           && (includeReplies || e.replyTo.None? || e.replyTo.value == "")
        then Deliver else Ignore
    {
      StrsHas(e.target, source);
      TypeOkPosted(typeArg, e.msgType);
    }
  }

  lemma StrsHas(ss: seq<string>, x: string)
    ensures JStr(x) in Strs(ss) <==> x in ss
  {
    if x in ss {
      var i :| 0 <= i < |ss| && ss[i] == x;
      assert Strs(ss)[i] == JStr(x);
    }
  }

  /** The fields a listener reads, recovered from the wire form of an envelope. */
  lemma WireFields(e: Envelope)
    ensures RemovePrefix(Wire(e)) == Some(EnvelopeObject(e))
    ensures Get(EnvelopeObject(e), "type") == Some(OptStr(e.msgType))
    ensures Get(EnvelopeObject(e), "target") == Some(JArr(Strs(e.target)))
    ensures Get(EnvelopeObject(e), "context") == Some(OptStr(e.context))
    ensures Get(EnvelopeObject(e), "replyTo") == Some(OptStr(e.replyTo))
  {
    var d := EnvelopeObject(e);
    RemoveAddPrefix(d);
    GetAt(d, 1);
    GetAt(d, 4);
    GetAt(d, 5);
    GetAt(d, 6);
  }
}
