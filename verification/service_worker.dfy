/** The extension's service worker (`src/serviceWorker.target.js`).

    On installation, every subtool gets a default options entry `{enabled: false}` unless the
    stored options already have one. Messages addressed to `service-worker` may ask it to
    fetch a URL and send back the body, parsed as JSON or as text. The storage and the
    network are outside the model: the stored data is a parameter, and a fetched body is
    named by its URL and how it was read. */
module ServiceWorker {
  import opened Wrappers
  import opened Dicts
  import opened Json
  import Strings

  /** `{enabled: false}`. */
  const DEFAULT_ENTRY: Json := JObj([("enabled", JBool(false))])

  /** The defaults `SUBTOOLS.reduce(...)` builds: one entry per subtool id, in order. */
  function Defaults(ids: seq<string>): (d: Dict<Json>)
  {
    FromEntries(seq(|ids|, i requires 0 <= i < |ids| => (ids[i], DEFAULT_ENTRY)))
  }

  /** The own enumerable properties `Object.assign` copies from a truthy value: an object's
      entries, an array's or a string's indices; numbers and `true` have none. */
  function OwnProps(v: Json): (d: Dict<Json>)
  {
    match v
    case JObj(props) => props
    case JArr(items) => seq(|items|, i requires 0 <= i < |items| => (Strings.NatToString(i), items[i]))
    case JStr(s) => seq(|s|, i requires 0 <= i < |s| => (Strings.NatToString(i), JStr([s[i]])))
    case _ => []
  }

  /** The stored `options` as `Object.assign` reads them: `{}` when missing or falsy. */
  function StoredProps(stored: Option<Json>): (d: Dict<Json>)
    ensures stored.Some? && stored.value.JObj? ==> d == stored.value.props
  {
    if TruthyOpt(stored) then OwnProps(stored.value) else []
  }

  /** `Object.assign({}, defaults, options)`. */
  function Merge(ids: seq<string>, options: Dict<Json>): Dict<Json> {
    PutAll(Defaults(ids), options)
  }

  /** The options after installation: the stored options assigned over the defaults. */
  function MergedOptions(ids: seq<string>, stored: Option<Json>): Dict<Json> {
    Merge(ids, StoredProps(stored))
  }

  /** The `onInstalled` listener: the storage with `options` replaced by the merge. */
  function OnInstalled(ids: seq<string>, storage: Dict<Json>): (r: Dict<Json>)
    ensures Get(r, "options") == Some(JObj(MergedOptions(ids, Get(storage, "options"))))
    ensures forall k :: k != "options" ==> Get(r, k) == Get(storage, k)
  {
    var merged := MergedOptions(ids, Get(storage, "options"));
    forall k ensures Get(Put(storage, "options", JObj(merged)), k) ==
      if k == "options" then Some(JObj(merged)) else Get(storage, k)
    {
      PutGet(storage, "options", JObj(merged), k);
    }
    Put(storage, "options", JObj(merged))
  }

  /** Storing pairs that all carry `v` leaves `v` under each of their keys. */
  lemma {:induction false} PutAllUniform(acc: Dict<Json>, pairs: seq<(string, Json)>, k: string, v: Json)
    requires forall i :: 0 <= i < |pairs| ==> pairs[i].1 == v
    requires k in Keys(pairs)
    ensures Get(PutAll(acc, pairs), k) == Some(v)
    decreases |pairs|
  {
    assert Keys(pairs) == [pairs[0].0] + Keys(pairs[1..]);
    var acc' := Put(acc, pairs[0].0, pairs[0].1);
    if k in Keys(pairs[1..]) {
      PutAllUniform(acc', pairs[1..], k, v);
    } else {
      PutGet(acc, pairs[0].0, pairs[0].1, k);
      PutAllMissing(acc', pairs[1..], k);
    }
  }

  /** The merged options have an entry for every subtool and every stored key, and no other;
      no key twice. */
  lemma MergedKeys(ids: seq<string>, options: Dict<Json>, k: string)
    requires DistinctKeys(options)
    ensures DistinctKeys(Merge(ids, options))
    ensures k in Keys(Merge(ids, options)) <==> k in ids || k in Keys(options)
  {
    var pairs := seq(|ids|, i requires 0 <= i < |ids| => (ids[i], DEFAULT_ENTRY));
    FromEntriesKeys(pairs, k);
    assert Keys(pairs) == ids;
    PutAllKeys(Defaults(ids), options, k);
  }

  /** A stored entry is kept as it is, subtool or not: the stored options win. */
  lemma StoredEntryKept(ids: seq<string>, options: Dict<Json>, k: string)
    requires DistinctKeys(options) && k in Keys(options)
    ensures Get(Merge(ids, options), k) == Get(options, k)
  {
    var i :| 0 <= i < |options| && options[i].0 == k;
    GetAt(options, i);
    PutAllGet(Defaults(ids), options, i);
  }

  /** A subtool without a stored entry gets `{enabled: false}`. */
  lemma NewSubtoolDisabled(ids: seq<string>, options: Dict<Json>, k: string)
    requires k in ids && k !in Keys(options)
    ensures Get(Merge(ids, options), k) == Some(DEFAULT_ENTRY)
  {
    var pairs := seq(|ids|, i requires 0 <= i < |ids| => (ids[i], DEFAULT_ENTRY));
    assert Keys(pairs) == ids;
    PutAllUniform([], pairs, k, DEFAULT_ENTRY);
    PutAllMissing(Defaults(ids), options, k);
  }

  /** Without stored options every subtool starts disabled. */
  lemma MissingOptionsAllDisabled(ids: seq<string>, k: string)
    requires k in ids
    ensures Get(MergedOptions(ids, None), k) == Some(DEFAULT_ENTRY)
  {
    NewSubtoolDisabled(ids, [], k);
  }

  // ---------------------------------------------------------------- messages

  /** A fetched body: the response for `url`, read with `response.json()` or `.text()`. */
  datatype Body = JsonBody(url: string) | TextBody(url: string)

  /** A request: `target`, `type` (`None` for `undefined`) and `data`'s `url` and `mode`
      (`data` itself `None` when missing). */
  datatype Request = Request(target: Option<string>, kind: Option<string>, data: Option<FetchData>)
  datatype FetchData = FetchData(url: string, mode: Option<string>)

  /** What a call of `handleMessage` does: return `false` at once; or finish, having sent the
      listed responses (each `{fetched: body}`, written as its body); or throw. */
  datatype Outcome = Declined | Finished(responses: seq<Body>) | Threw(error: string)

  const STACK_OVERFLOW: string := "RangeError: Maximum call stack size exceeded"

  /** The body `fetch` delivers for the request's `mode`: JSON for `'json'`, text otherwise. */
  function FetchBody(d: FetchData): (b: Body)
    ensures b.url == d.url
    ensures b.JsonBody? <==> d.mode == Some("json")
  {
    if d.mode == Some("json") then JsonBody(d.url) else TextBody(d.url)
  }

  /** As written, the new `sendResponse` calls the variable `sendResponse`, which by then holds
      the new function itself: each call makes another until the stack (`depth` frames) is
      exhausted, so the message is never sent. */
  function SendAsWritten(depth: nat, payload: Body): Outcome
    decreases depth
  {
    if depth == 0 then Threw(STACK_OVERFLOW) else SendAsWritten(depth - 1, payload)
  }

  /** As written, every call of the logging wrapper throws, whatever the stack depth. */
  lemma {:induction false} SendAlwaysOverflowsAsWritten(depth: nat, payload: Body)
    ensures SendAsWritten(depth, payload) == Threw(STACK_OVERFLOW)
    decreases depth
  {
    if depth > 0 {
      SendAlwaysOverflowsAsWritten(depth - 1, payload);
    }
  }

  /** Corrected: the wrapper logs and forwards to the original `sendResponse`. */
  function Send(payload: Body): Outcome {
    Finished([payload])
  }

  /** `handleMessage(request, sender, sendResponse)`, with the wrapper passed in as `send`. */
  function Handle(request: Request, send: Body -> Outcome): Outcome {
    if request.target != Some("service-worker") then Declined
    else if request.kind != Some("fetch") then Finished([])
    else if request.data.None? then Threw("TypeError: request.data is undefined")
    else send(FetchBody(request.data.value))
  }

  /** `handleMessage` as written. */
  function HandleAsWritten(depth: nat, request: Request): Outcome {
    Handle(request, payload => SendAsWritten(depth, payload))
  }

  /** `handleMessage` with the corrected wrapper. */
  function HandleMessage(request: Request): Outcome {
    Handle(request, Send)
  }

  /** As written, a well-formed fetch request is never answered: the handler throws. */
  lemma FetchNeverAnsweredAsWritten(depth: nat, url: string, mode: Option<string>)
    ensures HandleAsWritten(depth, Request(Some("service-worker"), Some("fetch"), Some(FetchData(url, mode))))
      == Threw(STACK_OVERFLOW)
  {
    SendAlwaysOverflowsAsWritten(depth, FetchBody(FetchData(url, mode)));
  }

  /** Requests for anyone else are declined, and the corrected handler answers a fetch with
      exactly one response: the JSON body for mode `'json'`, the text for any other mode. */
  lemma HandleMessageSpec(request: Request)
    ensures request.target != Some("service-worker") <==> HandleMessage(request) == Declined
    ensures request.target == Some("service-worker") && request.kind == Some("fetch") && request.data.Some? ==>
      var d := request.data.value;
      HandleMessage(request) ==
        Finished([if d.mode == Some("json") then JsonBody(d.url) else TextBody(d.url)])
    ensures request.target == Some("service-worker") && request.kind != Some("fetch") ==>
      HandleMessage(request) == Finished([])
  {
  }

  /** The two handlers differ only in how a fetch is answered. */
  lemma HandlersAgreeOffFetch(depth: nat, request: Request)
    requires request.kind != Some("fetch") || request.data.None?
    ensures HandleAsWritten(depth, request) == HandleMessage(request)
  {
  }
}
