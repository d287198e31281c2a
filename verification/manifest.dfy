/** The manifest rewrite of the build (`transform` in `webpack.config.mjs`).

    The parsed `src/manifest.json` is changed in place: the package fields are set, every
    `"<MATCHES>"` in the `matches` lists of the three matching segments becomes the union of
    all subtools' match patterns, every `"<WEB ACCESSIBLE RESOURCES>"` becomes the list of
    web-accessible files, and the result is shaped for the browser: Manifest V3 for Chrome,
    Manifest V2 for Firefox. A malformed manifest makes the rewrite throw, which is `Err`
    here. Serialising the result (`JSON.stringify`) is outside the model. */
module Manifest {
  import opened Wrappers
  import opened Dicts
  import opened Json
  import opened Seqs

  const MATCHES: string := "<MATCHES>"
  const RESOURCES: string := "<WEB ACCESSIBLE RESOURCES>"
  const WAR: string := "web_accessible_resources"
  /** The segments whose entries carry a `matches` list, in the order they are filled. */
  const SEGMENTS: seq<string> := ["content_scripts", WAR, "externally_connectable"]
  const TYPE_ERROR: string := "TypeError"

  // ---------------------------------------------------------------- placeholders

  /** `v == ph` with JavaScript's loose equality, for a placeholder such as the two above
      (not empty, no comma, not a number, boolean or `[object Object]`): a string equal to
      it, or an array whose only element is loosely equal to it. */
  predicate LooseEquals(v: Json, ph: string) {
    match v
    case JStr(s) => s == ph
    case JArr(items) => |items| == 1 && LooseEquals(items[0], ph)
    case _ => false
  }

  /** What `flatMap` puts in place of one element: the replacement list for a placeholder,
      the items of any other array (spread one level), the element itself otherwise. */
  function Piece(x: Json, ph: string, repl: seq<Json>): seq<Json> {
    if LooseEquals(x, ph) then repl else if x.JArr? then x.items else [x]
  }

  /** `items.flatMap(x => x == ph ? repl : x)`. */
  function Expand(items: seq<Json>, ph: string, repl: seq<Json>): seq<Json> {
    if items == [] then [] else Piece(items[0], ph, repl) + Expand(items[1..], ph, repl)
  }

  /** The expansion works element by element. */
  lemma {:induction false} ExpandAppend(a: seq<Json>, b: seq<Json>, ph: string, repl: seq<Json>)
    ensures Expand(a + b, ph, repl) == Expand(a, ph, repl) + Expand(b, ph, repl)
  {
    if a != [] {
      assert (a + b)[0] == a[0] && (a + b)[1..] == a[1..] + b;
      ExpandAppend(a[1..], b, ph, repl);
    } else {
      assert a + b == b;
    }
  }

  /** Strings other than the placeholder. */
  predicate Plain(items: seq<Json>, ph: string) {
    forall i :: 0 <= i < |items| ==> items[i].JStr? && items[i].s != ph
  }

  /** Strings other than the placeholder are kept, in order. */
  lemma {:induction false} ExpandPlain(items: seq<Json>, ph: string, repl: seq<Json>)
    requires Plain(items, ph)
    ensures Expand(items, ph, repl) == items
  {
    if items != [] {
      ExpandPlain(items[1..], ph, repl);
    }
  }

  /** A placeholder is replaced where it stands by the whole replacement list; the entries
      around it keep their places. */
  lemma ExpandInPlace(pre: seq<Json>, post: seq<Json>, ph: string, repl: seq<Json>)
    requires Plain(pre, ph) && Plain(post, ph)
    ensures Expand(pre + [JStr(ph)] + post, ph, repl) == pre + repl + post
  {
    ExpandAppend(pre + [JStr(ph)], post, ph, repl);
    ExpandAppend(pre, [JStr(ph)], ph, repl);
    ExpandPlain(pre, ph, repl);
    ExpandPlain(post, ph, repl);
  }

  /** The subtools' `matches` lists, concatenated. */
  function Concat(lists: seq<seq<string>>): (r: seq<string>)
    ensures forall x :: x in r <==> exists i :: 0 <= i < |lists| && x in lists[i]
  {
    if lists == [] then []
    else
      var rest := Concat(lists[1..]);
      assert forall i :: 1 <= i < |lists| ==> lists[i] == lists[1..][i - 1];
      lists[0] + rest
  }

  /** `[...new Set(subtools.map(s => s.matches).flat())]`: every pattern of some subtool,
      once, in first-seen order. */
  function GatheredMatches(lists: seq<seq<string>>): (r: seq<string>)
    ensures NoDuplicates(r)
    ensures forall x :: x in r <==> exists i :: 0 <= i < |lists| && x in lists[i]
  {
    Dedup(Concat(lists))
  }

  // ---------------------------------------------------------------- filling the entries

  /** `sub[field] = sub[field].flatMap(...)`: the entry must be an object whose `field` is an
      array, otherwise reading or calling `flatMap` throws. */
  function FillField(sub: Json, field: string, ph: string, repl: seq<Json>): (r: Result<Json>)
    ensures r.Ok? <==> Field(sub, field).Some? && Field(sub, field).value.JArr?
    ensures r.Ok? ==> r.value.JObj?
    ensures r.Ok? ==> Get(r.value.props, field) == Some(JArr(Expand(Field(sub, field).value.items, ph, repl)))
  {
    match Field(sub, field)
    case Some(JArr(items)) =>
      var v := JArr(Expand(items, ph, repl));
      PutGet(sub.props, field, v, field);
      Ok(JObj(Put(sub.props, field, v)))
    case _ => Err(TYPE_ERROR)
  }

  /** The entry's other fields are untouched. */
  lemma FillFieldOther(sub: Json, field: string, ph: string, repl: seq<Json>, k: string)
    requires FillField(sub, field, ph, repl).Ok? && k != field
    ensures Get(FillField(sub, field, ph, repl).value.props, k) == Get(sub.props, k)
  {
    PutGet(sub.props, field, JArr(Expand(Field(sub, field).value.items, ph, repl)), k);
  }

  /** The loop over a list of entries: each is filled in turn; when one cannot be, the
      whole rewrite throws. */
  function FillEach(subs: seq<Json>, field: string, ph: string, repl: seq<Json>): (r: Result<seq<Json>>)
    ensures r.Ok? ==> |r.value| == |subs|
  {
    if forall i :: 0 <= i < |subs| ==> FillField(subs[i], field, ph, repl).Ok? then
      Ok(seq(|subs|, i requires 0 <= i < |subs| => FillField(subs[i], field, ph, repl).value))
    else Err(TYPE_ERROR)
  }

  /** One truthy segment: a list of entries, or a single entry. */
  function FillSegment(seg: Json, repl: seq<Json>): (r: Result<Json>)
    ensures seg.JArr? && r.Ok? ==> r.value.JArr? && |r.value.items| == |seg.items|
  {
    if seg.JArr? then
      match FillEach(seg.items, "matches", MATCHES, repl)
      case Ok(filled) => Ok(JArr(filled))
      case Err(e) => Err(e)
    else FillField(seg, "matches", MATCHES, repl)
  }

  /** One segment key: skipped when falsy or missing, filled otherwise. */
  function FillKey(d: Dict<Json>, key: string, repl: seq<Json>): (r: Result<Dict<Json>>)
    ensures !TruthyOpt(Get(d, key)) ==> r == Ok(d)
    ensures r.Ok? <==> !TruthyOpt(Get(d, key)) || FillSegment(Get(d, key).value, repl).Ok?
  {
    var seg := Get(d, key);
    if !TruthyOpt(seg) then Ok(d)
    else
      match FillSegment(seg.value, repl)
      case Err(e) => Err(e)
      case Ok(v) => Ok(Put(d, key, v))
  }

  /** Filling a segment replaces that segment's value and nothing else. */
  lemma FillKeyGet(d: Dict<Json>, key: string, repl: seq<Json>, k: string)
    requires FillKey(d, key, repl).Ok?
    ensures Get(FillKey(d, key, repl).value, k) ==
      if k == key && TruthyOpt(Get(d, key)) then Some(FillSegment(Get(d, key).value, repl).value) else Get(d, k)
  {
    if TruthyOpt(Get(d, key)) {
      PutGet(d, key, FillSegment(Get(d, key).value, repl).value, k);
    }
  }

  /** The segment keys in order; the first failure stops the rewrite. */
  function FillSegments(d: Dict<Json>, keys: seq<string>, repl: seq<Json>): Result<Dict<Json>> {
    if keys == [] then Ok(d)
    else
      match FillSegments(d, keys[..|keys| - 1], repl)
      case Err(e) => Err(e)
      case Ok(d') => FillKey(d', keys[|keys| - 1], repl)
  }

  /** One more key: the rewrite so far, then that key. */
  lemma FillSegmentsNext(d: Dict<Json>, keys: seq<string>, i: nat, repl: seq<Json>)
    requires i < |keys| && FillSegments(d, keys[..i], repl).Ok?
    ensures FillSegments(d, keys[..i + 1], repl) == FillKey(FillSegments(d, keys[..i], repl).value, keys[i], repl)
  {
    assert keys[..i + 1][..i] == keys[..i];
  }

  /** Keys other than the segments are untouched by the matches autofill. */
  lemma {:induction false} FillSegmentsOther(d: Dict<Json>, keys: seq<string>, repl: seq<Json>, k: string)
    requires FillSegments(d, keys, repl).Ok? && k !in keys
    ensures Get(FillSegments(d, keys, repl).value, k) == Get(d, k)
  {
    if keys != [] {
      var prefix := keys[..|keys| - 1];
      assert k !in prefix;
      FillSegmentsOther(d, prefix, repl, k);
      FillKeyGet(FillSegments(d, prefix, repl).value, keys[|keys| - 1], repl, k);
    }
  }

  /** Once a segment fails, the rewrite has failed. */
  lemma {:induction false} FillSegmentsFailed(d: Dict<Json>, keys: seq<string>, n: nat, repl: seq<Json>)
    requires n <= |keys| && FillSegments(d, keys[..n], repl).Err?
    ensures FillSegments(d, keys, repl).Err?
    decreases |keys| - n
  {
    if n < |keys| {
      assert keys[..n + 1][..n] == keys[..n];
      FillSegmentsFailed(d, keys, n + 1, repl);
    } else {
      assert keys[..n] == keys;
    }
  }

  /** The `<MATCHES>` autofill of the manifest. */
  function MatchesFilled(d: Dict<Json>, gathered: seq<string>): Result<Dict<Json>> {
    FillSegments(d, SEGMENTS, Strs(gathered))
  }

  /** The three segments are filled in order, each from the previous result. */
  lemma SegmentsInOrder(d: Dict<Json>, repl: seq<Json>)
    ensures FillSegments(d, SEGMENTS, repl) ==
      match FillKey(d, "content_scripts", repl)
      case Err(e) => Err(e)
      case Ok(d1) =>
        match FillKey(d1, WAR, repl)
        case Err(e) => Err(e)
        case Ok(d2) => FillKey(d2, "externally_connectable", repl)
  {
    assert SEGMENTS[..1][..0] == [] && SEGMENTS[..1][0] == "content_scripts";
    assert FillSegments(d, SEGMENTS[..1], repl) == FillKey(d, "content_scripts", repl);
    assert SEGMENTS[..2][..1] == SEGMENTS[..1] && SEGMENTS[..2][1] == WAR;
    assert SEGMENTS[..2] == SEGMENTS[..|SEGMENTS| - 1];
  }

  /** A segment holding one entry is filled by filling that entry. */
  lemma OneEntrySegment(sub: Json, repl: seq<Json>)
    requires FillField(sub, "matches", MATCHES, repl).Ok?
    ensures FillSegment(JArr([sub]), repl) == Ok(JArr([FillField(sub, "matches", MATCHES, repl).value]))
  {
    var one := FillEach([sub], "matches", MATCHES, repl);
    assert [sub][0] == sub;
    assert one.value == [FillField(sub, "matches", MATCHES, repl).value];
  }

  /** A single `content_scripts` entry whose `matches` are plain patterns around one
      placeholder gets the gathered patterns in the placeholder's place. */
  lemma ContentScriptMatches(d: Dict<Json>, entry: Dict<Json>, pre: seq<Json>, post: seq<Json>, gathered: seq<string>)
    requires Get(d, "content_scripts") == Some(JArr([JObj(entry)]))
    requires Get(entry, "matches") == Some(JArr(pre + [JStr(MATCHES)] + post))
    requires Plain(pre, MATCHES) && Plain(post, MATCHES)
    requires MatchesFilled(d, gathered).Ok?
    ensures var r := MatchesFilled(d, gathered).value;
      exists e :: Get(r, "content_scripts") == Some(JArr([JObj(e)])) &&
        Get(e, "matches") == Some(JArr(pre + Strs(gathered) + post))
  {
    var repl := Strs(gathered);
    ExpandInPlace(pre, post, MATCHES, repl);
    SegmentsInOrder(d, repl);
    var d1 := FillKey(d, "content_scripts", repl).value;
    var d2 := FillKey(d1, WAR, repl).value;
    var e := FillField(JObj(entry), "matches", MATCHES, repl).value;
    OneEntrySegment(JObj(entry), repl);
    FillKeyGet(d, "content_scripts", repl, "content_scripts");
    FillKeyGet(d1, WAR, repl, "content_scripts");
    FillKeyGet(d2, "externally_connectable", repl, "content_scripts");
    assert Get(e.props, "matches") == Some(JArr(pre + repl + post));
  }

  /** The resources autofill: the loop runs over `web_accessible_resources`, which must be
      iterable; a string iterates its characters, which have no `resources`. */
  function ResourcesFilled(d: Dict<Json>, resources: seq<string>): (r: Result<Dict<Json>>)
    ensures Get(d, WAR).None? ==> r.Err?
    ensures r.Ok? <==> (Get(d, WAR) == Some(JStr(""))
      || (Get(d, WAR).Some? && Get(d, WAR).value.JArr?
          && FillEach(Get(d, WAR).value.items, "resources", RESOURCES, Strs(resources)).Ok?))
  {
    var w: Option<Json> := Get(d, WAR);
    match w
    case Some(JArr(subs)) =>
      (match FillEach(subs, "resources", RESOURCES, Strs(resources))
       case Ok(filled) => Ok(Put(d, WAR, JArr(filled)))
       case Err(e) => Err(e))
    case Some(JStr(s)) => if s == "" then Ok(d) else Err(TYPE_ERROR)
    case _ => Err(TYPE_ERROR)
  }

  /** Only `web_accessible_resources` changes: each entry gets its `resources` expanded. */
  lemma ResourcesFilledGet(d: Dict<Json>, resources: seq<string>, k: string)
    requires ResourcesFilled(d, resources).Ok?
    ensures Get(ResourcesFilled(d, resources).value, k) ==
      if k == WAR && Get(d, WAR).value.JArr?
      then Some(JArr(FillEach(Get(d, WAR).value.items, "resources", RESOURCES, Strs(resources)).value))
      else Get(d, k)
  {
    if Get(d, WAR).value.JArr? {
      PutGet(d, WAR, JArr(FillEach(Get(d, WAR).value.items, "resources", RESOURCES, Strs(resources)).value), k);
    }
  }

  // ---------------------------------------------------------------- the package fields

  /** `npm_package_version`, `npm_package_description`, `npm_package_homepage`; `None` when
      unset. */
  datatype PackageInfo = PackageInfo(version: Option<string>, description: Option<string>, homepage: Option<string>)

  /** `d[k] = v`; an `undefined` value is left out when the manifest is written, so it is
      modelled as removing the key. */
  function SetOrOmit(d: Dict<Json>, k: string, v: Option<string>): (r: Dict<Json>)
    ensures Get(r, k) == if v.Some? then Some(JStr(v.value)) else None
    ensures forall k' :: k' != k ==> Get(r, k') == Get(d, k')
  {
    if v.Some? then
      PutGetEvery(d, k, JStr(v.value));
      Put(d, k, JStr(v.value))
    else
      DeleteGetEvery(d, k);
      Delete(d, k)
  }

  /** The three package fields set from the environment. */
  function WithPackageFields(d: Dict<Json>, info: PackageInfo): (r: Dict<Json>)
    ensures Get(r, "version") == if info.version.Some? then Some(JStr(info.version.value)) else None
    ensures Get(r, "description") == if info.description.Some? then Some(JStr(info.description.value)) else None
    ensures Get(r, "homepage_url") == if info.homepage.Some? then Some(JStr(info.homepage.value)) else None
    ensures forall k :: k != "version" && k != "description" && k != "homepage_url" ==> Get(r, k) == Get(d, k)
  {
    SetOrOmit(SetOrOmit(SetOrOmit(d, "version", info.version), "description", info.description), "homepage_url", info.homepage)
  }

  // ---------------------------------------------------------------- per browser

  /** Chrome: Manifest V3, without `browser_specific_settings`. */
  function ForChrome(d: Dict<Json>): (r: Dict<Json>)
    ensures Get(r, "manifest_version") == Some(JNum(3.0))
    ensures Get(r, "browser_specific_settings") == None
    ensures forall k :: k != "manifest_version" && k != "browser_specific_settings" ==> Get(r, k) == Get(d, k)
  {
    var d1 := Put(d, "manifest_version", JNum(3.0));
    PutGetEvery(d, "manifest_version", JNum(3.0));
    DeleteGetEvery(d1, "browser_specific_settings");
    Delete(d1, "browser_specific_settings")
  }

  /** The background object with its service worker turned into a one-element `scripts`. */
  function WorkerAsScripts(bg: Dict<Json>, sw: Json): (r: Dict<Json>)
    ensures Get(r, "scripts") == Some(JArr([sw])) && Get(r, "service_worker") == None
    ensures forall k :: k != "scripts" && k != "service_worker" ==> Get(r, k) == Get(bg, k)
  {
    var b1 := Put(bg, "scripts", JArr([sw]));
    PutGetEvery(bg, "scripts", JArr([sw]));
    DeleteGetEvery(b1, "service_worker");
    Delete(b1, "service_worker")
  }

  /** `parsed.background?.service_worker` is truthy. */
  predicate HasWorker(d: Dict<Json>) {
    var bg := Get(d, "background");
    bg.Some? && bg.value.JObj? && TruthyOpt(Get(bg.value.props, "service_worker"))
  }

  /** The background Firefox gets: a service worker becomes a background script. */
  function FirefoxBackground(d: Dict<Json>): Option<Json> {
    if HasWorker(d) then
      var bg := Get(d, "background").value.props;
      Some(JObj(WorkerAsScripts(bg, Get(bg, "service_worker").value)))
    else Get(d, "background")
  }

  /** Firefox has no service workers: a background service worker becomes a background
      script. */
  function ConvertBackground(d: Dict<Json>): Dict<Json> {
    if HasWorker(d) then Put(d, "background", FirefoxBackground(d).value) else d
  }

  /** Only `background` changes. */
  lemma ConvertBackgroundGet(d: Dict<Json>, k: string)
    ensures Get(ConvertBackground(d), k) == if k == "background" then FirefoxBackground(d) else Get(d, k)
  {
    if HasWorker(d) {
      PutGet(d, "background", FirefoxBackground(d).value, k);
    }
  }

  /** `items.filter(p => p !== x)`. */
  function Remove(items: seq<Json>, x: Json): (r: seq<Json>)
    ensures forall y :: y in r <==> y in items && y != x
    ensures |r| <= |items|
  {
    if items == [] then []
    else
      assert items == [items[0]] + items[1..];
      (if items[0] == x then [] else [items[0]]) + Remove(items[1..], x)
  }

  const OFFSCREEN: Json := JStr("offscreen")

  /** The `offscreen` permission is dropped; truthy `permissions` must be an array. */
  function DropOffscreen(d: Dict<Json>): (r: Result<Dict<Json>>)
    ensures r.Ok? <==> !TruthyOpt(Get(d, "permissions")) || Get(d, "permissions").value.JArr?
  {
    var p := Get(d, "permissions");
    if !TruthyOpt(p) then Ok(d)
    else if p.value.JArr? then Ok(Put(d, "permissions", JArr(Remove(p.value.items, OFFSCREEN))))
    else Err(TYPE_ERROR)
  }

  /** Only `permissions` changes, and only when truthy. */
  lemma DropOffscreenGet(d: Dict<Json>, k: string)
    requires DropOffscreen(d).Ok?
    ensures Get(DropOffscreen(d).value, k) ==
      if k == "permissions" && TruthyOpt(Get(d, k)) then Some(JArr(Remove(Get(d, k).value.items, OFFSCREEN)))
      else Get(d, k)
  {
    var p := Get(d, "permissions");
    if TruthyOpt(p) {
      PutGet(d, "permissions", JArr(Remove(p.value.items, OFFSCREEN)), k);
    }
  }

  /** `resource.resources` for one entry, as `flatMap` spreads it: an array's items; a
      missing field is `undefined`, which the manifest writes as `null`; `null` throws. */
  function ResourcesOfEntry(entry: Json): Result<seq<Json>> {
    match entry
    case JNull => Err(TYPE_ERROR)
    case JObj(props) =>
      var res: Option<Json> := Get(props, "resources");
      (match res
       case Some(JArr(xs)) => Ok(xs)
       case Some(v) => Ok([v])
       case None => Ok([JNull]))
    case _ => Ok([JNull])
  }

  /** `entries.flatMap(resource => resource.resources)`. */
  function ResourcesOf(entries: seq<Json>): (r: Result<seq<Json>>)
    ensures r.Ok? <==> forall i :: 0 <= i < |entries| ==> entries[i] != JNull
  {
    if entries == [] then Ok([])
    else
      var rest := ResourcesOf(entries[1..]);
      assert forall i :: 1 <= i < |entries| ==> entries[i] == entries[1..][i - 1];
      match ResourcesOfEntry(entries[0])
      case Err(e) => Err(e)
      case Ok(xs) => if rest.Ok? then Ok(xs + rest.value) else rest
  }

  /** The flattening works entry by entry. */
  lemma {:induction false} ResourcesOfAppend(a: seq<Json>, b: seq<Json>)
    requires ResourcesOf(a).Ok? && ResourcesOf(b).Ok?
    ensures ResourcesOf(a + b) == Ok(ResourcesOf(a).value + ResourcesOf(b).value)
  {
    if a != [] {
      assert (a + b)[0] == a[0] && (a + b)[1..] == a[1..] + b;
      var xs := ResourcesOfEntry(a[0]).value;
      assert forall i :: 0 <= i < |a| - 1 ==> a[1..][i] == a[i + 1];
      ResourcesOfAppend(a[1..], b);
      var ra, rb := ResourcesOf(a[1..]).value, ResourcesOf(b).value;
      assert ResourcesOf(a) == Ok(xs + ra);
      assert ResourcesOf(a + b) == Ok(xs + (ra + rb));
      assert xs + (ra + rb) == (xs + ra) + rb;
    } else {
      assert a + b == b;
      assert ResourcesOf(b).value == [] + ResourcesOf(b).value;
    }
  }

  /** An entry's resource list is spliced in whole. */
  lemma ResourcesOfOne(props: Dict<Json>, xs: seq<Json>)
    requires Get(props, "resources") == Some(JArr(xs))
    ensures ResourcesOf([JObj(props)]) == Ok(xs)
  {
    assert [JObj(props)][1..] == [];
    assert ResourcesOfEntry(JObj(props)) == Ok(xs);
    assert xs + [] == xs;
  }

  /** Manifest V2 has a flat list of web-accessible resources. */
  function FlattenResources(d: Dict<Json>): (r: Result<Dict<Json>>)
    ensures r.Ok? <==> Get(d, WAR).Some? && Get(d, WAR).value.JArr? && ResourcesOf(Get(d, WAR).value.items).Ok?
  {
    var w: Option<Json> := Get(d, WAR);
    match w
    case Some(JArr(entries)) =>
      (match ResourcesOf(entries)
       case Ok(flat) => Ok(Put(d, WAR, JArr(flat)))
       case Err(e) => Err(e))
    case _ => Err(TYPE_ERROR)
  }

  /** Only `web_accessible_resources` changes. */
  lemma FlattenResourcesGet(d: Dict<Json>, k: string)
    requires FlattenResources(d).Ok?
    ensures Get(FlattenResources(d).value, k) ==
      if k == WAR then Some(JArr(ResourcesOf(Get(d, WAR).value.items).value)) else Get(d, k)
  {
    PutGet(d, WAR, JArr(ResourcesOf(Get(d, WAR).value.items).value), k);
  }

  /** The list `concat` appends: an array's items, any other value as one element. */
  function Appended(v: Json): seq<Json> {
    if v.JArr? then v.items else [v]
  }

  /** The permissions with the host permissions appended (`(permissions || []).concat(...)`;
      truthy permissions are an array by then). */
  function WithHosts(perms: Option<Json>, hosts: Json): Json {
    JArr((if perms.Some? && perms.value.JArr? then perms.value.items else []) + Appended(hosts))
  }

  /** Manifest V2 has no `host_permissions`: truthy ones are appended to `permissions` and
      deleted. */
  function MoveHostPermissions(d: Dict<Json>): Dict<Json> {
    var h := Get(d, "host_permissions");
    if !TruthyOpt(h) then d
    else Delete(Put(d, "permissions", WithHosts(Get(d, "permissions"), h.value)), "host_permissions")
  }

  /** Only `permissions` and `host_permissions` change, and only with truthy host
      permissions. */
  lemma MoveHostPermissionsGet(d: Dict<Json>, k: string)
    ensures var h := Get(d, "host_permissions");
      Get(MoveHostPermissions(d), k) ==
        if TruthyOpt(h) && k == "permissions" then Some(WithHosts(Get(d, "permissions"), h.value))
        else if TruthyOpt(h) && k == "host_permissions" then None
        else Get(d, k)
  {
    var h := Get(d, "host_permissions");
    if TruthyOpt(h) {
      var d1 := Put(d, "permissions", WithHosts(Get(d, "permissions"), h.value));
      PutGet(d, "permissions", WithHosts(Get(d, "permissions"), h.value), k);
      DeleteGet(d1, "host_permissions", k);
    }
  }

  /** The steps of the Firefox branch up to the `offscreen` filter. */
  function FirefoxBase(d: Dict<Json>): Dict<Json> {
    Delete(ConvertBackground(Put(d, "manifest_version", JNum(2.0))), "externally_connectable")
  }

  lemma FirefoxBaseGet(d: Dict<Json>, k: string)
    ensures Get(FirefoxBase(d), k) ==
      if k == "manifest_version" then Some(JNum(2.0))
      else if k == "externally_connectable" then None
      else if k == "background" then FirefoxBackground(d)
      else Get(d, k)
  {
    var d1 := Put(d, "manifest_version", JNum(2.0));
    PutGet(d, "manifest_version", JNum(2.0), k);
    PutGet(d, "manifest_version", JNum(2.0), "background");
    assert HasWorker(d1) == HasWorker(d);
    ConvertBackgroundGet(d1, k);
    DeleteGet(ConvertBackground(d1), "externally_connectable", k);
  }

  /** Firefox: Manifest V2, background scripts, no `externally_connectable`, no `offscreen`
      permission, flat web-accessible resources, host permissions folded into permissions.
      It throws on truthy permissions that are not a list, and on web-accessible resources
      that are not a list or hold a `null` entry. */
  function ForFirefox(d: Dict<Json>): (r: Result<Dict<Json>>)
    ensures r.Ok? <==> ((!TruthyOpt(Get(d, "permissions")) || Get(d, "permissions").value.JArr?)
      && Get(d, WAR).Some? && Get(d, WAR).value.JArr? && ResourcesOf(Get(d, WAR).value.items).Ok?)
  {
    FirefoxBaseGet(d, "permissions");
    match DropOffscreen(FirefoxBase(d))
    case Err(e) => Err(e)
    case Ok(d3) =>
      FirefoxBaseGet(d, WAR);
      DropOffscreenGet(FirefoxBase(d), WAR);
      match FlattenResources(d3)
      case Err(e) => Err(e)
      case Ok(d4) => Ok(MoveHostPermissions(d4))
  }

  /** The permissions Firefox ends with: the old ones without `offscreen` (none when they
      were falsy), followed by the host permissions when those are truthy. */
  function FirefoxPermissions(perms: Option<Json>, hosts: Option<Json>): Option<Json> {
    var kept := if TruthyOpt(perms) && perms.value.JArr? then Remove(perms.value.items, OFFSCREEN) else [];
    if TruthyOpt(hosts) then Some(JArr(kept + Appended(hosts.value)))
    else if TruthyOpt(perms) then Some(JArr(kept))
    else perms
  }

  /** What Firefox gets, key by key; every key the rewrite does not name is unchanged. */
  lemma FirefoxGet(d: Dict<Json>, k: string)
    requires ForFirefox(d).Ok?
    ensures Get(ForFirefox(d).value, k) ==
      if k == "manifest_version" then Some(JNum(2.0))
      else if k == "externally_connectable" then None
      else if k == "background" then FirefoxBackground(d)
      else if k == "permissions" then FirefoxPermissions(Get(d, "permissions"), Get(d, "host_permissions"))
      else if k == "host_permissions" && TruthyOpt(Get(d, k)) then None
      else if k == WAR then Some(JArr(ResourcesOf(Get(d, WAR).value.items).value))
      else Get(d, k)
  {
    var d2 := FirefoxBase(d);
    var d3 := DropOffscreen(d2).value;
    var d4 := FlattenResources(d3).value;
    FirefoxBaseGet(d, "host_permissions");
    DropOffscreenGet(d2, "host_permissions");
    FlattenResourcesGet(d3, "host_permissions");
    if k == "permissions" {
      FirefoxBaseGet(d, "permissions");
      DropOffscreenGet(d2, "permissions");
      FlattenResourcesGet(d3, "permissions");
      MoveHostPermissionsGet(d4, "permissions");
    } else {
      FirefoxBaseGet(d, k);
      FirefoxBaseGet(d, WAR);
      DropOffscreenGet(d2, k);
      DropOffscreenGet(d2, WAR);
      FlattenResourcesGet(d3, k);
      MoveHostPermissionsGet(d4, k);
    }
  }

  /** In particular the `offscreen` permission is gone unless a host permission names it. */
  lemma FirefoxDropsOffscreen(d: Dict<Json>)
    requires ForFirefox(d).Ok?
    requires !TruthyOpt(Get(d, "host_permissions")) || OFFSCREEN !in Appended(Get(d, "host_permissions").value)
    ensures var p := Get(ForFirefox(d).value, "permissions");
      p.Some? && p.value.JArr? ==> OFFSCREEN !in p.value.items
  {
    FirefoxGet(d, "permissions");
  }

  // ---------------------------------------------------------------- the whole rewrite

  /** `transform` for a build target, before serialisation. */
  function Transformed(d: Dict<Json>, target: string, info: PackageInfo, gathered: seq<string>, resources: seq<string>): Result<Dict<Json>> {
    match MatchesFilled(WithPackageFields(d, info), gathered)
    case Err(e) => Err(e)
    case Ok(d2) =>
      match ResourcesFilled(d2, resources)
      case Err(e) => Err(e)
      case Ok(d3) =>
        if target == "chrome" then Ok(ForChrome(d3))
        else if target == "firefox" then ForFirefox(d3)
        else Ok(d3)
  }

  /** The parsed manifest, rewritten in place step by step. */
  class ManifestBuilder {
    var parsed: Dict<Json>

    constructor(parsed: Dict<Json>)
      ensures this.parsed == parsed
    {
      this.parsed := parsed;
    }

    /** Sets `version`, `description` and `homepage_url`. */
    method SetPackageFields(info: PackageInfo)
      modifies this
      ensures parsed == WithPackageFields(old(parsed), info)
    {
      parsed := SetOrOmit(parsed, "version", info.version);
      parsed := SetOrOmit(parsed, "description", info.description);
      parsed := SetOrOmit(parsed, "homepage_url", info.homepage);
    }

    /** Fills the `matches` of every entry of a list of entries; `false` when one throws. */
    static method FillEntries(subs: seq<Json>, field: string, ph: string, repl: seq<Json>) returns (ok: bool, filled: seq<Json>)
      ensures ok <==> FillEach(subs, field, ph, repl).Ok?
      ensures ok ==> filled == FillEach(subs, field, ph, repl).value
    {
      filled := [];
      var j := 0;
      while j < |subs|
        invariant 0 <= j <= |subs| && |filled| == j
        invariant forall i :: 0 <= i < j ==> FillField(subs[i], field, ph, repl) == Ok(filled[i])
      {
        var f := FillField(subs[j], field, ph, repl);
        if f.Err? {
          return false, filled;
        }
        filled := filled + [f.value];
        j := j + 1;
      }
      ok := true;
      assert filled == FillEach(subs, field, ph, repl).value;
    }

    /** One pass of the `<MATCHES>` loop: a truthy segment has the `matches` of its entries
        filled; `false` when one of them throws. */
    method FillSegmentKey(key: string, repl: seq<Json>) returns (ok: bool)
      modifies this
      ensures ok <==> FillKey(old(parsed), key, repl).Ok?
      ensures ok ==> parsed == FillKey(old(parsed), key, repl).value
    {
      var seg := Get(parsed, key);
      if !TruthyOpt(seg) {
        return true;
      }
      var subs := if seg.value.JArr? then seg.value.items else [seg.value];
      var fine, filled := FillEntries(subs, "matches", MATCHES, repl);
      if !fine {
        return false;
      }
      assert !seg.value.JArr? ==> filled[0] == FillField(seg.value, "matches", MATCHES, repl).value;
      parsed := Put(parsed, key, if seg.value.JArr? then JArr(filled) else filled[0]);
      ok := true;
    }

    /** The `<MATCHES>` loop over the three segments. */
    method AutofillMatches(gathered: seq<string>) returns (ok: bool)
      modifies this
      ensures ok <==> MatchesFilled(old(parsed), gathered).Ok?
      ensures ok ==> parsed == MatchesFilled(old(parsed), gathered).value
    {
      var repl := Strs(gathered);
      ghost var start := parsed;
      var i := 0;
      while i < |SEGMENTS|
        invariant 0 <= i <= |SEGMENTS|
        invariant FillSegments(start, SEGMENTS[..i], repl) == Ok(parsed)
      {
        FillSegmentsNext(start, SEGMENTS, i, repl);
        var fine := FillSegmentKey(SEGMENTS[i], repl);
        if !fine {
          FillSegmentsFailed(start, SEGMENTS, i + 1, repl);
          return false;
        }
        i := i + 1;
      }
      assert SEGMENTS[..i] == SEGMENTS;
      ok := true;
    }

    /** The `<WEB ACCESSIBLE RESOURCES>` loop over `web_accessible_resources`. */
    method AutofillResources(resources: seq<string>) returns (ok: bool)
      modifies this
      ensures ok <==> ResourcesFilled(old(parsed), resources).Ok?
      ensures ok ==> parsed == ResourcesFilled(old(parsed), resources).value
    {
      var war := Get(parsed, WAR);
      if war == Some(JStr("")) {
        return true;
      }
      if !(war.Some? && war.value.JArr?) {
        return false;
      }
      var fine, filled := FillEntries(war.value.items, "resources", RESOURCES, Strs(resources));
      if !fine {
        return false;
      }
      parsed := Put(parsed, WAR, JArr(filled));
      ok := true;
    }

    /** The Chrome branch. */
    method TargetChrome()
      modifies this
      ensures parsed == ForChrome(old(parsed))
    {
      parsed := Put(parsed, "manifest_version", JNum(3.0));
      parsed := Delete(parsed, "browser_specific_settings");
    }

    /** The Firefox branch; `false` when it throws. */
    method TargetFirefox() returns (ok: bool)
      modifies this
      ensures ok <==> ForFirefox(old(parsed)).Ok?
      ensures ok ==> parsed == ForFirefox(old(parsed)).value
    {
      parsed := Put(parsed, "manifest_version", JNum(2.0));
      parsed := ConvertBackground(parsed);
      parsed := Delete(parsed, "externally_connectable");
      var p := Get(parsed, "permissions");
      if TruthyOpt(p) {
        if !p.value.JArr? {
          return false;
        }
        parsed := Put(parsed, "permissions", JArr(Remove(p.value.items, OFFSCREEN)));
      }
      var w := Get(parsed, WAR);
      if !(w.Some? && w.value.JArr?) {
        return false;
      }
      var flat := ResourcesOf(w.value.items);
      if flat.Err? {
        return false;
      }
      parsed := Put(parsed, WAR, JArr(flat.value));
      parsed := MoveHostPermissions(parsed);
      ok := true;
    }

    /** `transform(content)` for `target`: the rewritten manifest, or `Err` when it throws. */
    method Transform(target: string, info: PackageInfo, gathered: seq<string>, resources: seq<string>)
      returns (r: Result<Dict<Json>>)
      modifies this
      ensures r.Ok? <==> Transformed(old(parsed), target, info, gathered, resources).Ok?
      ensures r.Ok? ==> r == Transformed(old(parsed), target, info, gathered, resources)
    {
      SetPackageFields(info);
      var ok := AutofillMatches(gathered);
      if !ok {
        return Err(TYPE_ERROR);
      }
      ok := AutofillResources(resources);
      if !ok {
        return Err(TYPE_ERROR);
      }
      if target == "chrome" {
        TargetChrome();
      } else if target == "firefox" {
        ok := TargetFirefox();
        if !ok {
          return Err(TYPE_ERROR);
        }
      }
      r := Ok(parsed);
    }
  }
}
