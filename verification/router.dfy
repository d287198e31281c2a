/** The draft multi-hop router of `messaging_test.mjs`: endpoint names with tab ids, the
    per-target forwarding decision, the grouping of targets into sub-messages, the content
    script's bridge between the window and browser channels, and the background channel's
    tab-id check. */
module Router {
  import opened Wrappers
  import opened Dicts
  import opened Strings
  import opened Json
  import Messaging

  /** The characters of `s` before the first `c` (all of `s` if there is none). */
  function Before(s: string, c: char): string {
    if s == [] || s[0] == c then [] else [s[0]] + Before(s[1..], c)
  }

  /** The characters of `s` after the first `c`, `None` if there is none. */
  function After(s: string, c: char): Option<string> {
    if s == [] then None else if s[0] == c then Some(s[1..]) else After(s[1..], c)
  }

  /** `_split_tabId`: the pieces before the first and second `-`; the tab id is `undefined`
      (`None`) when the name has no `-`. Later pieces are dropped. */
  function SplitTabId(name: string): (string, Option<string>) {
    (Before(name, '-'), if After(name, '-').Some? then Some(Before(After(name, '-').value, '-')) else None)
  }

  lemma {:induction false} BeforeAfter(s: string, c: char)
    ensures '-' !in s ==> Before(s, '-') == s && After(s, '-') == None
    ensures After(s, c).Some? ==> s == Before(s, c) + [c] + After(s, c).value
    ensures After(s, c).None? ==> Before(s, c) == s && c !in s
    ensures c !in Before(s, c)
  {
    BeforeAfterOn(s, c);
    BeforeAfterOn(s, '-');
  }

  lemma {:induction false} BeforeAfterOn(s: string, c: char)
    ensures After(s, c).Some? ==> s == Before(s, c) + [c] + After(s, c).value
    ensures After(s, c).None? ==> Before(s, c) == s && c !in s
    ensures c !in Before(s, c)
  {
    if s != [] {
      BeforeAfterOn(s[1..], c);
      if s[0] != c {
        assert s == [s[0]] + s[1..];
        assert Before(s, c) == [s[0]] + Before(s[1..], c);
      }
    }
  }

  /** Neither piece contains a `-`; a name without `-` is its own base with no tab. */
  lemma SplitTabIdPieces(name: string)
    ensures '-' !in SplitTabId(name).0
    ensures SplitTabId(name).1.Some? ==> '-' !in SplitTabId(name).1.value
    ensures '-' !in name ==> SplitTabId(name) == (name, None)
  {
    BeforeAfter(name, '-');
    if After(name, '-').Some? {
      BeforeAfter(After(name, '-').value, '-');
    }
  }

  /** `SplitTabId` takes exactly the first two pieces of `name.split('-')`. */
  lemma SplitTabIdIsSplit(name: string)
    ensures var parts := Split(name, "-");
      SplitTabId(name) == (parts[0], if |parts| > 1 then Some(parts[1]) else None)
  {
    PiecesOfSplit(name);
    if After(name, '-').Some? {
      PiecesOfSplit(After(name, '-').value);
    }
  }

  /** `indexOf('-')` finds the `-` that ends `Before(s, '-')`. */
  lemma DashIndex(s: string)
    ensures After(s, '-').Some? ==> IndexOf(s, "-") == Some(|Before(s, '-')|)
    ensures After(s, '-').None? ==> IndexOf(s, "-") == None
  {
    BeforeAfter(s, '-');
    CharContains(s, '-');
    if After(s, '-').Some? {
      var b := Before(s, '-');
      var n := |b|;
      assert s[n..n + 1] == "-";
      assert OccursAt(s, "-", n);
      forall j | 0 <= j < n ensures !OccursAt(s, "-", j) {
        assert s[j] == b[j];
        assert s[j] in b;
      }
    } else {
      assert '-' !in s;
    }
  }

  /** The first piece of a split on `-` and what follows the first `-`. */
  lemma PiecesOfSplit(s: string)
    ensures Split(s, "-")[0] == Before(s, '-')
    ensures After(s, '-').None? <==> |Split(s, "-")| == 1
    ensures After(s, '-').Some? ==> Split(s, "-")[1..] == Split(After(s, '-').value, "-")
  {
    DashIndex(s);
    BeforeAfter(s, '-');
    if After(s, '-').Some? {
      var n := |Before(s, '-')|;
      assert Split(s, "-") == [s[..n]] + Split(s[n + 1..], "-");
      assert s[..n] == Before(s, '-');
      assert s[n + 1..] == After(s, '-').value;
    }
  }

  /** A name built as `<base>-<tab>` splits back into its base and tab. */
  lemma SplitTabIdJoin(base: string, tab: string)
    requires '-' !in base && '-' !in tab
    ensures SplitTabId(base + "-" + tab) == (base, Some(tab))
  {
    var name := base + "-" + tab;
    BeforeAfter(name, '-');
    assert name[|base|] == '-';
    BeforeFirst(name, base, tab);
    BeforeAfter(tab, '-');
  }

  lemma {:induction false} BeforeFirst(name: string, base: string, rest: string)
    requires name == base + "-" + rest && '-' !in base
    ensures Before(name, '-') == base && After(name, '-') == Some(rest)
    decreases |base|
  {
    if base != [] {
      assert name[1..] == base[1..] + "-" + rest;
      BeforeFirst(name[1..], base[1..], rest);
    }
  }

  /** The contexts that have their own row in `REACHABLE`; every other base context is "other". */
  const KNOWN: seq<string> := ["web", "contentScript", "background"]

  /** The `REACHABLE` row of a sender context: receiver class to channel. */
  function Row(cls: string): Dict<string> {
    if cls == "web" then [("contentScript", "window")]
    else if cls == "contentScript" then [("web", "window"), ("contentScript", "window"), ("background", "browser")]
    else if cls == "background" then [("contentScript", "browser"), ("other", "browser")]
    else [("background", "browser")]
  }

  /** The `REACHABLE` key an endpoint name falls under: its base context, or "other". */
  function Class(name: string): (c: string)
    ensures c in KNOWN || c == "other"
    ensures SplitTabId(name).0 in KNOWN ==> c == SplitTabId(name).0
    ensures SplitTabId(name).0 !in KNOWN ==> c == "other"
  {
    var base := SplitTabId(name).0;
    if base in KNOWN then base else "other"
  }

  /** The channel on which `source` reaches `target` directly, if any. */
  function Channel(source: string, target: string): Option<string> {
    Get(Row(Class(source)), Class(target))
  }

  /** `Messaging.REACHABLE[source].includes(target)`, read as key membership. */
  predicate Reachable(source: string, target: string) {
    Channel(source, target).Some?
  }

  /** A tab id in a template string: `undefined` prints as "undefined". */
  function TabText(tab: Option<string>): (t: string)
    ensures tab.Some? ==> t == tab.value
  {
    if tab.Some? then tab.value else "undefined"
  }

  predicate TabTruthy(tab: Option<string>) {
    tab.Some? && tab.value != ""
  }

  /** Where `_splitMessage` sends one target: directly, or through a forwarder. */
  datatype Route = Direct | Via(forwarder: string)

  /** The forwarding decision, with the content script a background-to-web message goes
      through passed in as `bgWebHop`. */
  function ClassifyWith(source: string, target: string, bgWebHop: string): Result<Route> {
    var (targetBase, targetTab) := SplitTabId(target);
    var (sourceBase, sourceTab) := SplitTabId(source);
    if Reachable(source, target) && !(TabTruthy(sourceTab) && TabTruthy(targetTab) && targetTab != sourceTab)
    then Ok(Direct)
    else if sourceBase == "background" && targetBase == "web" then Ok(Via(bgWebHop))
    else if sourceBase == "web" && target != "contentScript-" + TabText(sourceTab)
    then Ok(Via("contentScript-" + TabText(sourceTab)))
    else if "background" in Keys(Row(Class(source))) then Ok(Via("background"))
    else Err("Could not resolve forwarding for message")
  }

  /** The decision as written: background-to-web goes through `contentScript-<sourceTabId>`,
      and the background has no tab id. */
  function ClassifyAsWritten(source: string, target: string): Result<Route> {
    ClassifyWith(source, target, "contentScript-" + TabText(SplitTabId(source).1))
  }

  /** The decision as the design intends it: background-to-web goes through the content
      script of the web target's own tab. */
  function Classify(source: string, target: string): Result<Route> {
    ClassifyWith(source, target, "contentScript-" + TabText(SplitTabId(target).1))
  }

  lemma KnownNamesHaveNoDash()
    ensures '-' !in "background" && '-' !in "web" && '-' !in "contentScript" && '-' !in "undefined"
    ensures SplitTabId("background") == ("background", None)
  {
    NoDashes();
    SplitTabIdPieces("background");
  }

  lemma NoDashes()
    ensures '-' !in "background" && '-' !in "web" && '-' !in "contentScript" && '-' !in "undefined"
  {
  }

  lemma BackgroundFacts()
    ensures SplitTabId("background") == ("background", None)
    ensures Class("background") == "background"
    ensures Row("background") == [("contentScript", "browser"), ("other", "browser")]
    ensures Get(Row("background"), "web") == None
    ensures Get(Row("background"), "background") == None
    ensures "background" !in Keys(Row("background"))
  {
    KnownNamesHaveNoDash();
    assert Keys(Row("background")) == ["contentScript", "other"];
  }

  /** A background message for a web page is handed to `contentScript-undefined`, a name no
      content script has, whatever tab the page is on. */
  lemma BackgroundToWebAsWritten(tab: string)
    requires '-' !in tab
    ensures ClassifyAsWritten("background", "web-" + tab) == Ok(Via("contentScript-" + "undefined"))
  {
    BackgroundToWebVia(tab, "contentScript-" + "undefined");
    UndefinedHop();
  }

  /** The background has no tab id, which prints as `undefined`. */
  lemma UndefinedHop()
    ensures TabText(SplitTabId("background").1) == "undefined"
  {
    KnownNamesHaveNoDash();
  }

  /** As intended, a background message for `web-<tab>` goes through `contentScript-<tab>`. */
  lemma BackgroundToWeb(tab: string)
    requires '-' !in tab
    ensures Classify("background", "web-" + tab) == Ok(Via("contentScript-" + tab))
  {
    BackgroundToWebVia(tab, "contentScript-" + tab);
    NoDashes();
    WebTabSplit(tab);
  }

  lemma WebTabSplit(tab: string)
    requires '-' !in tab
    ensures SplitTabId("web-" + tab) == ("web", Some(tab))
  {
    NoDashes();
    SplitTabIdJoin("web", tab);
    assert "web-" + tab == "web" + "-" + tab;
  }

  /** The background cannot reach a web page directly: it takes the web hop. */
  lemma BackgroundToWebVia(tab: string, hop: string)
    requires '-' !in tab
    ensures ClassifyWith("background", "web-" + tab, hop) == Ok(Via(hop))
  {
    WebTabSplit(tab);
    BackgroundFacts();
    assert Class("web-" + tab) == "web";
    assert Channel("background", "web-" + tab) == None;
  }

  /** Two endpoints on different (truthy) tabs never talk directly. */
  lemma TabConflictNeverDirect(source: string, target: string)
    requires TabTruthy(SplitTabId(source).1) && TabTruthy(SplitTabId(target).1)
    requires SplitTabId(source).1 != SplitTabId(target).1
    ensures Classify(source, target) != Ok(Direct)
  {
  }

  /** Every `contentScript-<...>` name is of class contentScript. */
  lemma ContentScriptClass(tab: string)
    requires '-' !in tab
    ensures Class("contentScript-" + tab) == "contentScript"
    ensures SplitTabId("contentScript-" + tab).1 == Some(tab)
  {
    NoDashes();
    SplitTabIdJoin("contentScript", tab);
    assert "contentScript-" + tab == "contentScript" + "-" + tab;
  }

  /** A direct route always has a channel, and so does every forwarder a route names. */
  lemma RouteHasChannel(source: string, target: string)
    requires Classify(source, target).Ok?
    ensures Classify(source, target).value.Direct? ==> Channel(source, target).Some?
    ensures Classify(source, target).value.Via? ==>
      Channel(source, Classify(source, target).value.forwarder).Some?
  {
    var (targetBase, targetTab) := SplitTabId(target);
    var (sourceBase, sourceTab) := SplitTabId(source);
    SplitTabIdPieces(source);
    SplitTabIdPieces(target);
    if Reachable(source, target) && !(TabTruthy(sourceTab) && TabTruthy(targetTab) && targetTab != sourceTab) {
    } else if sourceBase == "background" && targetBase == "web" {
      HopHasChannel(source, targetTab);
    } else if sourceBase == "web" && target != "contentScript-" + TabText(sourceTab) {
      HopHasChannel(source, sourceTab);
    } else {
      KnownNamesHaveNoDash();
      assert Class("background") == "background";
    }
  }

  /** A background or web sender reaches the content script of any tab. */
  lemma HopHasChannel(source: string, tab: Option<string>)
    requires SplitTabId(source).0 in ["background", "web"]
    requires tab.Some? ==> '-' !in tab.value
    ensures Channel(source, "contentScript-" + TabText(tab)).Some?
  {
    NoDashes();
    ContentScriptClass(TabText(tab));
    ContentScriptRow(Class(source));
  }

  lemma ContentScriptRow(cls: string)
    requires cls in ["background", "web"]
    ensures Get(Row(cls), "contentScript").Some?
  {
    if cls == "background" {
      assert Row(cls)[0].0 == "contentScript";
    } else {
      assert Row(cls)[0].0 == "contentScript";
    }
  }

  lemma RowFacts()
    ensures "background" in Keys(Row("contentScript")) && "background" in Keys(Row("other"))
    ensures Get(Row("web"), "contentScript") == Some("window")
  {
    assert Keys(Row("contentScript")) == ["web", "contentScript", "background"];
    assert Keys(Row("other")) == ["background"];
  }

  /** Only the background can fail to route: every other sender reaches any target. */
  lemma OnlyBackgroundCanFail(source: string, target: string)
    requires Class(source) != "background"
    ensures Classify(source, target).Ok?
  {
    RowFacts();
    SplitTabIdPieces(source);
    var (sourceBase, sourceTab) := SplitTabId(source);
    if Class(source) == "web" && target == "contentScript-" + TabText(sourceTab) {
      KnownNamesHaveNoDash();
      ContentScriptClass(TabText(sourceTab));
      assert Channel(source, target) == Some("window");
      assert !(TabTruthy(sourceTab) && TabTruthy(SplitTabId(target).1) && SplitTabId(target).1 != sourceTab);
      assert Classify(source, target) == Ok(Direct);
    } else if Class(source) == "web" {
      assert sourceBase == "web";
    }
  }

  /** The background cannot send to itself: it has no route to a background target. */
  lemma BackgroundCannotReachItself()
    ensures Classify("background", "background").Err?
  {
    KnownNamesHaveNoDash();
    assert SplitTabId("background") == ("background", None);
  }

  // ---- grouping in first-occurrence order (`forwarders[k] ??= []; forwarders[k].push(x)`) ----

  type Buckets<K> = seq<(K, seq<string>)>

  function BKeys<K>(b: Buckets<K>): (ks: seq<K>)
    ensures |ks| == |b| && forall j :: 0 <= j < |b| ==> ks[j] == b[j].0
  {
    if b == [] then [] else [b[0].0] + BKeys(b[1..])
  }

  /** The list stored under `k`, or `[]` when there is none. */
  function Lookup<K(==)>(b: Buckets<K>, k: K): seq<string> {
    if b == [] then [] else if b[0].0 == k then b[0].1 else Lookup(b[1..], k)
  }

  /** Pushes `x` on the list under `k`, creating the list (last) when absent. */
  function AddTo<K(==)>(b: Buckets<K>, k: K, x: string): (r: Buckets<K>)
    ensures |r| == if k in BKeys(b) then |b| else |b| + 1
  {
    if b == [] then [(k, [x])]
    else if b[0].0 == k then [(k, b[0].1 + [x])] + b[1..]
    else [b[0]] + AddTo(b[1..], k, x)
  }

  /** All the lists, one after the other. */
  function Flatten<K>(b: Buckets<K>): seq<string> {
    if b == [] then [] else b[0].1 + Flatten(b[1..])
  }

  /** The items whose key is `k`, in input order. */
  function Select<K(==)>(xs: seq<string>, ks: seq<K>, k: K): seq<string>
    requires |xs| == |ks|
  {
    if xs == [] then []
    else Select(xs[..|xs| - 1], ks[..|ks| - 1], k) + (if ks[|ks| - 1] == k then [xs[|xs| - 1]] else [])
  }

  /** Items grouped by key, groups in order of their key's first occurrence. */
  function GroupBy<K(==)>(xs: seq<string>, ks: seq<K>): Buckets<K>
    requires |xs| == |ks|
  {
    if xs == [] then []
    else AddTo(GroupBy(xs[..|xs| - 1], ks[..|ks| - 1]), ks[|ks| - 1], xs[|xs| - 1])
  }

  ghost predicate DistinctBKeys<K>(b: Buckets<K>) {
    forall i, j :: 0 <= i < j < |b| ==> b[i].0 != b[j].0
  }

  ghost predicate NonEmptyLists<K>(b: Buckets<K>) {
    forall j :: 0 <= j < |b| ==> |b[j].1| > 0
  }

  lemma {:induction false} AddToLookup<K>(b: Buckets<K>, k: K, x: string, k': K)
    ensures Lookup(AddTo(b, k, x), k') == Lookup(b, k') + (if k' == k then [x] else [])
  {
    if b != [] && b[0].0 != k {
      AddToLookup(b[1..], k, x, k');
    }
  }

  lemma {:induction false} AddToKeys<K>(b: Buckets<K>, k: K, x: string)
    ensures BKeys(AddTo(b, k, x)) == if k in BKeys(b) then BKeys(b) else BKeys(b) + [k]
  {
    if b != [] && b[0].0 != k {
      AddToKeys(b[1..], k, x);
    }
  }

  lemma {:induction false} AddToShape<K>(b: Buckets<K>, k: K, x: string)
    requires DistinctBKeys(b) && NonEmptyLists(b)
    ensures DistinctBKeys(AddTo(b, k, x)) && NonEmptyLists(AddTo(b, k, x))
  {
    var r := AddTo(b, k, x);
    AddToKeys(b, k, x);
    forall i, j | 0 <= i < j < |r| ensures r[i].0 != r[j].0 {
      assert BKeys(r)[i] == r[i].0 && BKeys(r)[j] == r[j].0;
      if j < |b| {
        assert BKeys(b)[i] == b[i].0 && BKeys(b)[j] == b[j].0;
      } else {
        assert BKeys(b)[i] == b[i].0;
      }
    }
    if b != [] && b[0].0 != k {
      AddToShape(b[1..], k, x);
    }
  }

  lemma {:induction false} AddToFlatten<K>(b: Buckets<K>, k: K, x: string)
    ensures multiset(Flatten(AddTo(b, k, x))) == multiset(Flatten(b)) + multiset{x}
  {
    if b == [] {
    } else if b[0].0 == k {
      assert Flatten(AddTo(b, k, x)) == b[0].1 + [x] + Flatten(b[1..]);
    } else {
      AddToFlatten(b[1..], k, x);
    }
  }

  lemma {:induction false} LookupAt<K>(b: Buckets<K>, j: nat)
    requires DistinctBKeys(b) && j < |b|
    ensures Lookup(b, b[j].0) == b[j].1
  {
    if j > 0 {
      LookupAt(b[1..], j - 1);
    }
  }

  lemma {:induction false} GroupByPartition<K>(xs: seq<string>, ks: seq<K>)
    requires |xs| == |ks|
    ensures multiset(Flatten(GroupBy(xs, ks))) == multiset(xs)
  {
    if xs != [] {
      var n := |xs| - 1;
      GroupByPartition(xs[..n], ks[..n]);
      AddToFlatten(GroupBy(xs[..n], ks[..n]), ks[n], xs[n]);
      assert xs == xs[..n] + [xs[n]];
    }
  }

  lemma {:induction false} GroupByShape<K>(xs: seq<string>, ks: seq<K>)
    requires |xs| == |ks|
    ensures DistinctBKeys(GroupBy(xs, ks)) && NonEmptyLists(GroupBy(xs, ks))
  {
    if xs != [] {
      var n := |xs| - 1;
      GroupByShape(xs[..n], ks[..n]);
      AddToShape(GroupBy(xs[..n], ks[..n]), ks[n], xs[n]);
    }
  }

  lemma {:induction false} GroupByLookup<K>(xs: seq<string>, ks: seq<K>, k: K)
    requires |xs| == |ks|
    ensures Lookup(GroupBy(xs, ks), k) == Select(xs, ks, k)
  {
    if xs != [] {
      var n := |xs| - 1;
      GroupByLookup(xs[..n], ks[..n], k);
      AddToLookup(GroupBy(xs[..n], ks[..n]), ks[n], xs[n], k);
    }
  }

  lemma GroupBySnoc<K>(xs: seq<string>, ks: seq<K>, x: string, k: K)
    requires |xs| == |ks|
    ensures GroupBy(xs + [x], ks + [k]) == AddTo(GroupBy(xs, ks), k, x)
  {
    assert (xs + [x])[..|xs|] == xs;
    assert (ks + [k])[..|ks|] == ks;
  }

  /** Every item of a key's selection has that key. */
  lemma {:induction false} SelectKeys<K>(xs: seq<string>, ks: seq<K>, k: K, t: string)
    requires |xs| == |ks| && t in Select(xs, ks, k)
    ensures exists i :: 0 <= i < |xs| && xs[i] == t && ks[i] == k
  {
    var n := |xs| - 1;
    if t in Select(xs[..n], ks[..n], k) {
      SelectKeys(xs[..n], ks[..n], k, t);
      var i :| 0 <= i < n && xs[..n][i] == t && ks[..n][i] == k;
      assert xs[i] == t && ks[i] == k;
    }
  }

  /** Grouping keeps every item exactly once, makes one non-empty group per distinct key, and
      a key's group holds exactly that key's items in input order. */
  lemma GroupByFacts<K>(xs: seq<string>, ks: seq<K>)
    requires |xs| == |ks|
    ensures multiset(Flatten(GroupBy(xs, ks))) == multiset(xs)
    ensures DistinctBKeys(GroupBy(xs, ks)) && NonEmptyLists(GroupBy(xs, ks))
    ensures forall j :: 0 <= j < |GroupBy(xs, ks)| ==>
      GroupBy(xs, ks)[j].1 == Select(xs, ks, GroupBy(xs, ks)[j].0)
  {
    var g := GroupBy(xs, ks);
    GroupByPartition(xs, ks);
    GroupByShape(xs, ks);
    forall j | 0 <= j < |g| ensures g[j].1 == Select(xs, ks, g[j].0) {
      LookupAt(g, j);
      GroupByLookup(xs, ks, g[j].0);
    }
  }

  /** One message `_splitMessage` produces: its share of the targets, the forwarder that
      passes it on (`None` when sent directly) and the channel it leaves on. The remaining
      fields are those of the original message. */
  datatype SubMessage = SubMessage(target: seq<string>, forwarder: Option<string>, channel: string)

  function AllTargets(ms: seq<SubMessage>): seq<string> {
    if ms == [] then [] else ms[0].target + AllTargets(ms[1..])
  }

  lemma {:induction false} AllTargetsAppend(a: seq<SubMessage>, b: seq<SubMessage>)
    ensures AllTargets(a + b) == AllTargets(a) + AllTargets(b)
  {
    if a == [] {
      assert a + b == b;
    } else {
      assert (a + b)[1..] == a[1..] + b;
      AllTargetsAppend(a[1..], b);
    }
  }

  lemma FlattenSnoc<K>(b: Buckets<K>, n: nat)
    requires n < |b|
    ensures Flatten(b[..n + 1]) == Flatten(b[..n]) + b[n].1
  {
    if n > 0 {
      assert b[..n + 1][1..] == b[1..][..n];
      assert b[..n][1..] == b[1..][..n - 1];
      FlattenSnoc(b[1..], n - 1);
    } else {
      assert b[..1] == [b[0]];
    }
  }

  /** The route of a sub-message, as the forwarding decision names it. */
  function RouteOf(m: SubMessage): Route {
    if m.forwarder.Some? then Via(m.forwarder.value) else Direct
  }

  /** A sub-message reaches its next hop: it is non-empty and leaves on the channel on which
      its forwarder (or, sent directly, each of its targets) is reached. */
  ghost predicate Delivers(source: string, m: SubMessage) {
    && |m.target| > 0
    && forall t :: t in m.target ==>
      Channel(source, if m.forwarder.Some? then m.forwarder.value else t) == Some(m.channel)
  }

  /** Every target of a sub-message is classified to the sub-message's route. */
  ghost predicate Classified(source: string, m: SubMessage) {
    forall t :: t in m.target ==> Classify(source, t) == Ok(RouteOf(m))
  }

  ghost predicate WellRouted(source: string, m: SubMessage) {
    Classified(source, m) && Delivers(source, m)
  }

  /** The first loop of `_splitMessage`: each target's route, the targets grouped by route in
      first-occurrence order; an error as soon as one target cannot be routed. */
  method GroupTargets(source: string, targets: seq<string>) returns (r: Result<Buckets<Route>>)
    ensures r.Err? <==> exists i :: 0 <= i < |targets| && Classify(source, targets[i]).Err?
    ensures r.Ok? ==> multiset(Flatten(r.value)) == multiset(targets)
    ensures r.Ok? ==> DistinctBKeys(r.value) && NonEmptyLists(r.value)
    ensures r.Ok? ==> forall j, t :: 0 <= j < |r.value| && t in r.value[j].1 ==>
      Classify(source, t) == Ok(r.value[j].0)
  {
    var forwarders: Buckets<Route> := [];
    ghost var routes: seq<Route> := [];
    var i := 0;
    while i < |targets|
      invariant 0 <= i <= |targets|
      invariant RoutesOf(source, targets[..i], routes)
      invariant forwarders == GroupBy(targets[..i], routes)
    {
      var route := Classify(source, targets[i]);
      if route.Err? {
        assert Classify(source, targets[i]).Err?;
        return Err(route.error);
      }
      GroupTargetsStep(source, targets, i, routes, forwarders, route.value);
      forwarders := AddTo(forwarders, route.value, targets[i]);
      routes := routes + [route.value];
      i := i + 1;
    }
    assert targets[..i] == targets;
    GroupedRoutes(source, targets, routes);
    r := Ok(forwarders);
  }

  /** One pass of the grouping loop. */
  lemma GroupTargetsStep(source: string, targets: seq<string>, i: nat, routes: seq<Route>,
                         forwarders: Buckets<Route>, route: Route)
    requires i < |targets| && Classify(source, targets[i]) == Ok(route)
    requires RoutesOf(source, targets[..i], routes) && forwarders == GroupBy(targets[..i], routes)
    ensures RoutesOf(source, targets[..i + 1], routes + [route])
    ensures AddTo(forwarders, route, targets[i]) == GroupBy(targets[..i + 1], routes + [route])
  {
    TakeSnoc(targets, i);
    PairedSnoc(Classify, source, targets[..i], routes, targets[i], route);
    GroupBySnoc(targets[..i], routes, targets[i], route);
  }

  /** `routes` lists the route of each of `xs`, built up one target at a time. */
  ghost predicate RoutesOf(source: string, xs: seq<string>, routes: seq<Route>) {
    Paired(Classify, source, xs, routes)
  }

  /** `f(s, xs[k])` succeeds with `ys[k]` for every `k`. */
  ghost predicate Paired<S, X, Y>(f: (S, X) -> Result<Y>, s: S, xs: seq<X>, ys: seq<Y>)
    decreases |xs|
  {
    |ys| == |xs| &&
    (|xs| > 0 ==> Paired(f, s, xs[..|xs| - 1], ys[..|xs| - 1]) && f(s, xs[|xs| - 1]) == Ok(ys[|xs| - 1]))
  }

  lemma {:induction false} PairedAt<S, X, Y>(f: (S, X) -> Result<Y>, s: S, xs: seq<X>, ys: seq<Y>, j: nat)
    requires Paired(f, s, xs, ys) && j < |xs|
    ensures f(s, xs[j]) == Ok(ys[j])
    decreases |xs|
  {
    var n := |xs| - 1;
    if j < n {
      PairedAt(f, s, xs[..n], ys[..n], j);
      assert xs[..n][j] == xs[j] && ys[..n][j] == ys[j];
    }
  }

  lemma PairedSnoc<S, X, Y>(f: (S, X) -> Result<Y>, s: S, xs: seq<X>, ys: seq<Y>, x: X, y: Y)
    requires Paired(f, s, xs, ys) && f(s, x) == Ok(y)
    ensures Paired(f, s, xs + [x], ys + [y])
  {
    assert (xs + [x])[..|xs|] == xs;
    assert (ys + [y])[..|xs|] == ys;
  }

  /** Each of `xs` has its listed route. */
  lemma RoutesOfAt(source: string, xs: seq<string>, routes: seq<Route>, j: nat)
    requires RoutesOf(source, xs, routes) && j < |xs|
    ensures Classify(source, xs[j]) == Ok(routes[j])
  {
    PairedAt(Classify, source, xs, routes, j);
  }

  lemma GroupedRoutes(source: string, targets: seq<string>, routes: seq<Route>)
    requires RoutesOf(source, targets, routes)
    ensures !exists j :: 0 <= j < |targets| && Classify(source, targets[j]).Err?
    ensures var g := GroupBy(targets, routes);
      && multiset(Flatten(g)) == multiset(targets)
      && DistinctBKeys(g) && NonEmptyLists(g)
      && forall j, t :: 0 <= j < |g| && t in g[j].1 ==> Classify(source, t) == Ok(g[j].0)
  {
    forall j | 0 <= j < |targets| ensures Classify(source, targets[j]).Ok? {
      RoutesOfAt(source, targets, routes, j);
    }
    var g := GroupBy(targets, routes);
    GroupByFacts(targets, routes);
    forall j, t | 0 <= j < |g| && t in g[j].1
      ensures Classify(source, t) == Ok(g[j].0)
    {
      SelectKeys(targets, routes, g[j].0, t);
      var i :| 0 <= i < |targets| && targets[i] == t && routes[i] == g[j].0;
      RoutesOfAt(source, targets, routes, i);
    }
  }

  /** `_splitMessage` for a message from `source`. */
  method SplitMessage(source: string, targets: seq<string>) returns (r: Result<seq<SubMessage>>)
    ensures r.Err? <==> exists i :: 0 <= i < |targets| && Classify(source, targets[i]).Err?
    ensures r.Ok? ==> multiset(AllTargets(r.value)) == multiset(targets)
    ensures r.Ok? ==> forall m :: m in r.value ==> WellRouted(source, m)
    ensures r.Ok? ==> DistinctForwarders(r.value)
  {
    var grouped := GroupTargets(source, targets);
    if grouped.Err? {
      return Err(grouped.error);
    }
    var forwarders := grouped.value;
    var subs: seq<SubMessage> := [];
    var b := 0;
    while b < |forwarders|
      invariant 0 <= b <= |forwarders|
      invariant SplitSoFar(source, forwarders, b, subs)
    {
      var route: Route, group: seq<string> := forwarders[b].0, forwarders[b].1;
      var added: seq<SubMessage>;
      if route.Via? {
        ForwarderHasChannel(source, route, group);
        added := [SubMessage(group, Some(route.forwarder), Channel(source, route.forwarder).value)];
      } else {
        DirectReachable(source, group);
        added := SplitByChannel(source, group);
      }
      SplitStep(source, forwarders, b, subs, added);
      subs := subs + added;
      b := b + 1;
    }
    assert forwarders[..b] == forwarders;
    r := Ok(subs);
  }

  /** What the second loop of `_splitMessage` keeps after the groups before `b`. */
  ghost predicate SplitSoFar(source: string, forwarders: Buckets<Route>, b: nat, subs: seq<SubMessage>)
    requires b <= |forwarders|
  {
    && multiset(AllTargets(subs)) == multiset(Flatten(forwarders[..b]))
    && (forall m :: m in subs ==> WellRouted(source, m))
    && (forall m :: m in subs ==> RouteOf(m) in BKeys(forwarders[..b]))
    && DistinctForwarders(subs)
  }

  /** The sub-messages of group `b` keep the loop's invariant. */
  lemma SplitStep(source: string, forwarders: Buckets<Route>, b: nat, subs: seq<SubMessage>, added: seq<SubMessage>)
    requires b < |forwarders| && DistinctBKeys(forwarders) && SplitSoFar(source, forwarders, b, subs)
    requires forall t :: t in forwarders[b].1 ==> Classify(source, t) == Ok(forwarders[b].0)
    requires forwarders[b].0.Via? ==>
      var f := forwarders[b].0.forwarder;
      && |forwarders[b].1| > 0 && Channel(source, f).Some?
      && added == [SubMessage(forwarders[b].1, Some(f), Channel(source, f).value)]
    requires forwarders[b].0.Direct? ==>
      && multiset(AllTargets(added)) == multiset(forwarders[b].1)
      && forall m :: m in added ==> DirectShare(source, forwarders[b].1, m)
    ensures SplitSoFar(source, forwarders, b + 1, subs + added)
  {
    var route, group := forwarders[b].0, forwarders[b].1;
    if route.Via? {
      assert AllTargets(added) == group + AllTargets([]);
      assert AllTargets(added) == group;
    }
    ShareWellRouted(source, route, group, added);
    PartitionStep(subs, added, forwarders, b);
    DistinctStep(subs, added, forwarders, b);
  }

  lemma ForwarderHasChannel(source: string, route: Route, group: seq<string>)
    requires route.Via? && |group| > 0
    requires forall t :: t in group ==> Classify(source, t) == Ok(route)
    ensures Channel(source, route.forwarder).Some?
  {
    RouteHasChannel(source, group[0]);
  }

  lemma DirectReachable(source: string, group: seq<string>)
    requires forall t :: t in group ==> Classify(source, t) == Ok(Direct)
    ensures forall t :: t in group ==> Reachable(source, t)
  {
    forall t | t in group ensures Reachable(source, t) {
      RouteHasChannel(source, t);
    }
  }

  /** The sub-messages made for one group carry its route and are well routed. */
  lemma ShareWellRouted(source: string, route: Route, group: seq<string>, added: seq<SubMessage>)
    requires forall t :: t in group ==> Classify(source, t) == Ok(route)
    requires route.Via? ==>
      && |group| > 0 && Channel(source, route.forwarder).Some?
      && added == [SubMessage(group, Some(route.forwarder), Channel(source, route.forwarder).value)]
    requires route.Direct? ==> forall m :: m in added ==> DirectShare(source, group, m)
    ensures forall m :: m in added ==> WellRouted(source, m) && RouteOf(m) == route
    ensures route.Via? ==> |added| <= 1
  {
  }

  /** No forwarder gets two sub-messages. */
  ghost predicate DistinctForwarders(subs: seq<SubMessage>) {
    forall p, q :: 0 <= p < q < |subs| && subs[p].forwarder.Some? ==> subs[p].forwarder != subs[q].forwarder
  }

  lemma PartitionStep<K>(subs: seq<SubMessage>, added: seq<SubMessage>, b: Buckets<K>, n: nat)
    requires n < |b|
    requires multiset(AllTargets(subs)) == multiset(Flatten(b[..n]))
    requires multiset(AllTargets(added)) == multiset(b[n].1)
    ensures multiset(AllTargets(subs + added)) == multiset(Flatten(b[..n + 1]))
  {
    FlattenSnoc(b, n);
    AllTargetsAppend(subs, added);
  }

  lemma DistinctStep(subs: seq<SubMessage>, added: seq<SubMessage>, b: Buckets<Route>, n: nat)
    requires n < |b| && DistinctBKeys(b)
    requires DistinctForwarders(subs)
    requires forall m :: m in subs ==> RouteOf(m) in BKeys(b[..n])
    requires forall m :: m in added ==> RouteOf(m) == b[n].0
    requires b[n].0.Via? ==> |added| <= 1
    ensures DistinctForwarders(subs + added)
    ensures forall m :: m in subs + added ==> RouteOf(m) in BKeys(b[..n + 1])
  {
    assert BKeys(b[..n + 1]) == BKeys(b[..n]) + [b[n].0];
    var all := subs + added;
    forall p, q | 0 <= p < q < |all| && all[p].forwarder.Some?
      ensures all[p].forwarder != all[q].forwarder
    {
      if q >= |subs| && all[q].forwarder.Some? {
        assert all[q] in added;
        if p < |subs| {
          assert all[p] in subs;
          assert RouteOf(all[p]) in BKeys(b[..n]);
          var i :| 0 <= i < n && BKeys(b[..n])[i] == RouteOf(all[p]);
          assert b[i].0 != b[n].0;
        }
      } else if q < |subs| {
        assert all[p] == subs[p] && all[q] == subs[q];
      }
    }
  }

  /** The direct group, one sub-message per channel in order of first use. */
  method SplitByChannel(source: string, group: seq<string>) returns (added: seq<SubMessage>)
    requires forall t :: t in group ==> Reachable(source, t)
    ensures multiset(AllTargets(added)) == multiset(group)
    ensures forall m :: m in added ==> DirectShare(source, group, m)
  {
    var channels: Buckets<string>;
    ghost var used: seq<string>;
    channels, used := GroupByChannel(source, group);
    added := ChannelMessages(source, group, channels);
  }

  /** A sub-message sent directly, to targets of `group` reached on its channel. */
  ghost predicate DirectShare(source: string, group: seq<string>, m: SubMessage) {
    && Delivers(source, m)
    && m.forwarder.None?
    && forall t :: t in m.target ==> t in group
  }

  /** Targets of `group` bucketed by the channel on which each is reached. */
  ghost predicate ChannelBuckets(source: string, group: seq<string>, channels: Buckets<string>) {
    && multiset(Flatten(channels)) == multiset(group)
    && forall j :: 0 <= j < |channels| ==>
      && |channels[j].1| > 0
      && forall t :: t in channels[j].1 ==> t in group && Channel(source, t) == Some(channels[j].0)
  }

  lemma GroupedChannels(source: string, group: seq<string>, used: seq<string>)
    requires |used| == |group|
    requires forall j :: 0 <= j < |group| ==> Channel(source, group[j]) == Some(used[j])
    ensures ChannelBuckets(source, group, GroupBy(group, used))
  {
    var g := GroupBy(group, used);
    GroupByFacts(group, used);
    forall j | 0 <= j < |g|
      ensures |g[j].1| > 0
      ensures forall t :: t in g[j].1 ==> t in group && Channel(source, t) == Some(g[j].0)
    {
      forall t | t in g[j].1 ensures t in group && Channel(source, t) == Some(g[j].0) {
        SelectKeys(group, used, g[j].0, t);
        var i :| 0 <= i < |group| && group[i] == t && used[i] == g[j].0;
        assert group[i] in group;
      }
    }
    assert multiset(Flatten(g)) == multiset(group);
  }

  /** The second half of the direct branch: one sub-message per channel bucket. */
  method ChannelMessages(source: string, group: seq<string>, channels: Buckets<string>) returns (added: seq<SubMessage>)
    requires ChannelBuckets(source, group, channels)
    ensures multiset(AllTargets(added)) == multiset(group)
    ensures forall m :: m in added ==> DirectShare(source, group, m)
  {
    added := [];
    var c := 0;
    while c < |channels|
      invariant 0 <= c <= |channels|
      invariant multiset(AllTargets(added)) == multiset(Flatten(channels[..c]))
      invariant forall m :: m in added ==> DirectShare(source, group, m)
    {
      var m := SubMessage(channels[c].1, None, channels[c].0);
      assert DirectShare(source, group, m);
      PartitionStep(added, [m], channels, c);
      added := added + [m];
      c := c + 1;
    }
    assert channels[..c] == channels;
  }

  /** The first half of the direct branch: the direct targets grouped by their channel. */
  method GroupByChannel(source: string, group: seq<string>) returns (channels: Buckets<string>, ghost used: seq<string>)
    requires forall t :: t in group ==> Reachable(source, t)
    ensures |used| == |group| && channels == GroupBy(group, used)
    ensures forall j :: 0 <= j < |group| ==> Channel(source, group[j]) == Some(used[j])
    ensures ChannelBuckets(source, group, channels)
  {
    channels := [];
    used := [];
    var i := 0;
    while i < |group|
      invariant 0 <= i <= |group|
      invariant ChannelsOf(source, group[..i], used)
      invariant channels == GroupBy(group[..i], used)
    {
      assert group[i] in group;
      var ch := Channel(source, group[i]).value;
      channels := AddTo(channels, ch, group[i]);
      TakeSnoc(group, i);
      ChannelsSnoc(source, group[..i], used, group[i], ch);
      GroupBySnoc(group[..i], used, group[i], ch);
      used := used + [ch];
      i := i + 1;
    }
    assert group[..i] == group;
    GroupedChannels(source, group, used);
  }

  /** `used` lists the channel of each of `xs`. */
  ghost predicate ChannelsOf(source: string, xs: seq<string>, used: seq<string>) {
    |used| == |xs| && forall j :: 0 <= j < |xs| ==> Channel(source, xs[j]) == Some(used[j])
  }

  lemma ChannelsSnoc(source: string, xs: seq<string>, used: seq<string>, x: string, ch: string)
    requires ChannelsOf(source, xs, used) && Channel(source, x) == Some(ch)
    ensures ChannelsOf(source, xs + [x], used + [ch])
  {
  }

  lemma TakeSnoc<T>(s: seq<T>, i: nat)
    requires i < |s|
    ensures s[..i + 1] == s[..i] + [s[i]]
  {
  }

  /** What the content script's bridge does with one received message. */
  datatype BridgeAction =
    | Ignored
    | ToBackground(wire: Dict<Json>)
    | ToWindow(wire: Dict<Json>)
    | BridgeThrows

  /** The content script's `_bridge` listener; `tabId` is the bridge's own tab. */
  function Bridge(tabId: Json, raw: Dict<Json>): (a: BridgeAction)
    ensures a.ToBackground? ==>
      && Messaging.RemovePrefix(raw).Some?
      && Get(Messaging.RemovePrefix(raw).value, "source") == Some(JStr("injected-script"))
      && a.wire == Messaging.AddPrefix(Put(Messaging.RemovePrefix(raw).value, "tabId", tabId))
    ensures a.ToWindow? ==>
      && Messaging.RemovePrefix(raw).Some?
      && Get(Messaging.RemovePrefix(raw).value, "source") == Some(JStr("background"))
      && a.wire == Messaging.AddPrefix(Messaging.RemovePrefix(raw).value)
  {
    match Messaging.RemovePrefix(raw)
    case None => Ignored
    case Some(message) =>
      var source := Get(message, "source");
      var target := Get(message, "target");
      if source == Some(JStr("injected-script")) then
        match Messaging.TargetIncludes(target, "background")
        case Err(_) => BridgeThrows
        case Ok(true) => ToBackground(Messaging.AddPrefix(Put(message, "tabId", tabId)))
        case Ok(false) => Ignored
      else if source == Some(JStr("background")) then
        match Messaging.TargetIncludes(target, "injected-script")
        case Err(_) => BridgeThrows
        case Ok(true) => ToWindow(Messaging.AddPrefix(message))
        case Ok(false) => Ignored
      else Ignored
  }

  /** A message the bridge passes to the background carries the bridge's tab id and is
      otherwise the message it received. */
  lemma BridgeStampsTab(tabId: Json, raw: Dict<Json>)
    requires DistinctKeys(raw)
    requires Bridge(tabId, raw).ToBackground?
    ensures var message := Messaging.RemovePrefix(raw).value;
      && Messaging.RemovePrefix(Bridge(tabId, raw).wire) == Some(Put(message, "tabId", tabId))
      && Get(Put(message, "tabId", tabId), "tabId") == Some(tabId)
      && forall k :: k != "tabId" ==> Get(Put(message, "tabId", tabId), k) == Get(message, k)
  {
    var message := Messaging.RemovePrefix(raw).value;
    assert Bridge(tabId, raw).wire == Messaging.AddPrefix(Put(message, "tabId", tabId));
    StripDistinct(raw);
    Stamp(message, tabId);
  }

  lemma Stamp(message: Dict<Json>, tabId: Json)
    requires DistinctKeys(message)
    ensures Messaging.RemovePrefix(Messaging.AddPrefix(Put(message, "tabId", tabId))) == Some(Put(message, "tabId", tabId))
    ensures Get(Put(message, "tabId", tabId), "tabId") == Some(tabId)
    ensures forall k :: k != "tabId" ==> Get(Put(message, "tabId", tabId), k) == Get(message, k)
  {
    StampWire(message, tabId);
    PutGet(message, "tabId", tabId, "tabId");
    forall k | k != "tabId" ensures Get(Put(message, "tabId", tabId), k) == Get(message, k) {
      PutGet(message, "tabId", tabId, k);
    }
  }

  lemma StampWire(message: Dict<Json>, tabId: Json)
    requires DistinctKeys(message)
    ensures Messaging.RemovePrefix(Messaging.AddPrefix(Put(message, "tabId", tabId))) == Some(Put(message, "tabId", tabId))
  {
    PutDistinct(message, "tabId", tabId);
    Messaging.RemoveAddPrefix(Put(message, "tabId", tabId));
  }

  /** Stripping the prefix of a wire object gives an object (distinct keys). */
  lemma {:induction false} StripDistinct<V>(raw: Dict<V>)
    requires Messaging.AllPrefixed(raw)
    ensures DistinctKeys(Messaging.StripAll(raw))
  {
    if raw != [] {
      var n := |raw| - 1;
      StripDistinct(raw[..n]);
      PutDistinct(Messaging.StripAll(raw[..n]), raw[n].0[|Messaging.PREFIX|..], raw[n].1);
    }
  }

  /** A message from the window is re-posted on the window unchanged. */
  lemma BridgeWindowUnchanged(tabId: Json, raw: Dict<Json>)
    requires DistinctKeys(raw)
    requires Bridge(tabId, raw).ToWindow?
    ensures Messaging.RemovePrefix(Bridge(tabId, raw).wire) == Messaging.RemovePrefix(raw)
  {
    StripDistinct(raw);
    Messaging.RemoveAddPrefix(Messaging.RemovePrefix(raw).value);
  }

  /** `BackgroundMessagingChannel.postMessage`: the tab the message is sent to, or the error
      thrown when the prefixed tab id is missing or falsy. */
  function BackgroundPost(wire: Dict<Json>): (r: Result<Json>)
    ensures r.Ok? <==> TruthyOpt(Get(wire, Messaging.PREFIX + "tabId"))
    ensures r.Ok? ==> Truthy(r.value)
  {
    var tab := Get(wire, Messaging.PREFIX + "tabId");
    if !TruthyOpt(tab) then Err("tabId is required to send messages via BackgroundMessagingChannel")
    else Ok(tab.value)
  }
}
