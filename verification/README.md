# Guzztool, modelled in Dafny

Guzztool is a browser extension for the Pokémon Showdown battle client. It is a set of
"subtools", each injected into the client's page, plus the plumbing that connects the
page, the content script and the extension's background service worker, and the build that
packages it for Chrome and Firefox. This project models the parts of it that carry
decisions:

- **Messaging.** The envelope of the window-message channel (`guzztool_` key prefixes,
  target and reply resolution, the listener filter) in `messaging.dfy`. The draft
  multi-hop router (tab-qualified endpoint names, the direct-or-forward decision, grouping
  targets into sub-messages, the content script's bridge, the background channel's tab-id
  check) in `router.dfy`.
- **Event registries.** `ListenerProxy` with its array and function variants
  (`listener_proxy.dfy`), and `RoomListener` with its replay of the initial rooms
  (`room_listener.dfy`).
- **Helpers.** `weighted_random` and `nested_assign` (`util.dfy`). Random-set generation
  and the usage-table parser of Togepi's lucky button (`random_set.dfy`).
- **Subtools.**
  - Exploud's announcer: the battle-message handler, the sound player with its queue and
    play counts, and the asset map (`announcer.dfy`, `announcer_sounds.dfy`,
    `asset_map.dfy`).
  - Zorua's spoiler guard (`spoilerguard.dfy`).
  - Scyther's Mantis estimation, with its modifier tracker (`mantis.dfy`,
    `modifier_tracker.dfy`).
  - Primarina's jukebox (`jukebox.dfy`).
  - Sigilyph's disconnect watcher (`watcher.dfy`).
  - Pikachu's Elo hider (`elo_hider.dfy`).
- **Extension and build.**
  - The service worker's default options and fetch handler (`service_worker.dfy`).
  - The webpack configuration and its manifest rewrite (`build.dfy`, `manifest.dfy`).
  - The sticker effect's alpha pass (`sticker.dfy`).
  - The icon generator (`icon.dfy`).

Shared modules: `wrappers.dfy` (Option and Result), `dicts.dfy` (a JavaScript object as an
ordered list of key/value pairs, in `Object.keys` order), `json.dfy` (JSON values and
JavaScript truthiness), `strings.dfy` and `seqs.dfy`.

Code that updates objects in place is modelled as classes whose methods state the new
state in terms of specification functions. Pure code is modelled as functions. The
properties are proved as lemmas about those functions. Random draws, timer expiries, the
battle state read from the client, and directory listings are parameters or explicit
events.

## Model

| member | source | states |
|---|---|---|
| Messaging.AddPrefix | src/util/messaging.js:141-146 | `_addPrefix` never yields more entries than the object had |
| Messaging.Prefixed | src/util/messaging.js:141-146 | the reference renaming: entry `i` becomes `(PREFIX + key_i, value_i)`, order and count kept |
| Messaging.AddPrefixPointwise | src/util/messaging.js:141-146 | for an object (distinct keys) the `reduce` fold equals the pointwise renaming |
| Messaging.AddPrefixKeys | src/util/messaging.js:141-146 | every key of a wrapped object starts with `guzztool_`, none is lost, each is `PREFIX + ` the original key |
| Messaging.RemovePrefix | src/util/messaging.js:153-159 | `_removePrefix` returns `false` exactly when some key lacks the prefix |
| Messaging.StripPrefixed | src/util/messaging.js:153-159 | stripping the prefix from a prefixed object gives the object back |
| Messaging.RemoveAddPrefix | src/util/messaging.js:141-159 | round trip: `_removePrefix(_addPrefix(obj))` is `obj` for every object |
| Messaging.EnvelopeObject | src/util/messaging.js:74-82 | the message literal has seven distinct keys |
| Messaging.OtherTargets | src/util/messaging.js:68 | the default targets are exactly the `TARGETS` other than the source, and never empty |
| Messaging.TypeOkPosted | src/util/messaging.js:119-124 | the type filter: no filter passes everything, one type (or `""`) passes that type, a list passes its members |
| Messaging.Messaging.constructor | src/util/messaging.js:24-27 | records `source` and `context` (`null` as the global context) |
| Messaging.Messaging.GetContext | src/util/messaging.js:34-37 | the same instance when the context is unchanged, otherwise a fresh instance with the same source |
| Messaging.Messaging.PostMessage | src/util/messaging.js:50-83 | a reply with an explicit target throws; a reply goes to `[replyTo.source]` with `replyTo.id` and inherits a falsy type; a missing target means all other targets; a single target is wrapped; an empty list or an unknown target throws; id, content, source and context are recorded |
| Messaging.Messaging.Receive | src/util/messaging.js:121-131 | the listener delivers only data whose every key carries the prefix |
| Messaging.Messaging.ReceivePosted | src/util/messaging.js:121-131 | a posted message reaches a listener exactly when the type passes, the listener's source is a target, the context is global or equal, and it is not a reply (unless replies are included) |
| Messaging.Messaging.ReceiveWire | src/util/messaging.js:122-127 | the listener judges the fields it reads back from the wire form |
| Messaging.Messaging.JudgePosted | src/util/messaging.js:123-127 | the four checks evaluated on the fields of a posted message |
| Messaging.WireFields | src/util/messaging.js:74-83 | unwrapping the wire form yields the message literal, with `type`, `target`, `context` and `replyTo` as posted |
| Router.BeforeAfter | messaging_test.mjs:410-413 | a name is its part before the first separator, the separator and the rest; without the separator the part is the whole name |
| Router.SplitTabIdPieces | messaging_test.mjs:410-413 | neither piece of `_split_tabId` contains `-`; a name without `-` is its own base with no tab id |
| Router.SplitTabIdIsSplit | messaging_test.mjs:410-413 | `_split_tabId` is the first two pieces of `split('-')`, the second `undefined` when absent |
| Router.PiecesOfSplit | messaging_test.mjs:411 | the first piece of `split('-')` and the pieces after the first separator |
| Router.SplitTabIdJoin | messaging_test.mjs:410-413 | `<base>-<tab>` with dash-free parts splits back into `(base, tab)` |
| Router.Class | messaging_test.mjs:180-188 | the `REACHABLE` row a sender falls under is its base context when that is one of the three known ones, and `"other"` for every other context |
| Router.TabText | messaging_test.mjs:358-362 | a tab id in a template string prints as itself |
| Router.BackgroundFacts | messaging_test.mjs:186 | the background's row reaches `contentScript` and `other` by `browser`, and neither `web` nor itself |
| Router.BackgroundToWebAsWritten | messaging_test.mjs:357-358 | as written, a background message for `web-<tab>` is forwarded to `contentScript-undefined` |
| Router.UndefinedHop | messaging_test.mjs:344-358 | the background's own tab id is `undefined` |
| Router.BackgroundToWeb | messaging_test.mjs:356-358 | corrected: a background message for `web-<tab>` is forwarded to `contentScript-<tab>` |
| Router.WebTabSplit | messaging_test.mjs:410-413 | `web-<tab>` splits into `web` and the tab |
| Router.BackgroundToWebVia | messaging_test.mjs:353-358 | background-to-web is never direct: it always takes the content-script hop |
| Router.TabConflictNeverDirect | messaging_test.mjs:351-355 | two endpoints on different truthy tabs are never routed directly |
| Router.ContentScriptClass | messaging_test.mjs:410-413 | every `contentScript-<tab>` name falls under the `contentScript` row and carries its tab |
| Router.RouteHasChannel | messaging_test.mjs:353-387 | a direct route has a channel, and so does every forwarder a route names |
| Router.HopHasChannel | messaging_test.mjs:353-362 | a background or web sender reaches a content script on some channel |
| Router.RowFacts | messaging_test.mjs:184-187 | content scripts and other contexts reach the background; web reaches its content script by `window` |
| Router.OnlyBackgroundCanFail | messaging_test.mjs:368-371 | every sender but the background resolves forwarding for every target (the `throw` is reachable only from the background) |
| Router.BackgroundCannotReachItself | messaging_test.mjs:368-371 | a background message addressed to `background` cannot be routed |
| Router.AddTo | messaging_test.mjs:345-348 | pushing onto a missing list creates one new bucket; onto an existing one adds none |
| Router.AddToLookup | messaging_test.mjs:345-348 | `forwardTo` appends the target to its key's list and changes no other list |
| Router.AddToKeys | messaging_test.mjs:345-348 | a new key is added last, in order of first use |
| Router.GroupByFacts | messaging_test.mjs:341-376 | grouping keeps every target exactly once, one non-empty list per distinct key, each list holding exactly that key's targets in order |
| Router.GroupTargets | messaging_test.mjs:341-372 | corrected: the first loop fails exactly when some target cannot be routed; otherwise the forwarders table partitions the targets by their route |
| Router.GroupedRoutes | messaging_test.mjs:341-372 | corrected: the grouped table of routed targets is a partition by route |
| Router.SplitMessage | messaging_test.mjs:339-401 | corrected: `_splitMessage` fails exactly when some target cannot be routed; otherwise the sub-messages carry every target exactly once, each leaves on a channel on which its next hop is reachable, and no forwarder gets two |
| Router.SplitByChannel | messaging_test.mjs:383-398 | the direct group is split into sub-messages per channel, covering each direct target exactly once |
| Router.GroupByChannel | messaging_test.mjs:385-390 | the channel table buckets the direct targets by the channel reaching each |
| Router.ChannelMessages | messaging_test.mjs:391-397 | one sub-message per channel bucket, together covering the group |
| Router.Bridge | messaging_test.mjs:446-456 | the bridge forwards an injected-script message for the background with the bridge's tab id stamped in, forwards a background message for the injected script unchanged, and drops unprefixed data |
| Router.BridgeStampsTab | messaging_test.mjs:449-452 | what reaches the background unwraps to the message with `tabId` set and every other field kept |
| Router.Stamp | messaging_test.mjs:450-452 | stamping `tabId` survives the wire round trip and changes no other field |
| Router.BridgeWindowUnchanged | messaging_test.mjs:453-455 | a message passed to the window unwraps to the same object as before |
| Router.BackgroundPost | messaging_test.mjs:159-162 | the background channel sends exactly when the message has a truthy `tabId`, and throws otherwise |
| ListenerProxies.Names | src/util/ListenerProxy.js:49 | a single event name is wrapped in a one-element list |
| ListenerProxies.Register | src/util/ListenerProxy.js:39-52 | a name inherited from `Object.prototype` throws the `push` TypeError; any other name gets the listener appended to its list, and no other list changes |
| ListenerProxies.RegisterAllListeners | src/util/ListenerProxy.js:48-54 | when no name is inherited, `on` does not throw and appends the listener to each event's list once per occurrence of its name, after the listeners already there |
| ListenerProxies.RegisterAllOthers | src/util/ListenerProxy.js:48-54 | events not named keep their listeners, whether or not the call throws |
| ListenerProxies.RegisterAllThrows | src/util/ListenerProxy.js:39-54 | a list with an inherited name throws the `push` TypeError, with the names before the first inherited one registered |
| ListenerProxies.RegisterAllFrame | src/util/ListenerProxy.js:48-54 | registration leaves the lists of events it does not name unchanged |
| ListenerProxies.RegisterUserKeepsRelay | src/util/ListenerProxy.js:51-52 | one user registration keeps the relay first on `set` and `deleteProperty` |
| ListenerProxies.TrapsNotInherited | src/util/ListenerProxy.js:23 | no handler trap is named like an inherited property, so trap emissions never throw |
| ListenerProxies.CallsOfUsers | src/util/ListenerProxy.js:62-65 | plain listeners are called once each, in registration order |
| ListenerProxies.RegisterThenEmit | src/util/ListenerProxy.js:48-65 | after `on(e, l)` for a name `e` that is neither `"*"` nor inherited, emitting `e` calls the earlier listeners of `e`, then `l`, then the `"*"` listeners |
| ListenerProxies.MutateIsFlat | src/util/ListenerProxy.js:108-110 | the array proxy's own `mutate` relay does not recurse: a `mutate` emission is the same at every depth |
| ListenerProxies.ArrayTrapEmitsMutate | src/util/ListenerProxy.js:108-110 | on an array proxy a `set` or `deleteProperty` trap first emits `mutate` with `{event, args}`, then calls the other listeners of the trap and the `"*"` listeners |
| ListenerProxies.RelayRegistration | src/util/ListenerProxy.js:94-110 | the array proxy starts with the relay as the only listener of `set` and `deleteProperty` |
| ListenerProxies.RegisterUsersKeepsRelay | src/util/ListenerProxy.js:48-54 | later registrations, including ones that throw part-way, keep the relay first on `set` and `deleteProperty` |
| ListenerProxies.ListenerProxy.constructor | src/util/ListenerProxy.js:29-142 | a fresh proxy has no listeners, except the array proxy's relay on `set` and `deleteProperty` |
| ListenerProxies.ListenerProxy.On | src/util/ListenerProxy.js:48-54 | `on` registers the names in turn until an inherited one throws, with the state and error of the reference registration, and keeps the relay invariant |
| ListenerProxies.ListenerProxy.Emit | src/util/ListenerProxy.js:62-65 | `_emit` of an inherited name throws before any listener runs; otherwise it calls the event's listeners and then the `"*"` listeners |
| ListenerProxies.ListenerProxy.Notify | src/util/ListenerProxy.js:63-64 | the `forEach` over a listener list produces the calls of the reference trace |
| ListenerProxies.ListenerProxy.Trap | src/util/ListenerProxy.js:23-141 | a proxied operation emits its trap's event and reflects, except that an array proxy hands out a wrapper for a mutating method and a function proxy emits `apply` and returns `proxyFn`'s result |
| ListenerProxies.ListenerProxy.CallWrapper | src/util/ListenerProxy.js:99-103 | calling a mutating-method wrapper emits `mutate` with `{type, args}`, then the `get` of the method, then applies it |
| RoomListeners.Register | src/util/RoomListener.js:25-31 | `on` appends to the lists of `new` and `delete`, and throws at the first name that is not one of them |
| RoomListeners.RegisterStep | src/util/RoomListener.js:27-30 | one name: append when it is an own key, a `TypeError` for an inherited property, `Invalid event` otherwise |
| RoomListeners.RegisterPartial | src/util/RoomListener.js:27-30 | registrations before the invalid name stay in place when `on` throws |
| RoomListeners.RegisterAppends | src/util/RoomListener.js:25-31 | with valid names, each list gains the listener once per occurrence of its name |
| RoomListeners.NewCalls | src/util/RoomListener.js:11-13 | a `set` calls every `new` handler |
| RoomListeners.DeleteCalls | src/util/RoomListener.js:14-16 | a `deleteProperty` calls every `delete` handler |
| RoomListeners.HandlerCallsAt | src/util/RoomListener.js:11-16 | the `i`-th call goes to the `i`-th handler with `(roomId, room)` or `(roomId)` |
| RoomListeners.Without | src/util/RoomListener.js:40 | the snapshot without one room |
| RoomListeners.ReplayAfterDelete | src/util/RoomListener.js:38-43 | `initialize` after deleting a room replays as if the room had never been in the snapshot |
| RoomListeners.ReplayAppend | src/util/RoomListener.js:38-43 | the replay of a snapshot is the replays of its parts, one after the other |
| RoomListeners.ReplayAllPresent | src/util/RoomListener.js:38-43 | when every initial room still exists, each gets every `new` handler: snapshot size times handler count calls |
| RoomListeners.CallNew | src/util/RoomListener.js:12-41 | the handler loop calls each `new` handler once, in order |
| RoomListeners.RoomListener.constructor | src/util/RoomListener.js:7-18 | empty `new` and `delete` lists, and the snapshot is the current room ids |
| RoomListeners.RoomListener.On | src/util/RoomListener.js:25-31 | the handlers become `Register`'s result, including a partial registration when it throws; the rooms are unchanged |
| RoomListeners.RoomListener.SetRoom | src/util/RoomListener.js:11-13 | assigning a room stores it and calls every `new` handler |
| RoomListeners.RoomListener.DeleteRoom | src/util/RoomListener.js:14-16 | deleting a room removes it and calls every `delete` handler |
| RoomListeners.RoomListener.Initialize | src/util/RoomListener.js:38-43 | the replay over the snapshot: rooms that no longer exist are skipped, each other room gets every `new` handler |
| Util.FirstAbove | src/util/util.js:18-20 | the scan stops at the first index whose cumulative weight exceeds the threshold, or runs off the end |
| Util.Choice | src/util/util.js:8-23 | `weighted_random` returns one of the keys, or `undefined` |
| Util.WeightedRandom | src/util/util.js:8-23 | the two loops (cumulative weights, then the scan) compute the reference choice for the random draw `r` |
| Util.ChoiceAvoidsZero | src/util/util.js:8-23 | with non-negative weights of positive total and `0 <= r < 1`, the pick is a key whose weight is positive |
| Util.AboveIsPositive | src/util/util.js:13-20 | the first cumulative weight above a threshold below the total belongs to a positive weight |
| Util.NoneAbove | src/util/util.js:18-22 | when no cumulative weight exceeds the scaled draw, the result is `undefined` |
| Util.AllZeroUndefined | src/util/util.js:16-22 | all-zero weights (and an empty dictionary) give `undefined` |
| Util.RecursesOnContainers | src/util/util.js:35 | `nested_assign` recurses exactly when both values are truthy objects (arrays included) |
| Util.AssignItems | src/util/util.js:34-38 | assigning into an array grows it to the longer length and keeps the elements the source does not reach |
| Util.NestedAssign | src/util/util.js:32-41 | the nested loops compute the reference assignment of all sources, in order |
| Util.AssignFrom | src/util/util.js:34-38 | one source assigned key by key into an object |
| Util.AssignElements | src/util/util.js:34-38 | one array source assigned index by index into an array |
| Util.MergeInto | src/util/util.js:35-37 | one key's new value: the recursive merge or the source's value |
| Util.SourceKeys | src/util/util.js:34 | `Object.keys` of a source: an object's keys, an array's indices |
| Util.AssignPropsKeys | src/util/util.js:34-38 | after assigning, the keys are those of the target and of the source, none twice |
| Util.AssignPropsKeeps | src/util/util.js:34-38 | a key the source lacks keeps the target's value |
| Util.AssignPropsSets | src/util/util.js:35-37 | a source key gets the merge of the target's and the source's values |
| Util.TargetOnlyKeysKept | src/util/util.js:32-41 | a key in no source is unchanged |
| Util.LaterSourcesWin | src/util/util.js:33-39 | the last source holding a key with a non-object value decides it |
| Util.SourceSets | src/util/util.js:35-37 | a non-object source value overwrites the target's |
| RandomSets.Normalise | src/util/ShowdownAPI.js:38 | each move's count divided by the raw count, same moves in the same order |
| RandomSets.DecrementFloors | src/util/ShowdownAPI.js:43 | only the drawn move's weight changes: it drops by one, floored at zero |
| RandomSets.DecrementKeys | src/util/ShowdownAPI.js:43 | the decrement keeps the set of moves |
| RandomSets.DecrementNonNegative | src/util/ShowdownAPI.js:43 | the decrement keeps every weight non-negative |
| RandomSets.DrawAll | src/util/ShowdownAPI.js:40-44 | the draw loop keeps at most one move per draw and the set of moves |
| RandomSets.DrawAllPicks | src/util/ShowdownAPI.js:41-42 | no kept move is blank, and every defined one is one of the moves |
| RandomSets.Blanks | src/util/ShowdownAPI.js:45 | the padding is blank move slots |
| RandomSets.MovesetShape | src/util/ShowdownAPI.js:39-45 | the moveset has exactly four slots, blanks only after every drawn move, and each drawn slot is one of the moves or `undefined` |
| RandomSets.GenerateMoveset | src/util/ShowdownAPI.js:37-45 | the two loops build the reference moveset and leave the reference weights |
| RandomSets.DrawMoves | src/util/ShowdownAPI.js:40-44 | the four-iteration loop computes the reference draw |
| RandomSets.PadBlanks | src/util/ShowdownAPI.js:45 | the `while` loop pads with blanks up to four slots |
| RandomSets.ParseSpread | src/util/ShowdownAPI.js:49-51 | parsing throws exactly when the spread is `undefined` or has no `:` |
| RandomSets.SpreadFields | src/util/ShowdownAPI.js:48-51 | `"Nature:a/b/c/d/e/f"` gives the nature and the six EVs under hp, atk, def, spa, spd and spe |
| RandomSets.SixEvs | src/util/ShowdownAPI.js:48-51 | six EV pieces land under the six stat keys, in order |
| RandomSets.GenerateRandomSet | src/util/ShowdownAPI.js:35-70 | `generateRandomSet` returns the reference set, or throws where the spread cannot be parsed |
| RandomSets.RandomSetFixed | src/util/ShowdownAPI.js:35-70 | it throws exactly when the spread cannot be parsed; otherwise the set is named for its species, has four move slots with blanks last, IVs of 31, level 100 and tera type Stellar |
| RandomSets.PerfectIvs | src/util/ShowdownAPI.js:61 | every stat's IV is 31 |
| RandomSets.LuckySet | src/subtools/togepis_lucky_button/inject.js:75-110 | the lucky-button variant fails exactly when the base one does, and differs from it only by the dex names of the item, the ability and the four moves |
| RandomSets.UsageEntries | src/subtools/togepis_lucky_button/inject.js:59-64 | one `[name, usage]` pair per body row of the table, header and footer dropped |
| RandomSets.UsageLastRowWins | src/subtools/togepis_lucky_button/inject.js:59-64 | a name holds the usage of the last body row carrying it (`Object.fromEntries`) |
| RandomSets.UsageKeys | src/subtools/togepis_lucky_button/inject.js:59-64 | the parsed table has one key per distinct name in the body, and no other |
| RandomSets.StatsUrls | src/subtools/togepis_lucky_button/inject.js:55-71 | the usage URL starts with the data folder and ends in `<format>-<elo>.txt`; the chaos URL ends in `chaos/<format>-<elo>.json`, elo defaulting to 0 |
| RandomSets.JoinEnds | src/subtools/togepis_lucky_button/inject.js:52-70 | `urlJoin` keeps the base as prefix and the path as suffix |
| Announcer.Param | src/subtools/explouds_announcer/inject.js:10 | `params[i]` is defined exactly for indices inside the line |
| Announcer.Impact | src/subtools/explouds_announcer/inject.js:180-186 | at most one effectiveness sound (crit, then super effective, then resisted), never a KO or strong-hit sound |
| Announcer.KoSound | src/subtools/explouds_announcer/inject.js:188-197 | a knock-out always requests one of the four KO sounds |
| Announcer.Diff | src/subtools/explouds_announcer/inject.js:199 | the HP difference is a number exactly when both fractions are |
| Announcer.HitSound | src/subtools/explouds_announcer/inject.js:199-214 | a surviving target gets a non-KO sound, and a strong-hit sound exactly when it is not in the red and lost more than half its HP |
| Announcer.CompleteSoundsAsWritten | src/subtools/explouds_announcer/inject.js:172-219 | as written, `completeMove` requests at most two sounds |
| Announcer.CompleteSounds | src/subtools/explouds_announcer/inject.js:172-219 | corrected: nothing without a named move; `no_effect`, else `miss`; a knock-out gives the effectiveness sound then a KO sound; no damage recorded gives no damage sound |
| Announcer.Complete | src/subtools/explouds_announcer/inject.js:172-219 | corrected: `completeMove` does nothing without a named move, otherwise resets `currentMove` to `{}` and keeps the other fields; every request is a completion sound |
| Announcer.WeatherSounds | src/subtools/explouds_announcer/inject.js:54-77 | a weather line requests at most one sound |
| Announcer.ActivateSounds | src/subtools/explouds_announcer/inject.js:85-105 | an `-activate` line requests at most one sound |
| Announcer.ParseHp | src/subtools/explouds_announcer/inject.js:146-154 | `"0"` is HP 0; any parsed HP fraction is non-negative |
| Announcer.Handle | src/subtools/explouds_announcer/inject.js:10-170 | corrected: a line whose command is not `""`, `move`, `switch`, `-damage` or `-activate` never throws |
| Announcer.StepStarts | src/subtools/explouds_announcer/inject.js:17-23 | one line requests `battle_start` at most once, only before the battle started, and marks it started |
| Announcer.NoStartSound | src/subtools/explouds_announcer/inject.js:13-169 | no line but `teampreview` or `start` requests `battle_start` or changes `battleStarted` |
| Announcer.CompletionNoStart | src/subtools/explouds_announcer/inject.js:172-219 | `completeMove` never requests `battle_start` |
| Announcer.BattleStartsOnce | src/subtools/explouds_announcer/inject.js:17-23 | over any sequence of lines `battle_start` is requested at most once, never after the battle started, and `battleStarted` stays set |
| Announcer.CompletesFirst | src/subtools/explouds_announcer/inject.js:14-42 | `""`, `move` and `switch` lines first complete the pending move; `move` then records `{name, target}` |
| Announcer.WeatherTracked | src/subtools/explouds_announcer/inject.js:50-79 | an upkeep weather line does nothing; otherwise the weather is recorded, and rain ending requests `rain_end` |
| Announcer.FlagsAreSilent | src/subtools/explouds_announcer/inject.js:46-142 | `-miss`, `-immune`, `-crit`, `-supereffective` and `-resisted` set a flag on the move and request nothing |
| Announcer.DamageRecorded | src/subtools/explouds_announcer/inject.js:143-163 | damage to the move's target records the target's HP fraction before and the parsed fraction after, `"0"` as 0 |
| Announcer.KoUnreachable | src/subtools/explouds_announcer/inject.js:179-197 | as written, no KO sound is ever requested: `hpAfter == 0` fails the truthiness guard |
| Announcer.StrongUnreachable | src/subtools/explouds_announcer/inject.js:199-209 | as written, a hit that lowered the HP never requests a strong-hit sound: `hpAfter - hpBefore` is not positive |
| Announcer.StrongHitAsWritten | src/subtools/explouds_announcer/inject.js:199-211 | as written, a hit from full HP to 0.3 is announced as a light hit |
| Announcer.KoReachable | src/subtools/explouds_announcer/inject.js:188-197 | corrected: a knock-out ends with a KO sound |
| Announcer.StrongReachable | src/subtools/explouds_announcer/inject.js:199-209 | corrected: losing more than half the HP without going red ends with a strong-hit sound |
| Announcer.CorrectionAgrees | src/subtools/explouds_announcer/inject.js:172-219 | the corrected and the written `completeMove` agree when no damage, or no prior HP, was recorded |
| Announcer.DataHandler.constructor | src/subtools/explouds_announcer/inject.js:2-8 | no move, weather `""`, battle not started, nothing requested |
| Announcer.DataHandler.Play | src/subtools/explouds_announcer/inject.js:20-38 | one request appended; the fields unchanged |
| Announcer.DataHandler.CompleteMove | src/subtools/explouds_announcer/inject.js:172-219 | corrected: the fields become `Complete`'s and its requests are appended |
| Announcer.DataHandler.HandleBattleMessage | src/subtools/explouds_announcer/inject.js:10-170 | corrected: handling a line updates the fields and appends the requests as the reference `Handle` says, and throws when it does |
| Announcer.DataHandler.Switch | src/subtools/explouds_announcer/inject.js:36-41 | a switch plays the Pokémon's sound when there is one, otherwise `switch` after turn 0; a missing parameter throws |
| Announcer.DataHandler.Weather | src/subtools/explouds_announcer/inject.js:54-78 | the weather is recorded and the start or end sound requested |
| Announcer.DataHandler.Activate | src/subtools/explouds_announcer/inject.js:84-106 | a blocking move requests `blocked`, a substitute `sub_hit` |
| Announcer.DataHandler.Damage | src/subtools/explouds_announcer/inject.js:143-163 | damage changes only the move's HP record and requests nothing |
| Announcer.DataHandler.SetFlagOrPlay | src/subtools/explouds_announcer/inject.js:43-168 | the remaining commands set their flag or request their sound as `Handle` says |
| AnnouncerSounds.MinFrom | src/subtools/explouds_announcer/content.js:41 | the `reduce` starting from `Infinity` stays `Infinity` only for an empty variant list |
| AnnouncerSounds.MinFromIsLeast | src/subtools/explouds_announcer/content.js:41 | with non-negative counts the `reduce` gives the least play count among the variants (unplayed as 0) |
| AnnouncerSounds.Candidates | src/subtools/explouds_announcer/content.js:42 | the candidates are exactly the variants played the least number of times |
| AnnouncerSounds.LeastPlayedPicked | src/subtools/explouds_announcer/content.js:40-44 | whatever the random draw, the variant played is one of the least played |
| AnnouncerSounds.SoundUrl | src/subtools/explouds_announcer/content.js:22-48 | an unknown type throws `Unknown play type`; a move or Pokémon plays `<root>moves/<name>.wav` or `<root>pokemon/<name>.wav` when listed in its asset-map list and nothing otherwise, and throws a `TypeError` when that list is missing; a sound throws exactly when the asset map has no list for it |
| AnnouncerSounds.Bump | src/subtools/explouds_announcer/content.js:60-63 | playing a URL counts it once more (from 0 when new) and changes no other count |
| AnnouncerSounds.BumpCounted | src/subtools/explouds_announcer/content.js:60-63 | play counts stay non-negative |
| AnnouncerSounds.BalanceKept | src/subtools/explouds_announcer/content.js:40-63 | playing a least-played variant keeps a sound's variants within one play of each other |
| AnnouncerSounds.SoundManager.constructor | src/subtools/explouds_announcer/content.js:14-17 | an empty queue, no counts, an idle player and nothing logged |
| AnnouncerSounds.SoundManager.PlayUrl | src/subtools/explouds_announcer/content.js:59-66 | `_play` counts the URL and starts it; the queue is unchanged |
| AnnouncerSounds.SoundManager.Play | src/subtools/explouds_announcer/content.js:18-58 | an error is logged and changes nothing else; an unlisted move or Pokémon does nothing; a URL is played at once when the player is idle and queued otherwise |
| AnnouncerSounds.SoundManager.Ended | src/subtools/explouds_announcer/content.js:69-73 | when a sound ends, the next queued URL is played, otherwise the player stays idle |
| AnnouncerSounds.CountPlay | src/subtools/explouds_announcer/content.js:60-63 | the two statements of `_play` add one play of the URL |
| AssetMaps.Mp3s | src/subtools/explouds_announcer/generateAssetMap.py:4 | exactly the files ending in `.mp3`, each at most as often as listed |
| AssetMaps.Insert | src/subtools/explouds_announcer/generateAssetMap.py:4 | inserting into a sorted list keeps it sorted and adds exactly the new name |
| AssetMaps.Sort | src/subtools/explouds_announcer/generateAssetMap.py:4 | `sorted` returns a sorted permutation |
| AssetMaps.Strip | src/subtools/explouds_announcer/generateAssetMap.py:5-6 | every `.mp3` occurrence removed, one name per name, in order |
| AssetMaps.Comprehension | src/subtools/explouds_announcer/generateAssetMap.py:4 | one key per subdirectory of `assets` |
| AssetMaps.AssetMap | src/subtools/explouds_announcer/generateAssetMap.py:4-6 | the script fails exactly when `moves` or `pokemon` is not a subdirectory |
| AssetMaps.AssetMapKeys | src/subtools/explouds_announcer/generateAssetMap.py:4-6 | the keys are exactly the subdirectories, none twice |
| AssetMaps.AssetMapList | src/subtools/explouds_announcer/generateAssetMap.py:4-6 | each list is the sorted `.mp3` files; for `moves` and `pokemon` with the extension stripped |
| AssetMaps.PlainListShape | src/subtools/explouds_announcer/generateAssetMap.py:4 | another category's list is sorted, holds only `.mp3` names, and holds every one of them |
| AssetMaps.StripName | src/subtools/explouds_announcer/generateAssetMap.py:5-6 | stripping gives back a name that did not contain `.mp3` itself |
| SpoilerGuard.LabelsDistinct | src/subtools/zoruas_spoilerguard/inject.js:13-41 | no two controls states share a label, so the wrapper's string comparisons tell them apart |
| SpoilerGuard.GetBattleControlsState | src/subtools/zoruas_spoilerguard/inject.js:13-41 | custom controls first, then seeking; before the queue end a player's live turn is `turn-in-progress` and anything else a spectator state; an ended battle is `ended` or `spectator-ended`; `player-choosing` exactly when a player sits at the queue end of a running battle |
| SpoilerGuard.SetsHiding | src/subtools/zoruas_spoilerguard/inject.js:61-64 | the four `setProperty` calls add exactly the four hiding declarations |
| SpoilerGuard.RemovesHiding | src/subtools/zoruas_spoilerguard/inject.js:77-80 | the four `removeProperty` calls remove exactly those declarations |
| SpoilerGuard.Wrapper | src/subtools/zoruas_spoilerguard/inject.js:53-85 | `turn0Ended` is set once a player is choosing after turn 0; the timer is hidden exactly during a turn in progress after that; the stand-in controls are drawn exactly when a hidden turn is watched as a spectator |
| SpoilerGuard.Steps | src/subtools/zoruas_spoilerguard/inject.js:49-85 | one step per call of the wrapper |
| SpoilerGuard.NotHiddenBeforeTurn1 | src/subtools/zoruas_spoilerguard/inject.js:56-60 | the timer is never hidden before a player has been shown a choice after turn 0 |
| SpoilerGuard.HiddenAfterTurn1 | src/subtools/zoruas_spoilerguard/inject.js:56-64 | once the flag is set, every turn in progress hides the timer |
| SpoilerGuard.TimerGuard.constructor | src/subtools/zoruas_spoilerguard/inject.js:47-52 | the flag starts false and the CSS rule and controls are as found |
| SpoilerGuard.TimerGuard.UpdateControls | src/subtools/zoruas_spoilerguard/inject.js:53-85 | one call updates the flag, adds or removes the hiding declarations, and either calls the original `updateControls` or draws the stand-in controls with `controlsShown` false |
| Mantis.Setting | src/subtools/scythers_mantis_estimation/inject.js:54-76 | `this.options?.key`: undefined without options, defined exactly when the key is present |
| Mantis.ShouldShow | src/subtools/scythers_mantis_estimation/inject.js:54-68 | a display is shown unless its setting is exactly `false`; a missing setting shows it |
| Mantis.FalsyStillShows | src/subtools/scythers_mantis_estimation/inject.js:54-68 | `null`, `0` and `""` settings still show the display |
| Mantis.RollMultiplier | src/subtools/scythers_mantis_estimation/inject.js:70-72 | the minimum roll 0.714 exactly when `min_roll` is truthy, otherwise the average 0.84 |
| Mantis.MarkedMeansMinRoll | src/subtools/scythers_mantis_estimation/inject.js:70-76 | when the value is marked as a minimum roll, the minimum roll was used |
| Mantis.TruthyMinRollUnmarked | src/subtools/scythers_mantis_estimation/inject.js:70-76 | a truthy non-`true` `min_roll` (such as 1) uses the minimum roll but is not marked |
| Mantis.PowerText | src/subtools/scythers_mantis_estimation/inject.js:741-743 | the suffix is added exactly for a marked minimum roll and a value other than `"?"` |
| Mantis.Round | src/subtools/scythers_mantis_estimation/inject.js:1077 | `Math.round` is within half of its argument, halves rounding up |
| Mantis.FormatValue | src/subtools/scythers_mantis_estimation/inject.js:1070-1079 | `"?"` exactly for a base power of 0 |
| Mantis.FormatReadsBack | src/subtools/scythers_mantis_estimation/inject.js:1070-1079 | otherwise the text parses back as the value in thousands rounded to one decimal |
| Mantis.TenthsParse | src/subtools/scythers_mantis_estimation/inject.js:1078 | `toFixed(1)` of `k/10` parses back as `k/10`, negative values included |
| Mantis.Boost | src/subtools/scythers_mantis_estimation/inject.js:770-773 | `Math.floor(x * 1.5)` |
| Mantis.ItemEffects | src/subtools/scythers_mantis_estimation/inject.js:766-776 | an Assault Vest boosts Sp. Def, an Eviolite boosts both defences of a not-fully-evolved Pokémon, any other item nothing; defences never drop |
| Mantis.CalculateBulkValues | src/subtools/scythers_mantis_estimation/inject.js:750-793 | battle stats are used when present (HP from `maxhp` when truthy), otherwise the teambuilder's; items apply; the bulks are HP times each defence |
| Mantis.StabBonus | src/subtools/scythers_mantis_estimation/inject.js:822-825 | STAB multiplies the power by 1.5 |
| Mantis.MinRollRatio | src/subtools/scythers_mantis_estimation/inject.js:70-72 | the minimum-roll power is 0.85 of the average-roll power |
| Mantis.MovePower | src/subtools/scythers_mantis_estimation/inject.js:831-870 | no data for a status move; otherwise the attack stat for the category, STAB when the type matches, the formatted estimate, `"?"` exactly for base power 0 |
| Mantis.CalculateMovePower | src/subtools/scythers_mantis_estimation/inject.js:795-829 | no power for status moves; otherwise the attack stat is Atk for physical and SpA for special moves, the base power is the move's own, STAB holds exactly when the move's type is one of the species' types, and the shown value is "?" exactly when the base power is 0 |
| Mantis.CalculateIsWithBasePower | src/subtools/scythers_mantis_estimation/inject.js:795-829 | the estimate for a move equals the explicit-base-power variant evaluated at the move's own base power |
| Mantis.PowOrder | src/subtools/scythers_mantis_estimation/inject.js:237-294 | rows that are not both moves, or with no set, species or move, compare equal |
| Mantis.ShownPower | src/subtools/scythers_mantis_estimation/inject.js:256-282 | a regular move's displayed power, in tenths |
| Mantis.PowOrderSpec | src/subtools/scythers_mantis_estimation/inject.js:237-290 | ascending sort puts regular moves before variable-power ones before status moves, and higher displayed power first |
| Mantis.PowNumeric | src/subtools/scythers_mantis_estimation/inject.js:281-289 | between two regular moves the comparator is the difference of the displayed powers |
| Mantis.PowOrderReverse | src/subtools/scythers_mantis_estimation/inject.js:236-289 | a reversed sort negates the comparator |
| Mantis.PowOrderAntisymmetric | src/subtools/scythers_mantis_estimation/inject.js:237-294 | swapping the rows negates the comparator |
| Mantis.BulkOrder | src/subtools/scythers_mantis_estimation/inject.js:311-388 | rows that are not both Pokémon compare equal |
| Mantis.ShownBulk | src/subtools/scythers_mantis_estimation/inject.js:335-378 | a Pokémon's displayed bulk, in tenths |
| Mantis.BulkOrderSpec | src/subtools/scythers_mantis_estimation/inject.js:311-388 | ascending bulk sort puts the higher displayed bulk first |
| Mantis.BulkNumeric | src/subtools/scythers_mantis_estimation/inject.js:343-385 | the comparator is the difference of the displayed bulks |
| Mantis.BulkOrderReverse | src/subtools/scythers_mantis_estimation/inject.js:310-343 | a reversed sort negates the comparator |
| Mantis.BulkOrderAntisymmetric | src/subtools/scythers_mantis_estimation/inject.js:311-346 | swapping the rows negates the comparator |
| Mantis.TooltipTarget | src/subtools/scythers_mantis_estimation/inject.js:974-1010 | a tooltip other than `switchpokemon`, `activepokemon` or `pokemon` is ignored |
| Mantis.TargetOf | src/subtools/scythers_mantis_estimation/inject.js:977-1010 | the same on the split tooltip fields |
| Mantis.ViewSideInvolutive | src/subtools/scythers_mantis_estimation/inject.js:995 | flipping the viewpoint twice gives the side back |
| Mantis.ActiveMatchesTeam | src/subtools/scythers_mantis_estimation/inject.js:985-1007 | in a two-sided battle seen from the player's side, an active tooltip finds the same Pokémon as the team tooltip |
| Mantis.MultiBattleShift | src/subtools/scythers_mantis_estimation/inject.js:989-998 | with more than two sides an active slot from 1 up refers to the Pokémon one index lower |
| Mantis.TooltipFields | src/subtools/scythers_mantis_estimation/inject.js:974-977 | the tooltip string splits on the bar character into its kind and two indices |
| Seqs.Dedup | src/subtools/scythers_mantis_estimation/modifierTracker.js:23-24 | the de-duplicated list has no repeats and exactly the original's elements |
| Seqs.DedupFirstOrder | src/subtools/scythers_mantis_estimation/modifierTracker.js:23-24 | a `Set` keeps elements in order of first insertion |
| Seqs.DedupOfDistinct | src/subtools/scythers_mantis_estimation/modifierTracker.js:23-24 | a list without repeats is kept as it is |
| Seqs.DedupIdempotent | src/subtools/scythers_mantis_estimation/modifierTracker.js:23-24 | de-duplicating twice is de-duplicating once |
| ModifierTracking.ModifierTracker.constructor | src/subtools/scythers_mantis_estimation/modifierTracker.js:5-9 | no modifiers, no last calculation, no last defence |
| ModifierTracking.ModifierTracker.StartTracking | src/subtools/scythers_mantis_estimation/modifierTracker.js:11-14 | the modifier list and the last defence are cleared; the last calculation is kept |
| ModifierTracking.ModifierTracker.AddModifier | src/subtools/scythers_mantis_estimation/modifierTracker.js:16-19 | the modifier is appended and nothing else changes |
| ModifierTracking.ModifierTracker.FinishTracking | src/subtools/scythers_mantis_estimation/modifierTracker.js:21-29 | the result is the collected modifiers without duplicates, in first-seen order; it becomes the last calculation and the list is emptied |
| ModifierTracking.ModifierTracker.Calculate | src/subtools/scythers_mantis_estimation/modifierTracker.js:36-44 | the proxied `calculate` reports exactly the de-duplicated modifiers of the run, and the tracker ends empty |
| Jukebox.TrackFor | src/subtools/primarinas_jukebox/inject.js:171-185 | corrected: a special number with its track gets it; 1 to `normal.length` select `normal[n-1]`; everything else the default |
| Jukebox.RollNumber | src/subtools/primarinas_jukebox/inject.js:194-196 | the rolled number lies in 1..`normal.length` |
| Jukebox.SelectionsAgree | src/subtools/primarinas_jukebox/inject.js:180-185 | the written and the corrected selection differ only at `normal.length` |
| Jukebox.LastTrackNeverRolledAsWritten | src/subtools/primarinas_jukebox/inject.js:180-196 | as written, no battle id rolls the last `normal` track |
| Jukebox.TopRollIsDefaultAsWritten | src/subtools/primarinas_jukebox/inject.js:180-196 | as written, battle id 5 rolls `normal.length` and gets the default track |
| Jukebox.RollPlaysIdModLength | src/subtools/primarinas_jukebox/inject.js:194-196 | corrected: a roll plays `normal[numericId % normal.length]`, so every track is reachable |
| Jukebox.Scene.constructor | src/subtools/primarinas_jukebox/inject.js:163-165 | a scene with its music number and battle id, no track loaded and no update yet |
| Jukebox.Scene.SetBgm | src/subtools/primarinas_jukebox/inject.js:163-192 | corrected: the same number is a no-op; otherwise the number is recorded, its track loaded and `updateBgm` called once |
| Jukebox.Scene.RollBgm | src/subtools/primarinas_jukebox/inject.js:194-196 | corrected: a roll sets the rolled number, and plays `normal[numericId % normal.length]` when it changes |
| DisconnectWatcher.Delay | src/subtools/sigilyphs_disconnect_watcher/inject.js:73-74 | a falsy timeout defaults to `pollingInterval` seconds |
| DisconnectWatcher.Step | src/subtools/sigilyphs_disconnect_watcher/inject.js:58-97 | start, stop and a received message clear `pingSent`; a fire while logged in sends a ping and re-arms with `timeoutDuration` when none is outstanding, and reports a disconnect without re-arming otherwise; a fire while logged out or a stop leaves no timer |
| DisconnectWatcher.PingSentIffLastFired | src/subtools/sigilyphs_disconnect_watcher/inject.js:58-94 | after any events, a ping is outstanding exactly when the last event was a logged-in fire |
| DisconnectWatcher.ReportIffTwoFires | src/subtools/sigilyphs_disconnect_watcher/inject.js:84-94 | a disconnect is reported exactly on the second consecutive fire with no message between |
| DisconnectWatcher.AlwaysArmed | src/subtools/sigilyphs_disconnect_watcher/inject.js:58-89 | while logged in and never silent for two fires, a timer stays armed |
| DisconnectWatcher.OwnPingHidden | src/subtools/sigilyphs_disconnect_watcher/inject.js:15-26 | the echo of the watcher's own ping is hidden |
| DisconnectWatcher.OtherPMShown | src/subtools/sigilyphs_disconnect_watcher/inject.js:22-28 | every other PM reaches the original `addPM` |
| DisconnectWatcher.Watcher.constructor | src/subtools/sigilyphs_disconnect_watcher/inject.js:43-47 | the watcher starts at once when already logged in |
| DisconnectWatcher.Watcher.ListenForPong | src/subtools/sigilyphs_disconnect_watcher/inject.js:73-76 | the previous timer is cancelled and one is armed with the delay |
| DisconnectWatcher.Watcher.StartWatcher | src/subtools/sigilyphs_disconnect_watcher/inject.js:58-61 | the start transition |
| DisconnectWatcher.Watcher.StopWatcher | src/subtools/sigilyphs_disconnect_watcher/inject.js:63-66 | the stop transition |
| DisconnectWatcher.Watcher.RegisterPong | src/subtools/sigilyphs_disconnect_watcher/inject.js:68-71 | the receive transition: re-armed only when logged in |
| DisconnectWatcher.Watcher.Fire | src/subtools/sigilyphs_disconnect_watcher/inject.js:76-96 | the fire transition, sending `/pm <user>, GUZZTOOL_SIGILYPH_PING` or showing the disconnect popup as it says |
| EloHider.MentionsRating | src/subtools/pikachus_elo_hider/inject.js:12 | the unanchored `/'s rating: \d+/` matches exactly when some position starts `'s rating: ` and a digit |
| EloHider.OnlyRawSuppressed | src/subtools/pikachus_elo_hider/inject.js:12 | a command other than `raw` is never suppressed, whatever its text |
| EloHider.RatingLineSuppressed | src/subtools/pikachus_elo_hider/inject.js:12-14 | a `raw` rating announcement is suppressed |
| EloHider.WrappedLog.constructor | src/subtools/pikachus_elo_hider/inject.js:8-10 | nothing reached the original `add` yet |
| EloHider.WrappedLog.Add | src/subtools/pikachus_elo_hider/inject.js:10-17 | a suppressed entry does not reach the original `add`; every other entry reaches it unchanged |
| EloHider.SidebarTitles | src/subtools/pikachus_elo_hider/inject.js:20-29 | without `hideTooltip` the titles are as drawn; with it every trainer sprite's title is replaced |
| ServiceWorker.StoredProps | src/serviceWorker.target.js:10-16 | missing or falsy stored options count as `{}`; a stored object contributes exactly its own entries |
| ServiceWorker.OnInstalled | src/serviceWorker.target.js:7-18 | installation replaces `options` by the defaults with the stored options assigned over them, and leaves every other storage key as it was |
| ServiceWorker.PutAllUniform | src/serviceWorker.target.js:11-15 | the defaults object carries `{enabled: false}` under every subtool id |
| ServiceWorker.MergedKeys | src/serviceWorker.target.js:11-16 | the merged options have a key exactly for every subtool and every stored key, none twice |
| ServiceWorker.StoredEntryKept | src/serviceWorker.target.js:11-16 | a stored entry wins over the default, whether or not it belongs to a subtool |
| ServiceWorker.NewSubtoolDisabled | src/serviceWorker.target.js:11-16 | a subtool without a stored entry gets `{enabled: false}` |
| ServiceWorker.MissingOptionsAllDisabled | src/serviceWorker.target.js:10-16 | without stored options every subtool starts disabled |
| ServiceWorker.FetchBody | src/serviceWorker.target.js:47-56 | the body is the one fetched from `data.url`, read as JSON exactly when `mode` is `'json'`, as text for `'text'` and every other mode |
| ServiceWorker.SendAlwaysOverflowsAsWritten | src/serviceWorker.target.js:39-42 | as written, the logging wrapper calls itself, so every response ends in a stack overflow |
| ServiceWorker.FetchNeverAnsweredAsWritten | src/serviceWorker.target.js:35-58 | as written, a well-formed fetch request for the service worker throws instead of being answered |
| ServiceWorker.HandleMessageSpec | src/serviceWorker.target.js:35-58 | a request for another target returns `false` (and only those do); a fetch is answered once with the body in the requested mode; any other type finishes without a response |
| ServiceWorker.HandlersAgreeOffFetch | src/serviceWorker.target.js:35-46 | the written and the corrected handler behave alike on every request that is not a fetch with data |
| Sticker.CanvasSide | src/util/stickerify.js:3-17 | the margin is 240 pixels and the canvas 2240 pixels square, leaving four stroke thicknesses on each side of a full-size image |
| Sticker.ScaleFactor | src/util/stickerify.js:9 | the scale is the smaller of the two ratios to 2000, hence positive and at most either |
| Sticker.PlaceFitsAndCentres | src/util/stickerify.js:9-24 | the scaled image keeps its proportions, fits 2000×2000 and fills one side, and is centred with at least 120 pixels on every side |
| Sticker.OutlinedSpec | src/util/stickerify.js:29-36 | the outline changes only alpha bytes: transparent stays transparent, any other alpha becomes 255 |
| Sticker.OutlinedIdempotent | src/util/stickerify.js:29-36 | outlining an outlined buffer changes nothing |
| Sticker.AlphaPassAsWritten | src/util/stickerify.js:31-36 | the loop as written, starting at `length` and stopping before 0, outlines every pixel but the first |
| Sticker.FirstPixelMissedAsWritten | src/util/stickerify.js:32 | as written, a partly transparent first pixel stays so; `[0, 0, 0, 1]` is left unchanged |
| Sticker.AsWrittenAgreesElsewhere | src/util/stickerify.js:32-35 | apart from byte 3 the written loop and the outline agree |
| Sticker.AlphaPass | src/util/stickerify.js:29-36 | corrected: the pass leaves the buffer outlined |
| Build.OutputNameOfTarget | webpack.config.mjs:42-43 | `./src/x.target.js` is built under the name `./x` |
| Build.OutputNameIgnoresCase | webpack.config.mjs:43 | the `.target.js` suffix is recognised in any letter case |
| Build.OutputNameKeepsOthers | webpack.config.mjs:43 | a name with neither the suffix nor the `./src/` prefix is kept as it is |
| Build.SubtoolKeys | webpack.config.mjs:62-86 | the subtool keys are exactly the subtool folders plus `_guzztool` |
| Build.Without | webpack.config.mjs:87 | the difference keeps exactly the values of the first list absent from the second |
| Build.Xor | webpack.config.mjs:87 | the symmetric difference lists no value twice |
| Build.XorEmpty | webpack.config.mjs:87 | the symmetric difference is empty exactly when both lists hold the same values |
| Build.CheckSubtoolOrderSpec | webpack.config.mjs:87-88 | the build goes on exactly when `subtool_order.json` lists every subtool folder and `_guzztool` and nothing else; otherwise it throws |
| Build.HasSlashLib | webpack.config.mjs:152 | true exactly when some position holds `/lib/`, in any letter case |
| Build.InLibFolder | webpack.config.mjs:152 | the case-insensitive `lib/` test matches exactly when the path starts with `lib/` or some `/lib/` occurs, in any letter case |
| Build.Basename | webpack.config.mjs:155 | the base name is the last path segment: a suffix of the path with no `/`, preceded by `/` or the start |
| Build.StripDotSlash | webpack.config.mjs:154 | a leading `./` is dropped and nothing else changes |
| Build.NotStatic | webpack.config.mjs:150-156 | the manifest, a script outside any `lib/` folder, a template, an entry point and `.DS_Store` are not static |
| Build.TargetEntryNotStatic | webpack.config.mjs:150-156 | a `*.target.js` entry point is never copied as a static file |
| Build.LibScriptStatic | webpack.config.mjs:152 | a script in a `lib/` folder that is not an entry point is static |
| Build.LibScriptShape | webpack.config.mjs:152 | a `lib/` script is in a lib folder, a script, and its base name is its file name |
| Build.BasenameOfName | webpack.config.mjs:155 | the base name of a path ending in `/name` is `name` |
| Build.EntryFiles | webpack.config.mjs:154 | `Object.values(entry).flat()` holds exactly the files of every entry |
| Build.TargetEntry | webpack.config.mjs:40-44 | one entry per target file |
| Build.TargetScriptsOfTargets | webpack.config.mjs:192-195 | the target scripts are the target files' names with `.js`, in order |
| Build.TargetScriptsEach | webpack.config.mjs:192-195 | each entry contributes exactly its own script |
| Build.ScriptOfTarget | webpack.config.mjs:192-195 | `./src/x.target.js` contributes the web-accessible script `x.js` |
| Build.StaticFiles | webpack.config.mjs:187-188 | exactly the files under `src` that are static |
| Build.WebAccessibleResources | webpack.config.mjs:186-195 | every static file, every source map and every built target script is web-accessible, and nothing beyond those |
| Build.SelectTargets | webpack.config.mjs:307-316 | every selected target is a known build target |
| Build.SelectTargetsSpec | webpack.config.mjs:307-316 | an unset or `*` target builds both, a known one builds itself alone, and anything else throws |
| Manifest.ExpandAppend | webpack.config.mjs:181-200 | `flatMap` distributes over concatenation |
| Manifest.ExpandPlain | webpack.config.mjs:181-200 | a list without the placeholder is unchanged |
| Manifest.ExpandInPlace | webpack.config.mjs:181-200 | the placeholder is replaced in place by the whole replacement list |
| Json.Strs | webpack.config.mjs:181 | the strings as JSON strings, one for one |
| Manifest.Concat | webpack.config.mjs:177 | the flattened match lists hold exactly the patterns of some subtool |
| Manifest.GatheredMatches | webpack.config.mjs:177 | the gathered patterns are every subtool's patterns, each once |
| Manifest.FillField | webpack.config.mjs:181-200 | the field is rewritten exactly when it is an array, and then holds the expansion |
| Manifest.FillFieldOther | webpack.config.mjs:181-200 | no other field of the entry changes |
| Manifest.FillEach | webpack.config.mjs:180-199 | every entry is rewritten, none added or lost |
| Manifest.FillSegment | webpack.config.mjs:180-182 | an array segment keeps its number of entries |
| Manifest.FillKey | webpack.config.mjs:178-184 | a missing or falsy segment is skipped; the rewrite fails exactly when a present segment's entries fail |
| Manifest.FillKeyGet | webpack.config.mjs:178-184 | only the segment's own key changes |
| Manifest.FillSegmentsNext | webpack.config.mjs:178 | the segments are filled one after another |
| Manifest.FillSegmentsOther | webpack.config.mjs:178-184 | keys outside the three segments keep their values |
| Manifest.FillSegmentsFailed | webpack.config.mjs:178-184 | once a segment throws, the whole rewrite throws |
| Manifest.SegmentsInOrder | webpack.config.mjs:178 | `content_scripts`, then `web_accessible_resources`, then `externally_connectable` |
| Manifest.OneEntrySegment | webpack.config.mjs:180 | a one-entry segment is rewritten as its entry |
| Manifest.ContentScriptMatches | webpack.config.mjs:176-184 | a content script whose `matches` hold `<MATCHES>` gets the gathered patterns in its place, the rest kept |
| Manifest.ResourcesFilled | webpack.config.mjs:199-201 | a missing `web_accessible_resources` throws; the rewrite succeeds exactly when every entry's `resources` is an array (or the value is the empty string) |
| Manifest.ResourcesFilledGet | webpack.config.mjs:199-201 | only `web_accessible_resources` changes, to the entries with the resources filled in |
| Manifest.SetOrOmit | webpack.config.mjs:172-174 | the key is set to the value, or absent when the value is `undefined`; no other key changes |
| Manifest.WithPackageFields | webpack.config.mjs:172-174 | `version`, `description` and `homepage_url` come from the package; nothing else changes |
| Manifest.ForChrome | webpack.config.mjs:203-208 | Manifest V3, without `browser_specific_settings`, nothing else changed |
| Manifest.WorkerAsScripts | webpack.config.mjs:214-217 | the service worker becomes the only background script |
| Manifest.ConvertBackgroundGet | webpack.config.mjs:213-217 | only `background` changes |
| Manifest.Remove | webpack.config.mjs:221 | exactly the permissions other than `offscreen` are kept |
| Manifest.DropOffscreen | webpack.config.mjs:221 | throws exactly when truthy permissions are not an array |
| Manifest.DropOffscreenGet | webpack.config.mjs:221 | only `permissions` changes, losing `offscreen` |
| Manifest.ResourcesOf | webpack.config.mjs:224 | flattening throws exactly when some entry is `null` |
| Manifest.ResourcesOfAppend | webpack.config.mjs:224 | flattening distributes over concatenation |
| Manifest.ResourcesOfOne | webpack.config.mjs:224 | an entry contributes its `resources` |
| Manifest.FlattenResources | webpack.config.mjs:224 | succeeds exactly when the resources are an array of non-null entries |
| Manifest.FlattenResourcesGet | webpack.config.mjs:224 | only `web_accessible_resources` changes, to the flattened list |
| Manifest.MoveHostPermissionsGet | webpack.config.mjs:227-230 | truthy host permissions are appended to `permissions` and removed; otherwise nothing changes |
| Manifest.FirefoxBaseGet | webpack.config.mjs:209-220 | Manifest V2, no `externally_connectable`, the worker as a background script |
| Manifest.ForFirefox | webpack.config.mjs:209-231 | the Firefox rewrite throws exactly when the permissions or the resources are malformed |
| Manifest.FirefoxGet | webpack.config.mjs:209-231 | every key of the Firefox manifest: V2, no `externally_connectable`, background scripts, merged permissions, flat resources, the rest kept |
| Manifest.FirefoxDropsOffscreen | webpack.config.mjs:221-230 | the Firefox manifest does not request `offscreen` unless a host permission names it |
| Manifest.ManifestBuilder.constructor | webpack.config.mjs:169 | the parsed manifest |
| Manifest.ManifestBuilder.SetPackageFields | webpack.config.mjs:171-174 | the manifest after setting the package fields |
| Manifest.ManifestBuilder.AutofillMatches | webpack.config.mjs:176-184 | the manifest after the `<MATCHES>` loop, or the failure when it throws |
| Manifest.ManifestBuilder.FillSegmentKey | webpack.config.mjs:179-183 | one pass of the segments loop: a missing or falsy segment is skipped, otherwise the `matches` of the segment (or of each of its entries) are filled, failing exactly when one of them throws |
| Manifest.ManifestBuilder.AutofillResources | webpack.config.mjs:198-201 | the manifest after the resources loop, or the failure when it throws |
| Manifest.ManifestBuilder.TargetChrome | webpack.config.mjs:203-208 | the Chrome shape |
| Manifest.ManifestBuilder.TargetFirefox | webpack.config.mjs:209-231 | the Firefox shape, or the failure when it throws |
| Manifest.ManifestBuilder.Transform | webpack.config.mjs:168-233 | the whole rewrite for a build target, failing exactly when one of its steps throws |
| Manifest.ManifestBuilder.FillEntries | webpack.config.mjs:180-201 | the loop over a segment's entries fills every entry, or fails at the first that throws |
| Icon.FIsIdentity | icon_generator.py:11-31 | the output size equals the design size, so `F` changes no length and `unF` undoes `F` |
| Icon.ScaleRoundTrip | icon_generator.py:26-31 | at any non-zero output size, `unF(F(s)) == s` |
| Icon.Multiples | icon_generator.py:47 | `range(0, 360, step)` as the first `n` multiples of the step |
| Icon.NonCardinalIn | icon_generator.py:47-50 | an angle is drawn exactly when it is listed and not a multiple of 90 |
| Icon.WedgeAngles | icon_generator.py:47-50 | the wedges sit exactly at the multiples of 30 below 360 that are not cardinal |
| Icon.NonCardinalCount | icon_generator.py:47-50 | among the first `n` multiples of 30, `n - (n + 2) / 3` are not cardinal |
| Icon.WedgeCount | icon_generator.py:43-50 | there are eight wedges |
| Icon.EighthAngles | icon_generator.py:206-209 | the teardrops and spikes sit at the eight multiples of 45, the last four (180 and beyond) mirrored |
| Icon.Donut | icon_generator.py:73-74 | a donut is an unfilled circle stroked in its colour |
| Icon.DonutCoversRing | icon_generator.py:73-74 | its stroke covers exactly the ring between the inner and the outer radius |
| Icon.DonutSizes | icon_generator.py:77-85 | the bullseye, yellow donut, white donut and background disc are nested without overlapping; the white donut is stroked at radius 337.5 and the yellow at 187.5, both 75 wide |
| Icon.WedgeReachesUnderDonut | icon_generator.py:60 | a wedge is 85 long and its inner end lies under the white donut, between its inner and outer edge |
| Icon.SeparatorsCutDonut | icon_generator.py:88-95 | each separator reaches 255 from the centre, past the yellow donut's outer edge and short of the white donut, and is as wide as the gap |
| Icon.Spike | icon_generator.py:127-203 | a spike is its four parts, wings, thin half, fat half and nub, in that order and colours |
| Icon.SpikesAt | icon_generator.py:206-209 | the spike parts, four per angle, each with its angle and mirroring |
| Icon.IconLayers | icon_generator.py:34-212 | the icon has 56 elements: the background first, eight wedges, the white then the yellow donut, and 32 spike parts last |
| Icon.WedgesAt | icon_generator.py:46-68 | one wedge per angle, in order |
| Icon.WedgesUpToAll | icon_generator.py:47-50 | the loop over the twelve steps draws exactly the wedges |
| Icon.TeardropStep | icon_generator.py:120-121 | each teardrop loop step appends one teardrop at its angle, 85 above the centre |
| Icon.SpikeStep | icon_generator.py:206-209 | each spike loop step appends the spike at its angle |
| Icon.Svg.constructor | icon_generator.py:34-212 | the generated SVG is 1000×1000 with the viewBox `50 50 900 900` and holds exactly the layers in order |
| Icon.Svg.DrawRadialLines | icon_generator.py:46-68 | appends the eight wedges |
| Icon.Svg.DrawDonut | icon_generator.py:73-74 | appends one donut |
| Icon.Svg.DrawSeparators | icon_generator.py:88-95 | appends the separators at 0, 45 and 135 degrees |
| Icon.Svg.DrawTeardrops | icon_generator.py:106-121 | appends the eight teardrops |
| Icon.Svg.DrawSpike | icon_generator.py:127-203 | appends one spike's four parts |
| Icon.Svg.DrawSpikes | icon_generator.py:206-209 | appends the eight spikes |

## Left out

- The DOM and the UI: the options page, the Mantis display and tooltip builders, the lucky button's injection, the Elo hider's jQuery edits, canvas drawing, blurring and shadows in the sticker effect, and the jukebox options page. The Elo hider's sidebar wrapping is kept only as the title it leaves on each sprite.
- Extension and network I/O: the browser and window message channels, `fetch`, storage, the offscreen document, and the content script's webext bridge. Stored data and fetched bodies are parameters. The `awaitReply` promise and its timeout in both messaging files are not modelled.
- Timers and concurrency: `setTimeout`/`clearTimeout` become explicit `Fire` events and an armed-timer field. The announcer's `isInit` timer is not modelled.
- Randomness: `Math.random`, `crypto.randomUUID` and the data ids are parameters.
- Floating point: IEEE rounding, `toFixed` and the power multipliers are modelled over reals and integers; `formatValue` is modelled on an integer count of tenths. NaN is `None`.
- The icon's trigonometry, SVG path strings and number formatting, and the PNG export with `cairosvg`.
- Serialisation and the file system: `JSON.stringify`, `encodeURI`, path normalisation, globbing and directory reading. Listings are parameters and paths are compared as strings after dropping a leading `./`.
- The damage calculator's logging loader and plugin, the linter plugin, `log.js`, the injected-script loaders, the lucky button's `main.js`, Meowth's text-to-speech subtool, and the `Proxy`/`Reflect` machinery itself (only the handler bookkeeping is modelled).
- The commented-out preset-query code in `ShowdownAPI.js` and in the lucky button.
- JavaScript's ordering of integer-like keys before other keys in `Object.keys` is not modelled; objects keep insertion order.
- `Messaging.TARGETS` is undefined in `messaging_test.mjs`, so its own target resolution in `postMessage` is not modelled; the router takes the resolved target list as its input. `REACHABLE[...]` is an object there, yet `.includes` is called on it; the router reads it as membership among its keys, with the `other` row as the fallback. The `forwarders[null]` key becomes `"null"`, which makes the direct-send branch unreachable; the router treats the `null` bucket as the direct send it was meant to be.
- `SUBTOOLS` is a list of subtool records in the service worker's merge, as `reduce` requires.
- The jukebox's `getSound`/`isValidUrl` URL handling and the loading of audio (`BattleSound.loadBgm`) are not modelled; the scene records which track it loaded.
- Dex lookups, the calculator's stats and the extension options read by Mantis are parameters.
- Util.MergeValue: when the target holds an array and the source a plain object, the source recurses and puts the object's keys on the array as properties (a key such as `"0"` overwriting an element); arrays with named properties are not Json values here, so the model keeps the array unchanged.
- Sticker.ScaleFactor: requires a positive width and height; a zero-sized image, where the source divides by zero, is not modelled.
- Announcer.Handle: states only that the lines it does not inspect never throw; the other lines are stated by the lemmas about it. Its `""`, `move` and `switch` lines run the corrected `completeMove` (a KO sound when the target is knocked out, a strong hit for `hpBefore - hpAfter > 0.5`), not the one at inject.js:179 and :199; the as-written behaviour is `Announcer.CompleteSoundsAsWritten`, see "## Findings".
- Announcer.Complete: follows the corrected sounds of "## Findings", not inject.js:179 and :199 as written.
- Announcer.DataHandler.CompleteMove: runs the corrected `Complete`, so a KO and a strong hit request other sounds than the source as written.
- Announcer.DataHandler.HandleBattleMessage: runs the corrected `Handle`, with the same difference for KOs and strong hits.
- Jukebox.Scene.SetBgm: loads the corrected track `NORMAL[bgmNum - 1]` for every number up to the track count; as written, the last number falls back to `normal[0]` (see "## Findings", `Jukebox.TrackForAsWritten`).
- Router.GroupTargets: routes with the corrected `Classify`, so a background target `web-<tab>` is grouped under the forwarder `contentScript-<tab>`; as written (messaging_test.mjs:358) it is grouped under `contentScript-undefined` (see "## Findings", `Router.BackgroundToWebAsWritten`).
- Router.GroupedRoutes: states the partition for the corrected routes; the as-written table differs only in the background-to-web forwarder key, `contentScript-undefined`.
- Router.SplitMessage: its sub-messages for background-to-web targets go to the target's content script; as written they all go to `contentScript-undefined` (see "## Findings", `Router.BackgroundToWebAsWritten`).
- Jukebox.Scene.RollBgm: plays the corrected track, so a battle id whose remainder is the last index plays the last track rather than `normal[0]`.

## Findings

| source | as written | input that shows it | evidently intended | confidence | as-written member | corrected member |
|---|---|---|---|---|---|---|
| src/subtools/primarinas_jukebox/inject.js:180 | `bgmNum < normal.length` selects `normal[bgmNum - 1]`, so `bgmNum == normal.length` falls back to the default track | with six normal tracks, `rollBgm` for battle id 5 gives 6 and plays `normal[0]`; `normal[5]` is never played | `bgmNum <= normal.length`: every track reachable | not executed | Jukebox.LastTrackNeverRolledAsWritten | Jukebox.RollPlaysIdModLength |
| src/subtools/explouds_announcer/inject.js:179 | the damage branch requires a truthy `hpAfter`, so the KO branch at line 188 (`hpAfter == 0`) never runs | a move that knocks its target out (`hpAfter` 0) plays no KO sound | a KO sound whenever the target faints | not executed | Announcer.KoUnreachable | Announcer.KoReachable |
| src/subtools/explouds_announcer/inject.js:199 | `damage = hpAfter - hpBefore` is negative for a hit, so `damage > 0.5` never holds | Tackle taking the target from 1.0 to 0.3 plays `attack_lighthit` | `hpBefore - hpAfter`: a strong hit for more than half the HP | not executed | Announcer.StrongHitAsWritten | Announcer.StrongReachable |
| src/util/stickerify.js:32 | the loop starts at `i = length` and stops before 0, so the alpha byte at index 3 is never visited | the one-pixel buffer `[0, 0, 0, 1]` stays as it is | start at `length - 4` and run down to 0 | not executed | Sticker.FirstPixelMissedAsWritten | Sticker.AlphaPass |
| src/serviceWorker.target.js:39-42 | the logging wrapper assigned to `sendResponse` calls `sendResponse`, i.e. itself | any fetch request for the service worker ends in a stack overflow and is never answered | call the original `sendResponse` | not executed | ServiceWorker.FetchNeverAnsweredAsWritten | ServiceWorker.HandleMessageSpec |
| messaging_test.mjs:357-358 | background-to-web forwards to `contentScript-${sourceTabId}`, and a background sender has no tab id | a background message for `web-7` is forwarded to `contentScript-undefined` | forward to the target's content script, `contentScript-7` | not executed | Router.BackgroundToWebAsWritten | Router.BackgroundToWeb |
