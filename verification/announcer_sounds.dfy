/** The playing side of Exploud's announcer (`src/subtools/explouds_announcer/content.js`).

    The content script owns one audio element. A play request becomes an asset URL. The URL
    plays at once when the audio element is paused or has ended, and otherwise waits in a
    queue that the element's `ended` event drains one URL at a time. A generic sound has
    several recorded variants, and the least-played one is chosen. `soundsPlayed` counts how
    often each URL has started playing. The `Math.random()` draw is a parameter. */
module AnnouncerSounds {
  import opened Wrappers
  import opened Dicts
  import Util

  /** `soundsPlayed[key] || 0`. */
  function Count(counts: Dict<int>, key: string): int {
    Get(counts, key).GetOr(0)
  }

  /** `all.reduce((x, y) => Math.min(x, soundsPlayed[url + y]) || 0, Infinity)` from the
      accumulator `acc` (`None` is `Infinity`). An unplayed variant reads as `undefined`, so
      `Math.min` gives NaN and `|| 0` turns it into 0. */
  function MinFrom(acc: Option<int>, all: seq<string>, url: string, counts: Dict<int>): (m: Option<int>)
    ensures m.None? <==> acc.None? && all == []
    decreases |all|
  {
    if all == [] then acc
    else
      var c := Get(counts, url + all[0]);
      var next: int := if c.None? then 0
                  else if acc.None? then c.value
                  else if acc.value <= c.value then acc.value else c.value;
      MinFrom(Some(next), all[1..], url, counts)
  }

  /** Play counts are never negative: they start at 0 and only go up. */
  ghost predicate Counted(counts: Dict<int>) {
    forall k :: Count(counts, k) >= 0
  }

  /** `minTimesPlayed`: `Infinity` (`None`) only for an empty variant list. */
  function MinPlayed(all: seq<string>, url: string, counts: Dict<int>): Option<int> {
    MinFrom(None, all, url, counts)
  }

  /** The reduction is the least play count over the variants, an unplayed one counting 0. */
  lemma {:induction false} MinFromIsLeast(acc: Option<int>, all: seq<string>, url: string, counts: Dict<int>)
    requires all != [] && Counted(counts) && (acc.Some? ==> acc.value >= 0)
    ensures var m := MinFrom(acc, all, url, counts);
      && m.Some?
      && (forall x :: x in all ==> m.value <= Count(counts, url + x))
      && (acc.Some? ==> m.value <= acc.value)
      && ((acc.Some? && m.value == acc.value) || exists x :: x in all && m.value == Count(counts, url + x))
    decreases |all|
  {
    var c := Get(counts, url + all[0]);
    var next: int := if c.None? then 0
                else if acc.None? then c.value
                else if acc.value <= c.value then acc.value else c.value;
    assert Count(counts, url + all[0]) == if c.None? then 0 else c.value;
    assert next <= Count(counts, url + all[0]);
    if all[1..] != [] {
      MinFromIsLeast(Some(next), all[1..], url, counts);
      var m := MinFrom(acc, all, url, counts);
      forall x | x in all ensures m.value <= Count(counts, url + x) {
        if x != all[0] {
          assert x in all[1..];
        }
      }
      if m.value != next {
        var x :| x in all[1..] && m.value == Count(counts, url + x);
        assert x in all;
      } else if next != Count(counts, url + all[0]) {
        assert acc.Some? && next == acc.value;
      }
    } else {
      assert all == [all[0]];
    }
  }

  /** `all.filter(x => (soundsPlayed[url + x] || 0) == minTimesPlayed)`. */
  function Candidates(all: seq<string>, url: string, counts: Dict<int>, min: Option<int>): (cs: seq<string>)
    ensures forall x :: x in cs <==> x in all && Some(Count(counts, url + x)) == min
  {
    if all == [] then []
    else (if Some(Count(counts, url + all[0])) == min then [all[0]] else [])
         + Candidates(all[1..], url, counts, min)
  }

  /** `candidates[Math.floor(Math.random() * candidates.length)]`, the string `"undefined"`
      when that index holds nothing. */
  function PickVariant(cs: seq<string>, r: real): string {
    var k := Util.Scale(r, |cs| as real).Floor;
    if 0 <= k < |cs| then cs[k] else "undefined"
  }

  /** The variant a generic sound plays: one of the variants, and one played least so far. */
  lemma {:induction false} LeastPlayedPicked(all: seq<string>, url: string, counts: Dict<int>, r: real)
    requires all != [] && Counted(counts) && 0.0 <= r < 1.0
    ensures var v := PickVariant(Candidates(all, url, counts, MinPlayed(all, url, counts)), r);
      && v in all
      && forall x :: x in all ==> Count(counts, url + v) <= Count(counts, url + x)
  {
    var m := MinPlayed(all, url, counts);
    MinFromIsLeast(None, all, url, counts);
    var x :| x in all && m.value == Count(counts, url + x);
    var cs := Candidates(all, url, counts, m);
    assert x in cs;
    Util.ScaledBelow(r, |cs| as real);
    var k := Util.Scale(r, |cs| as real).Floor;
    assert 0 <= k < |cs|;
    assert cs[k] in cs;
  }

  /** `subtools/${id}/assets/`. */
  function AssetRoot(id: string): string {
    "subtools/" + id + "/assets/"
  }

  /** The URL `play(name, type)` settles on. `Ok(None)` is the early return for a move or
      Pokémon without a recording. `Err` is an exception, which `play` catches and logs: an
      asset-map entry that is missing, or an unknown type.

      A move or Pokémon recording is looked for as `<name>.wav`, while the asset map's
      `moves` and `pokemon` lists are built from the `.mp3` files (see `AssetMaps`), so a
      listed name points at a `.wav` file the map generator never saw; the URL is modelled
      as the code builds it. */
  function SoundUrl(assetMap: Dict<seq<string>>, id: string, counts: Dict<int>,
                    name: string, kind: string, r: real): (u: Result<Option<string>>)
    ensures kind !in {"move", "pokemon", "sound"} ==> u == Err("Unknown play type " + kind)
    ensures kind == "move" && Get(assetMap, "moves").Some? ==>
      u == if name in Get(assetMap, "moves").value then Ok(Some(AssetRoot(id) + "moves/" + name + ".wav")) else Ok(None)
    ensures kind == "move" && Get(assetMap, "moves").None? ==> u == Err("TypeError: assetMap.moves is undefined")
    ensures kind == "pokemon" && Get(assetMap, "pokemon").Some? ==>
      u == if name in Get(assetMap, "pokemon").value then Ok(Some(AssetRoot(id) + "pokemon/" + name + ".wav")) else Ok(None)
    ensures kind == "pokemon" && Get(assetMap, "pokemon").None? ==> u == Err("TypeError: assetMap.pokemon is undefined")
    ensures kind == "sound" ==> (u.Err? <==> Get(assetMap, name).None?)
    ensures kind == "sound" && Get(assetMap, name).None? ==> u == Err("TypeError: all is undefined")
  {
    var url := AssetRoot(id);
    if kind == "move" then
      match Get(assetMap, "moves")
      case None => Err("TypeError: assetMap.moves is undefined")
      case Some(moves) => if name !in moves then Ok(None) else Ok(Some(url + "moves/" + name + ".wav"))
    else if kind == "pokemon" then
      match Get(assetMap, "pokemon")
      case None => Err("TypeError: assetMap.pokemon is undefined")
      case Some(pokemon) => if name !in pokemon then Ok(None) else Ok(Some(url + "pokemon/" + name + ".wav"))
    else if kind == "sound" then
      var url := url + name + "/";
      match Get(assetMap, name)
      case None => Err("TypeError: all is undefined")
      case Some(all) =>
        var cs := Candidates(all, url, counts, MinPlayed(all, url, counts));
        Ok(Some(url + PickVariant(cs, r)))
    else Err("Unknown play type " + kind)
  }

  /** `_play(url)`'s bookkeeping: the URL's count goes up by one, from 0 the first time, and
      no other count changes. */
  function Bump(counts: Dict<int>, url: string): (r: Dict<int>)
    ensures Count(r, url) == Count(counts, url) + 1
    ensures forall k :: k != url ==> Get(r, k) == Get(counts, k)
  {
    BumpGet(counts, url);
    Put(counts, url, Count(counts, url) + 1)
  }

  lemma {:induction false} BumpGet(counts: Dict<int>, url: string)
    ensures forall k :: Get(Put(counts, url, Count(counts, url) + 1), k)
                          == if k == url then Some(Count(counts, url) + 1) else Get(counts, k)
  {
    forall k {
      PutGet(counts, url, Count(counts, url) + 1, k);
    }
  }

  lemma {:induction false} BumpCounted(counts: Dict<int>, url: string)
    requires Counted(counts)
    ensures Counted(Bump(counts, url))
  {
    forall k ensures Count(Bump(counts, url), k) >= 0 {
      assert Count(counts, k) >= 0;
      if k != url {
        assert Get(Bump(counts, url), k) == Get(counts, k);
      }
    }
  }

  /** The variants' counts differ by at most one. */
  predicate Balanced(all: seq<string>, url: string, counts: Dict<int>) {
    forall x, y :: x in all && y in all ==> Count(counts, url + x) <= Count(counts, url + y) + 1
  }

  /** Playing a least-played variant keeps the variants balanced: played one after another,
      the variants of a sound take turns. */
  lemma {:induction false} BalanceKept(all: seq<string>, url: string, counts: Dict<int>, v: string)
    requires Balanced(all, url, counts) && v in all
    requires forall x :: x in all ==> Count(counts, url + v) <= Count(counts, url + x)
    ensures Balanced(all, url, Bump(counts, url + v))
  {
    var r := Bump(counts, url + v);
    forall x, y | x in all && y in all ensures Count(r, url + x) <= Count(r, url + y) + 1 {
      if x != v {
        assert url + x != url + v by {
          assert (url + x)[|url|..] == x && (url + v)[|url|..] == v;
        }
      }
      if y != v {
        assert url + y != url + v by {
          assert (url + y)[|url|..] == y && (url + v)[|url|..] == v;
        }
      }
    }
  }

  /** The content script's `soundManager`. `idle` is `audio.paused || audio.ended`, `src`
      the URL last handed to the audio element, `logged` what `subtool.log.error` received. */
  class SoundManager {
    var queue: seq<string>
    var soundsPlayed: Dict<int>
    var idle: bool
    var src: Option<string>
    var logged: seq<string>
    const assetMap: Dict<seq<string>>
    const id: string

    ghost predicate Valid()
      reads this
    {
      Counted(soundsPlayed)
    }

    /** A new `Audio()` is paused and has played nothing. */
    constructor(assetMap: Dict<seq<string>>, id: string)
      ensures Valid()
      ensures queue == [] && soundsPlayed == [] && idle && src == None && logged == []
      ensures this.assetMap == assetMap && this.id == id
    {
      this.assetMap := assetMap;
      this.id := id;
      queue := [];
      soundsPlayed := [];
      idle := true;
      src := None;
      logged := [];
    }

    /** `_play(url)`: count the URL and start it. */
    method PlayUrl(url: string)
      requires Valid()
      modifies this
      ensures Valid()
      ensures soundsPlayed == Bump(old(soundsPlayed), url)
      ensures src == Some(url) && !idle
      ensures queue == old(queue) && logged == old(logged)
    {
      BumpCounted(soundsPlayed, url);
      soundsPlayed := CountPlay(soundsPlayed, url);
      src := Some(url);
      idle := false;
    }

    /** `play(name, type)`: play the URL now when the audio is free, queue it otherwise; an
        exception is logged and changes nothing else. */
    method Play(name: string, kind: string, r: real)
      requires Valid()
      modifies this
      ensures Valid()
      ensures match SoundUrl(assetMap, id, old(soundsPlayed), name, kind, r)
        case Err(e) =>
          logged == old(logged) + [e] && queue == old(queue) && soundsPlayed == old(soundsPlayed)
          && idle == old(idle) && src == old(src)
        case Ok(None) =>
          logged == old(logged) && queue == old(queue) && soundsPlayed == old(soundsPlayed)
          && idle == old(idle) && src == old(src)
        case Ok(Some(url)) =>
          logged == old(logged)
          && (old(idle) ==> queue == old(queue) && soundsPlayed == Bump(old(soundsPlayed), url) && src == Some(url) && !idle)
          && (!old(idle) ==> queue == old(queue) + [url] && soundsPlayed == old(soundsPlayed) && src == old(src) && !idle)
    {
      var u := SoundUrl(assetMap, id, soundsPlayed, name, kind, r);
      if u.Err? {
        logged := logged + [u.error];
      } else if u.value.Some? {
        if idle {
          PlayUrl(u.value.value);
        } else {
          queue := queue + [u.value.value];
        }
      }
    }

    /** The `ended` listener: the audio is free again, and the oldest queued URL, if any,
        starts. */
    method Ended()
      requires Valid()
      modifies this
      ensures Valid()
      ensures old(queue) == [] ==> idle && queue == [] && soundsPlayed == old(soundsPlayed) && src == old(src)
      ensures old(queue) != [] ==>
        queue == old(queue)[1..] && soundsPlayed == Bump(old(soundsPlayed), old(queue)[0])
        && src == Some(old(queue)[0]) && !idle
      ensures logged == old(logged)
    {
      idle := true;
      if |queue| > 0 {
        var url := queue[0];
        queue := queue[1..];
        PlayUrl(url);
      }
    }
  }

  /** `if (!(url in soundsPlayed)) soundsPlayed[url] = 0; soundsPlayed[url]++`. */
  method CountPlay(soundsPlayed: Dict<int>, url: string) returns (counts: Dict<int>)
    ensures counts == Bump(soundsPlayed, url)
  {
    counts := soundsPlayed;
    if url !in Keys(counts) {
      CountFresh(soundsPlayed, url);
      PutPut(soundsPlayed, url, 0, 1);
      counts := Put(counts, url, 0);
    }
    counts := Put(counts, url, Count(counts, url) + 1);
  }

  /** An absent URL counts 0, and so does one just stored with 0. */
  lemma CountFresh(d: Dict<int>, url: string)
    requires url !in Keys(d)
    ensures Count(d, url) == 0 && Count(Put(d, url, 0), url) == 0
  {
    PutGet(d, url, 0, url);
  }
}
