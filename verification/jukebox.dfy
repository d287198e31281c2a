/** Primarina's jukebox (`src/subtools/primarinas_jukebox/inject.js`).

    The subtool replaces the battle scene's `setBgm` and `rollBgm`. A battle's music number
    selects a track from the subtool's own settings: four negative numbers pick special
    tracks, positive numbers pick from the `normal` list, and anything else falls back to the
    first (default) `normal` track. `rollBgm` derives the number from the battle's numeric
    id. Loading the audio (`BattleSound.loadBgm`) is outside the model: the scene records
    which track it loaded. */
module Jukebox {
  import opened Wrappers

  /** A music track: its URL and the loop's start and end, in milliseconds. */
  datatype Track = Track(url: string, start: nat, end: nat)

  /** `bgmSettings.normal`; the first entry is the default. */
  const NORMAL: seq<Track> := [
    Track("https://play.pokemonshowdown.com/audio/sm-trainer.mp3", 8323, 89230),
    Track("https://github.com/OpenSauce04/ssmm-showdown/raw/master/music/xy-elite4.mp3", 133673, 261675),
    Track("https://github.com/OpenSauce04/ssmm-showdown/raw/master/music/bw-n-final.mp3", 42532, 129714),
    Track("https://github.com/OpenSauce04/ssmm-showdown/raw/master/music/bdsp-giratina.mp3", 60527, 164162),
    Track("https://github.com/OpenSauce04/ssmm-showdown/raw/master/music/b2w2-plasma.mp3", 264410, 438982),
    Track("https://github.com/OpenSauce04/ssmm-showdown/raw/master/music/bdsp-galactic-admin.mp3", 119450, 176991)
  ]

  /** `bgmSettings.special`. */
  const SPECIAL: map<string, Track> := map[
    "dogars" := Track("https://play.pokemonshowdown.com/audio/bw2-homika-dogars.mp3", 1661, 68131),
    "ludicolo-lombre" := Track("https://play.pokemonshowdown.com/audio/xd-miror-b.mp3", 9000, 57815),
    "ludicolo" := Track("https://play.pokemonshowdown.com/audio/colosseum-miror-b.mp3", 896, 47462),
    "spl" := Track("https://play.pokemonshowdown.com/audio/spl-elite4.mp3", 3962, 152509)
  ]

  /** The special track a negative music number names, if any. */
  function SpecialName(n: int): Option<string> {
    if n == -1 then Some("dogars")
    else if n == -2 then Some("ludicolo-lombre")
    else if n == -3 then Some("ludicolo")
    else if n == -101 then Some("spl")
    else None
  }

  /** The track `setBgm(n)` loads, as written: `n` selects `normal[n - 1]` only while
      `n < normal.length`, so the last `normal` track is never loaded and `n == normal.length`
      falls back to the default. */
  function TrackForAsWritten(n: int): Track {
    var name := SpecialName(n);
    if name.Some? && name.value in SPECIAL then SPECIAL[name.value]
    else if 0 < n < |NORMAL| then NORMAL[n - 1]
    else NORMAL[0]
  }

  /** The track `setBgm(n)` loads, with every `normal` track reachable: `n` from 1 to
      `normal.length` selects `normal[n - 1]`, the four special numbers their special
      track, and anything else the default track. */
  function TrackFor(n: int): (t: Track)
    ensures SpecialName(n).Some? ==> t == SPECIAL[SpecialName(n).value]
    ensures 0 < n <= |NORMAL| ==> t == NORMAL[n - 1]
    ensures SpecialName(n).None? && !(0 < n <= |NORMAL|) ==> t == NORMAL[0]
  {
    var name := SpecialName(n);
    if name.Some? && name.value in SPECIAL then SPECIAL[name.value]
    else if 0 < n <= |NORMAL| then NORMAL[n - 1]
    else NORMAL[0]
  }

  /** The number `rollBgm` passes to `setBgm`: `1 + numericId % normal.length`. */
  function RollNumber(numericId: nat): (n: int)
    ensures 1 <= n <= |NORMAL|
  {
    1 + numericId % |NORMAL|
  }

  /** The two selections differ only at `normal.length`. */
  lemma SelectionsAgree(n: int)
    requires n != |NORMAL|
    ensures TrackFor(n) == TrackForAsWritten(n)
  {
  }

  /** As written, no battle id rolls the last `normal` track. */
  lemma LastTrackNeverRolledAsWritten(numericId: nat)
    ensures TrackForAsWritten(RollNumber(numericId)) != NORMAL[|NORMAL| - 1]
  {
  }

  /** As written, a battle id that is one less than a multiple of `normal.length` rolls the
      default track instead of the last one. */
  lemma TopRollIsDefaultAsWritten()
    ensures TrackForAsWritten(RollNumber(5)) == NORMAL[0]
  {
  }

  /** Corrected: the roll plays `normal[numericId % normal.length]`, so every `normal` track
      is played by some battle. */
  lemma RollPlaysIdModLength(numericId: nat)
    ensures TrackFor(RollNumber(numericId)) == NORMAL[numericId % |NORMAL|]
  {
  }

  /** The battle scene fields the subtool's `setBgm` reads and writes. */
  class Scene {
    /** `this.bgmNum`: the music number last set. */
    var bgmNum: int
    /** `this.bgm`: the track last loaded, `None` before any. */
    var bgm: Option<Track>
    /** How often `this.updateBgm()` has been called. */
    var updates: nat
    /** `this.numericId`, the battle's number. */
    const numericId: nat

    constructor(bgmNum: int, numericId: nat)
      ensures this.bgmNum == bgmNum && this.numericId == numericId && bgm == None && updates == 0
    {
      this.bgmNum := bgmNum;
      this.numericId := numericId;
      bgm := None;
      updates := 0;
    }

    /** The replaced `setBgm(bgmNum)`: nothing happens when the number is already set;
        otherwise the number is recorded, its track loaded, and `updateBgm` called once. */
    method SetBgm(n: int)
      modifies this
      ensures old(bgmNum) == n ==> bgmNum == n && bgm == old(bgm) && updates == old(updates)
      ensures old(bgmNum) != n ==> bgmNum == n && bgm == Some(TrackFor(n)) && updates == old(updates) + 1
    {
      if bgmNum == n {
        return;
      }
      bgmNum := n;
      var name := SpecialName(n);
      if name.Some? && name.value in SPECIAL {
        bgm := Some(SPECIAL[name.value]);
      } else if 0 < n <= |NORMAL| {
        bgm := Some(NORMAL[n - 1]);
      } else {
        bgm := Some(NORMAL[0]);
      }
      updates := updates + 1;
    }

    /** The replaced `rollBgm()`: the number is derived from the battle's numeric id. */
    method RollBgm()
      modifies this
      ensures bgmNum == RollNumber(numericId)
      ensures old(bgmNum) == bgmNum ==> bgm == old(bgm) && updates == old(updates)
      ensures old(bgmNum) != bgmNum ==>
        bgm == Some(NORMAL[numericId % |NORMAL|]) && updates == old(updates) + 1
    {
      RollPlaysIdModLength(numericId);
      SetBgm(RollNumber(numericId));
    }
  }
}
