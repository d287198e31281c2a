/** The battle-message side of Exploud's announcer (`src/subtools/explouds_announcer/inject.js`).

    A `DataHandler` watches the protocol lines a battle room adds to its log. It keeps the move
    in progress, the current weather and whether the battle has started, and asks the sound
    manager to play sounds. The requests it sends are recorded, in order, in `played`.

    What the handler reads from `room.battle` (the turn number, and the HP fraction of the
    move's target when damage arrives) is passed in as a `Battle` record with each line. A
    NaN is modelled as `None`. */
module Announcer {
  import opened Wrappers
  import Strings

  /** One `soundManager.play(name, type)` request; `type` defaults to `"sound"`. */
  datatype Sound = Sound(name: string, kind: string)

  /** `this.currentMove`. A flag that was never set reads as `undefined`, which is falsy, so
      each flag is a `bool`. `name` and `target` are `undefined` (`None`) until a `move` line
      sets them. */
  datatype Move = Move(
    name: Option<string>, target: Option<string>,
    miss: bool, fail: bool, noEffect: bool, crit: bool, superEffective: bool, resisted: bool,
    hpBefore: Option<real>, hpAfter: Option<real>)

  /** `{}`. */
  const NO_MOVE: Move := Move(None, None, false, false, false, false, false, false, None, None)

  /** The handler's fields: `currentMove`, `currentWeather` and `battleStarted`. */
  datatype Tracker = Tracker(move: Move, weather: Option<string>, battleStarted: bool)

  /** The constructor's values: no move, weather `""`, battle not started. */
  const INITIAL: Tracker := Tracker(NO_MOVE, Some(""), false)

  /** What the handler reads from `room.battle` while handling one line. `targetHp` is
      `target.hp / target.maxHP` for the active Pokémon of the targeted side. */
  datatype Battle = Battle(turn: int, targetHp: Option<real>)

  /** The `moves` and `pokemon` lists of the asset map. */
  datatype Assets = Assets(moves: seq<string>, pokemon: seq<string>)

  /** What handling one line did: the new fields, the requests sent, and whether it threw. */
  datatype Outcome = Outcome(state: Tracker, sounds: seq<Sound>, thrown: bool)

  /** `params[i]`, `undefined` past the end. */
  function Param(params: seq<string>, i: nat): (p: Option<string>)
    ensures p.Some? <==> i < |params|
  {
    if i < |params| then Some(params[i]) else None
  }

  /** A truthy move name: defined and not empty. */
  predicate Named(m: Move) {
    m.name.Some? && m.name.value != ""
  }

  function Plain(name: string): Sound {
    Sound(name, "sound")
  }

  // ---------------------------------------------------------------------------------------
  // completeMove
  // ---------------------------------------------------------------------------------------

  /** The sound names `completeMove` can request, KO sounds included. */
  const COMPLETION_SOUNDS: set<string> := {
    "no_effect", "miss", "attack_crit", "supereffective", "not_very_effective",
    "ko_firstturn", "ko_ohko", "ko_lighthit", "ko",
    "attack_redhealth", "attack_strong_firstturn", "attack_strong_nve", "attack_strong",
    "attack_lighthit", "attack"}

  const KO_SOUNDS: set<string> := {"ko_firstturn", "ko_ohko", "ko_lighthit", "ko"}

  const STRONG_SOUNDS: set<string> := {"attack_strong_firstturn", "attack_strong_nve", "attack_strong"}

  /** The effectiveness sound that precedes a damage sound: crit, then super effective, then
      resisted. */
  function Impact(m: Move): (r: seq<string>)
    ensures |r| <= 1
    ensures forall s :: s in r ==> s in COMPLETION_SOUNDS - KO_SOUNDS - STRONG_SOUNDS
  {
    if m.crit then ["attack_crit"]
    else if m.superEffective then ["supereffective"]
    else if m.resisted then ["not_very_effective"]
    else []
  }

  /** The sound for a knock-out: first turn, then one-hit KO from full HP, then a target that
      was already below a quarter, else the plain one. */
  function KoSound(m: Move, turn: int): (s: string)
    ensures s in KO_SOUNDS
  {
    if turn == 1 then "ko_firstturn"
    else if m.hpBefore == Some(1.0) then "ko_ohko"
    else if m.hpBefore.Some? && m.hpBefore.value < 0.25 then "ko_lighthit"
    else "ko"
  }

  /** `x - y` on two HP fractions, NaN (`None`) when either is. */
  function Diff(x: Option<real>, y: Option<real>): (d: Option<real>)
    ensures d.Some? <==> x.Some? && y.Some?
  {
    if x.Some? && y.Some? then Some(x.value - y.value) else None
  }

  /** The sound for a hit that leaves the target standing with HP fraction `after`: red health
      first, then a loss of more than half, then a loss under a quarter. */
  function HitSound(after: real, damage: Option<real>, resisted: bool, turn: int): (s: string)
    ensures s in COMPLETION_SOUNDS - KO_SOUNDS
    ensures s in STRONG_SOUNDS <==> after >= 0.25 && damage.Some? && damage.value > 0.5
  {
    if after < 0.25 then "attack_redhealth"
    else if damage.Some? && damage.value > 0.5 then
      if turn == 1 then "attack_strong_firstturn"
      else if resisted then "attack_strong_nve"
      else "attack_strong"
    else if damage.Some? && damage.value < 0.25 then "attack_lighthit"
    else "attack"
  }

  /** The sounds `completeMove` requests, as the code is written. Damage sounds are guarded
      by a truthy `hpAfter`, which already excludes the `hpAfter == 0` KO case. "damage" is
      `hpAfter - hpBefore`, which a hit makes negative. */
  function CompleteSoundsAsWritten(m: Move, turn: int): (r: seq<string>)
    ensures |r| <= 2
  {
    if !Named(m) then []
    else if m.noEffect then ["no_effect"]
    else if m.miss then ["miss"]
    else if m.hpAfter.Some? && m.hpAfter.value != 0.0 then
      Impact(m) + [if m.hpAfter.value == 0.0 then KoSound(m, turn)
                   else HitSound(m.hpAfter.value, Diff(m.hpAfter, m.hpBefore), m.resisted, turn)]
    else []
  }

  /** The sounds `completeMove` is meant to request. Any recorded damage reaches the KO and
      hit sounds, and the damage is the HP lost, `hpBefore - hpAfter`. */
  function CompleteSounds(m: Move, turn: int): (r: seq<string>)
    ensures |r| <= 2
    ensures forall s :: s in r ==> s in COMPLETION_SOUNDS
    ensures !Named(m) ==> r == []
    ensures Named(m) && m.noEffect ==> r == ["no_effect"]
    ensures Named(m) && !m.noEffect && m.miss ==> r == ["miss"]
    ensures Named(m) && !m.noEffect && !m.miss && m.hpAfter == Some(0.0) ==>
              r == Impact(m) + [KoSound(m, turn)]
    ensures m.hpAfter.None? ==> forall s :: s in r ==> s in {"no_effect", "miss"}
  {
    if !Named(m) then []
    else if m.noEffect then ["no_effect"]
    else if m.miss then ["miss"]
    else if m.hpAfter.Some? then
      Impact(m) + [if m.hpAfter.value == 0.0 then KoSound(m, turn)
                   else HitSound(m.hpAfter.value, Diff(m.hpBefore, m.hpAfter), m.resisted, turn)]
    else []
  }

  /** `completeMove()`: nothing without a named move; otherwise the completion sounds and a
      fresh `{}` move. */
  function Complete(st: Tracker, turn: int): (r: (Tracker, seq<Sound>))
    ensures Named(st.move) ==> r.0 == st.(move := NO_MOVE)
    ensures !Named(st.move) ==> r == (st, [])
    ensures forall i :: 0 <= i < |r.1| ==> r.1[i].kind == "sound" && r.1[i].name in COMPLETION_SOUNDS
  {
    var names := CompleteSounds(st.move, turn);
    (if Named(st.move) then st.(move := NO_MOVE) else st,
     seq(|names|, i requires 0 <= i < |names| => Plain(names[i])))
  }

  // ---------------------------------------------------------------------------------------
  // handleBattleMessage
  // ---------------------------------------------------------------------------------------

  /** The moves whose `-activate` means the attack was blocked. */
  const PROTECT_MOVES: set<string> := {
    "Protect", "Detect", "Baneful Bunker", "Crafty Shield", "King's Shield", "Mat Block",
    "Obstruct", "Quick Guard", "Spiky Shield", "Wide Guard", "Max Guard"}

  /** The sounds of a `-weather` line that is not an upkeep reminder. */
  function WeatherSounds(weather: Option<string>, current: Option<string>): (r: seq<Sound>)
    ensures |r| <= 1
  {
    if weather == Some("Sandstorm") then [Plain("sand_start")]
    else if weather == Some("RainDance") then [Plain("rain_start")]
    else if weather == Some("SunnyDay") then [Plain("sun_start")]
    else if weather == Some("none") then
      if current == Some("Sandstorm") then [Plain("sand_end")]
      else if current == Some("RainDance") then [Plain("rain_end")]
      else if current == Some("SunnyDay") then [Plain("sun_end")]
      else []
    else []
  }

  /** The sound of a `-activate` line whose second field is `p`. */
  function ActivateSounds(p: string): (r: seq<Sound>)
    ensures |r| <= 1
  {
    if Strings.StartsWith(p, "move: ") then
      var parts := Strings.Split(p, ": ");
      var move := if |parts| > 1 then Some(parts[1]) else None;
      if move.Some? && move.value in PROTECT_MOVES then [Plain("blocked")]
      else if move == Some("Substitute") then [Plain("sub_hit")]
      else []
    else []
  }

  /** `hpStr == "0" ? 0 : hpParts[0] / hpParts[1]` on the first word of a `-damage` HP field.
      A quotient JavaScript makes NaN or Infinity is `None`. */
  function ParseHp(hpStr: string): (hp: Option<real>)
    ensures hpStr == "0" ==> hp == Some(0.0)
    ensures hp.Some? ==> hp.value >= 0.0
  {
    if hpStr == "0" then Some(0.0)
    else
      var parts := Strings.Split(hpStr, "/");
      var a := Strings.Number(parts[0]);
      var b := if |parts| > 1 then Strings.Number(parts[1]) else None;
      if a.Some? && b.Some? && b.value != 0 then Some(a.value as real / b.value as real) else None
  }

  /** `handleBattleMessage([command, ...params], data)`. `upkeep` is `data["upkeep"]`. Lines
      that read a missing field (`switch` and `-activate` without a second field, `-damage`
      without an HP field or with no target) throw a TypeError and stop there. */
  function Handle(st: Tracker, command: string, params: seq<string>, upkeep: bool,
                  assets: Assets, battle: Battle): (o: Outcome)
    ensures command !in {"", "move", "switch", "-damage", "-activate"} ==> !o.thrown
  {
    var m := st.move;
    if command == "" then
      var c := Complete(st, battle.turn);
      Outcome(c.0, c.1, false)
    else if command == "teampreview" || command == "start" then
      if !st.battleStarted then Outcome(st.(battleStarted := true), [Plain("battle_start")], false)
      else Outcome(st, [], false)
    else if command == "move" then
      var c := Complete(st, battle.turn);
      var move := Param(params, 1);
      var played := if move.Some? && move.value in assets.moves then [Sound(move.value, "move")] else [];
      Outcome(c.0.(move := NO_MOVE.(name := move, target := Param(params, 2))), c.1 + played, false)
    else if command == "switch" then
      var c := Complete(st, battle.turn);
      if |params| < 2 then Outcome(c.0, c.1, true)
      else
        var pokemon := Strings.Split(params[1], ", ")[0];
        var played := if pokemon in assets.pokemon then [Sound(pokemon, "pokemon")]
                      else if battle.turn > 0 then [Plain("switch")]
                      else [];
        Outcome(c.0, c.1 + played, false)
    else if command == "drag" then Outcome(st, [Plain("switch_forced")], false)
    else if command == "-miss" then Outcome(st.(move := m.(miss := true)), [], false)
    else if command == "-weather" then
      if upkeep then Outcome(st, [], false)
      else Outcome(st.(weather := Param(params, 0)), WeatherSounds(Param(params, 0), st.weather), false)
    else if command == "-fail" then Outcome(st.(move := m.(fail := true)), [Plain("fail")], false)
    else if command == "-activate" then
      if |params| < 2 then Outcome(st, [], true) else Outcome(st, ActivateSounds(params[1]), false)
    else if command == "-start" then
      Outcome(st, if Param(params, 1) == Some("Substitute") then [Plain("sub_start")] else [], false)
    else if command == "-end" then
      Outcome(st, if Param(params, 1) == Some("Disable") then [Plain("disable_end")]
                  else if Param(params, 1) == Some("Substitute") then [Plain("sub_hit")]
                  else [], false)
    else if command == "-immune" then Outcome(st.(move := m.(noEffect := true)), [], false)
    else if command == "-crit" then Outcome(st.(move := m.(crit := true)), [], false)
    else if command == "-supereffective" then Outcome(st.(move := m.(superEffective := true)), [], false)
    else if command == "-resisted" then Outcome(st.(move := m.(resisted := true)), [], false)
    else if command == "-damage" then
      if Named(m) && Param(params, 0) == m.target then
        if |params| < 2 || m.target.None? then Outcome(st, [], true)
        else
          var hpAfter := ParseHp(Strings.Split(params[1], " ")[0]);
          Outcome(st.(move := m.(hpBefore := battle.targetHp, hpAfter := hpAfter)), [], false)
      else Outcome(st, [], false)
    else if command == "cant" then
      Outcome(st, if Param(params, 1) == Some("flinch") then [Plain("flinch")] else [], false)
    else Outcome(st, [], false)
  }

  /** One line of a battle log together with what the battle read at that time. */
  datatype Line = Line(command: string, params: seq<string>, upkeep: bool, battle: Battle)

  /** Handles lines in order; a line that throws leaves the fields as they were at the throw
      and the next line is handled from there. */
  function Run(st: Tracker, lines: seq<Line>, assets: Assets): (r: (Tracker, seq<Sound>))
    decreases |lines|
  {
    if lines == [] then (st, [])
    else
      var o := Handle(st, lines[0].command, lines[0].params, lines[0].upkeep, assets, lines[0].battle);
      var rest := Run(o.state, lines[1..], assets);
      (rest.0, o.sounds + rest.1)
  }

  /** How many `battle_start` sounds were requested. */
  function StartCount(sounds: seq<Sound>): nat {
    if sounds == [] then 0
    else (if sounds[0] == Plain("battle_start") then 1 else 0) + StartCount(sounds[1..])
  }

  lemma {:induction false} StartCountAppend(a: seq<Sound>, b: seq<Sound>)
    ensures StartCount(a + b) == StartCount(a) + StartCount(b)
  {
    if a != [] {
      var ab := a + b;
      assert ab[0] == a[0] && ab[1..] == a[1..] + b;
      StartCountAppend(a[1..], b);
    } else {
      assert a + b == b;
    }
  }

  lemma {:induction false} StartCountNone(sounds: seq<Sound>)
    requires forall i :: 0 <= i < |sounds| ==> sounds[i] != Plain("battle_start")
    ensures StartCount(sounds) == 0
  {
    if sounds != [] {
      StartCountNone(sounds[1..]);
    }
  }

  /** One line requests `battle_start` at most once, only before the battle has started, and
      then marks it started; nothing ever clears the mark. */
  lemma StepStarts(st: Tracker, line: Line, assets: Assets)
    ensures var o := Handle(st, line.command, line.params, line.upkeep, assets, line.battle);
      && (st.battleStarted ==> o.state.battleStarted)
      && StartCount(o.sounds) <= (if st.battleStarted then 0 else 1)
      && (StartCount(o.sounds) == 1 ==> o.state.battleStarted)
  {
    var o := Handle(st, line.command, line.params, line.upkeep, assets, line.battle);
    if line.command == "teampreview" || line.command == "start" {
      if !st.battleStarted {
        assert o.sounds == [Plain("battle_start")];
        assert StartCount(o.sounds) == 1 + StartCount([]);
      } else {
        assert StartCount(o.sounds) == 0;
      }
    } else {
      NoStartSound(st, line.command, line.params, line.upkeep, assets, line.battle);
      StartCountNone(o.sounds);
    }
  }

  /** Lines other than `teampreview` and `start` neither request `battle_start` nor touch the
      mark. */
  lemma NoStartSound(st: Tracker, command: string, params: seq<string>, upkeep: bool,
                     assets: Assets, battle: Battle)
    requires command != "teampreview" && command != "start"
    ensures var o := Handle(st, command, params, upkeep, assets, battle);
      && o.state.battleStarted == st.battleStarted
      && forall i :: 0 <= i < |o.sounds| ==> o.sounds[i] != Plain("battle_start")
  {
    MarkKept(st, command, params, upkeep, assets, battle);
    NoStartRequested(st, command, params, upkeep, assets, battle);
  }

  lemma MarkKept(st: Tracker, command: string, params: seq<string>, upkeep: bool,
                 assets: Assets, battle: Battle)
    requires command != "teampreview" && command != "start"
    ensures Handle(st, command, params, upkeep, assets, battle).state.battleStarted == st.battleStarted
  {
  }

  lemma NoStartRequested(st: Tracker, command: string, params: seq<string>, upkeep: bool,
                         assets: Assets, battle: Battle)
    requires command != "teampreview" && command != "start"
    ensures !HasStart(Handle(st, command, params, upkeep, assets, battle).sounds)
  {
    if command == "" || command == "move" || command == "switch" {
      CompletionNoStart(st, battle.turn);
    } else if command == "-weather" {
      assert !HasStart(WeatherSounds(Param(params, 0), st.weather));
    } else if command == "-activate" && |params| >= 2 {
      assert !HasStart(ActivateSounds(params[1]));
    }
  }

  /** Some sound in `sounds` is `battle_start`. */
  predicate HasStart(sounds: seq<Sound>) {
    exists i :: 0 <= i < |sounds| && sounds[i] == Plain("battle_start")
  }

  lemma CompletionNoStart(st: Tracker, turn: int)
    ensures forall i :: 0 <= i < |Complete(st, turn).1| ==> Complete(st, turn).1[i] != Plain("battle_start")
  {
    assert "battle_start" !in COMPLETION_SOUNDS;
  }

  /** However long the battle, `battle_start` is requested at most once, and never once the
      battle has started. */
  lemma {:induction false} BattleStartsOnce(st: Tracker, lines: seq<Line>, assets: Assets)
    ensures StartCount(Run(st, lines, assets).1) <= (if st.battleStarted then 0 else 1)
    ensures st.battleStarted ==> Run(st, lines, assets).0.battleStarted
    decreases |lines|
  {
    if lines != [] {
      var o := Handle(st, lines[0].command, lines[0].params, lines[0].upkeep, assets, lines[0].battle);
      StepStarts(st, lines[0], assets);
      BattleStartsOnce(o.state, lines[1..], assets);
      StartCountAppend(o.sounds, Run(o.state, lines[1..], assets).1);
    }
  }

  /** `""`, `move` and `switch` first complete the pending move: their requests begin with the
      completion sounds, and the move they leave is a fresh one or the one the `move` names. */
  lemma CompletesFirst(st: Tracker, command: string, params: seq<string>, upkeep: bool,
                       assets: Assets, battle: Battle)
    requires command in {"", "move", "switch"}
    ensures var o := Handle(st, command, params, upkeep, assets, battle);
      && o.sounds[..|Complete(st, battle.turn).1|] == Complete(st, battle.turn).1
      && o.state.weather == st.weather && o.state.battleStarted == st.battleStarted
      && o.state.move == (if command == "move" then NO_MOVE.(name := Param(params, 1), target := Param(params, 2))
                          else if Named(st.move) then NO_MOVE else st.move)
  {
  }

  /** A `-weather` upkeep reminder changes nothing; any other `-weather` line records the new
      weather, and `none` announces the end of the weather that was recorded. */
  lemma WeatherTracked(st: Tracker, params: seq<string>, upkeep: bool, assets: Assets, battle: Battle)
    ensures var o := Handle(st, "-weather", params, upkeep, assets, battle);
      && (upkeep ==> o == Outcome(st, [], false))
      && (!upkeep ==> o.state == st.(weather := Param(params, 0)))
      && (!upkeep && Param(params, 0) == Some("none") && st.weather == Some("RainDance") ==>
            o.sounds == [Plain("rain_end")])
  {
  }

  /** Flag lines only set their flag on the pending move and request nothing. */
  lemma FlagsAreSilent(st: Tracker, command: string, params: seq<string>, upkeep: bool,
                       assets: Assets, battle: Battle)
    requires command in {"-miss", "-immune", "-crit", "-supereffective", "-resisted"}
    ensures var o := Handle(st, command, params, upkeep, assets, battle);
      && o.sounds == [] && !o.thrown
      && o.state.weather == st.weather && o.state.battleStarted == st.battleStarted
      && (command == "-miss" ==> o.state.move == st.move.(miss := true))
      && (command == "-immune" ==> o.state.move == st.move.(noEffect := true))
      && (command == "-crit" ==> o.state.move == st.move.(crit := true))
      && (command == "-supereffective" ==> o.state.move == st.move.(superEffective := true))
      && (command == "-resisted" ==> o.state.move == st.move.(resisted := true))
  {
  }

  /** A `-damage` line for the pending move's target records the HP fraction before (read
      from the battle) and after (parsed from the line); the `0` of a faint reads as 0. */
  lemma DamageRecorded(st: Tracker, params: seq<string>, upkeep: bool, assets: Assets, battle: Battle)
    requires Named(st.move) && st.move.target.Some? && |params| >= 2 && params[0] == st.move.target.value
    ensures var o := Handle(st, "-damage", params, upkeep, assets, battle);
      && !o.thrown && o.sounds == []
      && o.state.move.hpBefore == battle.targetHp
      && o.state.move.hpAfter == ParseHp(Strings.Split(params[1], " ")[0])
      && (Strings.Split(params[1], " ")[0] == "0" ==> o.state.move.hpAfter == Some(0.0))
  {
  }

  // ---------------------------------------------------------------------------------------
  // The two defects of completeMove
  // ---------------------------------------------------------------------------------------

  /** As written, no KO sound can ever be requested: the guard demands a non-zero `hpAfter`. */
  lemma KoUnreachable(m: Move, turn: int)
    ensures forall s :: s in CompleteSoundsAsWritten(m, turn) ==> s !in KO_SOUNDS
  {
  }

  /** As written, a hit that lowers HP (or leaves it) never sounds strong, because the
      "damage" `hpAfter - hpBefore` is then at most 0. A drop from full HP to 30% plays the
      light-hit sound. */
  lemma StrongUnreachable(m: Move, turn: int)
    requires m.hpAfter.Some? && m.hpBefore.Some? && m.hpAfter.value <= m.hpBefore.value
    ensures forall s :: s in CompleteSoundsAsWritten(m, turn) ==> s !in STRONG_SOUNDS
  {
  }

  lemma StrongHitAsWritten()
    ensures CompleteSoundsAsWritten(NO_MOVE.(name := Some("Tackle"), hpBefore := Some(1.0), hpAfter := Some(0.3)), 2)
              == ["attack_lighthit"]
  {
  }

  /** Corrected: a move that knocks its target out requests a KO sound, after its
      effectiveness sound. */
  lemma KoReachable(m: Move, turn: int)
    requires Named(m) && !m.noEffect && !m.miss && m.hpAfter == Some(0.0)
    ensures CompleteSounds(m, turn)[|CompleteSounds(m, turn)| - 1] in KO_SOUNDS
  {
  }

  /** Corrected: a hit that takes more than half the target's HP and leaves it above a quarter
      requests a strong-attack sound. */
  lemma StrongReachable(m: Move, turn: int)
    requires Named(m) && !m.noEffect && !m.miss
    requires m.hpAfter.Some? && m.hpBefore.Some? && m.hpAfter.value >= 0.25
    requires m.hpBefore.value - m.hpAfter.value > 0.5
    ensures CompleteSounds(m, turn)[|CompleteSounds(m, turn)| - 1] in STRONG_SOUNDS
  {
  }

  /** The correction changes nothing else: with no damage recorded, or a non-KO hit whose
      two "damage" readings fall in the same band, both versions agree. */
  lemma CorrectionAgrees(m: Move, turn: int)
    requires m.hpAfter.None? || (m.hpAfter != Some(0.0) && m.hpBefore.None?)
    ensures CompleteSounds(m, turn) == CompleteSoundsAsWritten(m, turn)
  {
  }

  // ---------------------------------------------------------------------------------------
  // The handler object
  // ---------------------------------------------------------------------------------------

  /** `class DataHandler`. Its three fields change line by line; `played` records the
      requests sent to the sound manager. */
  class DataHandler {
    var currentMove: Move
    var currentWeather: Option<string>
    var battleStarted: bool
    var played: seq<Sound>
    const assets: Assets

    function Fields(): Tracker
      reads this
    {
      Tracker(currentMove, currentWeather, battleStarted)
    }

    constructor(assets: Assets)
      ensures Fields() == INITIAL && played == [] && this.assets == assets
    {
      this.assets := assets;
      currentMove := NO_MOVE;
      currentWeather := Some("");
      battleStarted := false;
      played := [];
    }

    /** `this.subtool.soundManager.play(name, type)`. */
    method Play(name: string, kind: string)
      modifies this
      ensures Fields() == old(Fields()) && played == old(played) + [Sound(name, kind)]
    {
      played := played + [Sound(name, kind)];
    }

    /** `completeMove()`, in its corrected form. */
    method CompleteMove(turn: int)
      modifies this
      ensures Fields() == Complete(old(Fields()), turn).0
      ensures played == old(played) + Complete(old(Fields()), turn).1
    {
      var m := currentMove;
      if !(m.name.Some? && m.name.value != "") {
        return;
      }
      if m.noEffect {
        Play("no_effect", "sound");
      } else if m.miss {
        Play("miss", "sound");
      } else if m.hpAfter.Some? {
        if m.crit {
          Play("attack_crit", "sound");
        } else if m.superEffective {
          Play("supereffective", "sound");
        } else if m.resisted {
          Play("not_very_effective", "sound");
        }
        if m.hpAfter.value == 0.0 {
          Play(KoSound(m, turn), "sound");
        } else {
          var damage := Diff(m.hpBefore, m.hpAfter);
          Play(HitSound(m.hpAfter.value, damage, m.resisted, turn), "sound");
        }
      }
      currentMove := NO_MOVE;
    }

    /** `handleBattleMessage([command, ...params], data)`; `thrown` says a TypeError escaped. */
    method HandleBattleMessage(command: string, params: seq<string>, upkeep: bool, battle: Battle)
      returns (thrown: bool)
      modifies this
      ensures var o := Handle(old(Fields()), command, params, upkeep, assets, battle);
        Fields() == o.state && played == old(played) + o.sounds && thrown == o.thrown
    {
      thrown := false;
      if command == "" {
        CompleteMove(battle.turn);
      } else if command == "teampreview" || command == "start" {
        if !battleStarted {
          Play("battle_start", "sound");
          battleStarted := true;
        }
      } else if command == "move" {
        CompleteMove(battle.turn);
        var move := Param(params, 1);
        currentMove := NO_MOVE.(name := move, target := Param(params, 2));
        if move.Some? && move.value in assets.moves {
          Play(move.value, "move");
        }
      } else if command == "switch" {
        CompleteMove(battle.turn);
        thrown := Switch(params, battle.turn);
      } else if command == "drag" {
        Play("switch_forced", "sound");
      } else if command == "-weather" {
        if !upkeep {
          Weather(Param(params, 0));
        }
      } else if command == "-activate" {
        if |params| < 2 {
          thrown := true;
        } else {
          Activate(params[1]);
        }
      } else if command == "-damage" {
        thrown := Damage(params, battle.targetHp);
      } else {
        SetFlagOrPlay(command, params);
      }
    }

    /** The `switch` case after `completeMove()`: a Pokémon with its own sound gets it, any
        other switch after the lead gets the generic one. */
    method Switch(params: seq<string>, turn: int) returns (thrown: bool)
      modifies this
      ensures Fields() == old(Fields()) && thrown == (|params| < 2)
      ensures !thrown ==>
        var pokemon := Strings.Split(params[1], ", ")[0];
        played == old(played) + (if pokemon in assets.pokemon then [Sound(pokemon, "pokemon")]
                                 else if turn > 0 then [Plain("switch")] else [])
      ensures thrown ==> played == old(played)
    {
      if |params| < 2 {
        return true;
      }
      thrown := false;
      var pokemon := Strings.Split(params[1], ", ")[0];
      if pokemon in assets.pokemon {
        Play(pokemon, "pokemon");
      } else if turn > 0 {
        Play("switch", "sound");
      }
    }

    /** The `-weather` case of a line that is not an upkeep reminder. */
    method Weather(weather: Option<string>)
      modifies this
      ensures Fields() == old(Fields()).(weather := weather)
      ensures played == old(played) + WeatherSounds(weather, old(currentWeather))
    {
      if weather == Some("Sandstorm") {
        Play("sand_start", "sound");
      } else if weather == Some("RainDance") {
        Play("rain_start", "sound");
      } else if weather == Some("SunnyDay") {
        Play("sun_start", "sound");
      } else if weather == Some("none") {
        if currentWeather == Some("Sandstorm") {
          Play("sand_end", "sound");
        } else if currentWeather == Some("RainDance") {
          Play("rain_end", "sound");
        } else if currentWeather == Some("SunnyDay") {
          Play("sun_end", "sound");
        }
      }
      currentWeather := weather;
    }

    /** The `-activate` case: protection moves block, a substitute takes the hit. */
    method Activate(p: string)
      modifies this
      ensures Fields() == old(Fields()) && played == old(played) + ActivateSounds(p)
    {
      if Strings.StartsWith(p, "move: ") {
        var parts := Strings.Split(p, ": ");
        var move := if |parts| > 1 then Some(parts[1]) else None;
        if move.Some? && move.value in PROTECT_MOVES {
          Play("blocked", "sound");
        } else if move == Some("Substitute") {
          Play("sub_hit", "sound");
        }
      }
    }

    /** The `-damage` case: record the HP fractions when the pending move's target was hit. */
    method Damage(params: seq<string>, targetHp: Option<real>) returns (thrown: bool)
      modifies this
      ensures played == old(played)
      ensures var o := Handle(old(Fields()), "-damage", params, false, assets, Battle(0, targetHp));
        Fields() == o.state && thrown == o.thrown
    {
      thrown := false;
      var m := currentMove;
      if m.name.Some? && m.name.value != "" && Param(params, 0) == m.target {
        if |params| < 2 || m.target.None? {
          return true;
        }
        var hpAfter := ParseHp(Strings.Split(params[1], " ")[0]);
        currentMove := m.(hpBefore := targetHp, hpAfter := hpAfter);
      }
    }

    /** The remaining cases, none of which can throw: flags on the pending move and sounds
        that depend only on the line. */
    method SetFlagOrPlay(command: string, params: seq<string>)
      modifies this
      requires command !in {"", "teampreview", "start", "move", "switch", "drag", "-weather", "-activate", "-damage"}
      ensures var o := Handle(old(Fields()), command, params, false, assets, Battle(0, None));
        Fields() == o.state && played == old(played) + o.sounds
    {
      if command == "-miss" {
        currentMove := currentMove.(miss := true);
      } else if command == "-fail" {
        currentMove := currentMove.(fail := true);
        Play("fail", "sound");
      } else if command == "-start" {
        if Param(params, 1) == Some("Substitute") {
          Play("sub_start", "sound");
        }
      } else if command == "-end" {
        if Param(params, 1) == Some("Disable") {
          Play("disable_end", "sound");
        } else if Param(params, 1) == Some("Substitute") {
          Play("sub_hit", "sound");
        }
      } else if command == "-immune" {
        currentMove := currentMove.(noEffect := true);
      } else if command == "-crit" {
        currentMove := currentMove.(crit := true);
      } else if command == "-supereffective" {
        currentMove := currentMove.(superEffective := true);
      } else if command == "-resisted" {
        currentMove := currentMove.(resisted := true);
      } else if command == "cant" {
        if Param(params, 1) == Some("flinch") {
          Play("flinch", "sound");
        }
      }
    }
  }
}
