/** Zorua's spoiler guard (`src/subtools/zoruas_spoilerguard/inject.js`).

    The battle controls are sorted into one of eleven states. While a turn is playing out,
    the real timer button is blacked out by a per-room CSS rule, so that the timer cannot
    hint at the coming events. When a player becomes a spectator of the battle's last turn,
    the real controls are not drawn; a stand-in is drawn instead. The room and battle fields
    the code reads are a `RoomView`, one per call. */
module SpoilerGuard {

  /** The fields `getBattleControlsState` reads. Each `bool` is the field's truthiness, except
      `seekingIsNull`, which is `room.battle.seeking === null`. `turn` is `room.battle.turn`. */
  datatype RoomView = RoomView(
    customControls: bool, seekingIsNull: bool, atQueueEnd: bool, side: bool,
    roomBattleEnded: bool, paused: bool, ended: bool,
    nearSideName: bool, farSideName: bool, turn: int)

  datatype ControlsState =
    | Custom | Seeking
    | SpectatorPaused | SpectatorTurnInProgress | TurnInProgress
    | Ended | SpectatorEnded
    | PlayerChoosing | EmptyBattle | FullBattlePaused | FullBattlePlaying

  /** The label the code returns for each state. */
  function Label(s: ControlsState): string {
    match s
    case Custom => "custom"
    case Seeking => "seeking"
    case SpectatorPaused => "spectator-paused"
    case SpectatorTurnInProgress => "spectator-turn-in-progress"
    case TurnInProgress => "turn-in-progress"
    case Ended => "ended"
    case SpectatorEnded => "spectator-ended"
    case PlayerChoosing => "player-choosing"
    case EmptyBattle => "empty-battle"
    case FullBattlePaused => "full-battle-paused"
    case FullBattlePlaying => "full-battle-playing"
  }

  /** Different states have different labels, so the string comparisons of the wrapper see
      exactly the state. */
  lemma LabelsDistinct(a: ControlsState, b: ControlsState)
    requires Label(a) == Label(b)
    ensures a == b
  {
  }

  /** `getBattleControlsState(room)`. */
  function GetBattleControlsState(room: RoomView): (s: ControlsState)
    ensures room.customControls ==> s == Custom
    ensures !room.customControls && !room.seekingIsNull ==> s == Seeking
    ensures !room.customControls && room.seekingIsNull && !room.atQueueEnd ==>
      s == (if room.side && !room.roomBattleEnded then TurnInProgress
            else if room.paused then SpectatorPaused else SpectatorTurnInProgress)
    ensures !room.customControls && room.seekingIsNull && room.atQueueEnd && room.ended ==>
      s == (if room.side then Ended else SpectatorEnded)
    ensures s == PlayerChoosing <==>
      !room.customControls && room.seekingIsNull && room.atQueueEnd && !room.ended && room.side
  {
    if room.customControls then Custom
    else if !room.seekingIsNull then Seeking
    else if !room.atQueueEnd then
      if !room.side || room.roomBattleEnded then
        if room.paused then SpectatorPaused else SpectatorTurnInProgress
      else TurnInProgress
    else if room.ended then
      if room.side then Ended else SpectatorEnded
    else if room.side then PlayerChoosing
    else if !room.nearSideName || !room.farSideName then EmptyBattle
    else if room.paused then FullBattlePaused
    else FullBattlePlaying
  }

  /** The four declarations that black out the timer button, each `!important`. */
  const HIDING: map<string, string> :=
    map["filter" := "brightness(0)", "width" := "70px", "overflow" := "hidden", "white-space" := "nowrap"]

  /** The four `setProperty` calls add the hiding declarations. */
  lemma SetsHiding(m: map<string, string>)
    ensures m["filter" := "brightness(0)"]["width" := "70px"]["overflow" := "hidden"]["white-space" := "nowrap"]
            == m + HIDING
  {
  }

  /** The four `removeProperty` calls remove them. */
  lemma RemovesHiding(m: map<string, string>)
    ensures m - {"filter"} - {"width"} - {"overflow"} - {"white-space"} == m - HIDING.Keys
  {
  }

  /** What the wrapper does with the controls: call the original `updateControls`, or draw
      the stand-in timer and skip buttons itself. */
  datatype Render = Original | StandIn

  /** One call of the wrapper on the flag and the view: the new `turn0Ended`, whether the
      timer is hidden, and how the controls are drawn. */
  datatype Step = Step(turn0Ended: bool, hidden: bool, render: Render)

  function Wrapper(turn0Ended: bool, room: RoomView): (st: Step)
    ensures st.turn0Ended == (turn0Ended || (GetBattleControlsState(room) == PlayerChoosing && room.turn > 0))
    ensures st.hidden <==>
      st.turn0Ended && GetBattleControlsState(room) in {TurnInProgress, SpectatorTurnInProgress}
    ensures st.render == StandIn <==> st.hidden && GetBattleControlsState(room) == SpectatorTurnInProgress
  {
    var state := GetBattleControlsState(room);
    var ended := turn0Ended || (state == PlayerChoosing && room.turn > 0);
    var hidden := (state == TurnInProgress || state == SpectatorTurnInProgress) && ended;
    Step(ended, hidden, if hidden && state == SpectatorTurnInProgress then StandIn else Original)
  }

  /** The calls made by a sequence of views, from a flag value. */
  function Steps(turn0Ended: bool, rooms: seq<RoomView>): (r: seq<Step>)
    ensures |r| == |rooms|
    decreases |rooms|
  {
    if rooms == [] then []
    else
      var st := Wrapper(turn0Ended, rooms[0]);
      [st] + Steps(st.turn0Ended, rooms[1..])
  }

  /** A player's own choosing screen after turn 0, seen at some call. */
  predicate ChoosingAfterTurn0(room: RoomView) {
    GetBattleControlsState(room) == PlayerChoosing && room.turn > 0
  }

  /** The timer is never hidden before a player has been shown a choice after turn 0: a lead
      sent out automatically cannot hide it. */
  lemma {:induction false} NotHiddenBeforeTurn1(rooms: seq<RoomView>, k: nat)
    requires k < |rooms|
    requires forall i :: 0 <= i <= k ==> !ChoosingAfterTurn0(rooms[i])
    ensures !Steps(false, rooms)[k].hidden
    decreases k
  {
    if k > 0 {
      var st := Wrapper(false, rooms[0]);
      assert !st.turn0Ended;
      NotHiddenBeforeTurn1(rooms[1..], k - 1);
    }
  }

  /** Once set, the flag stays set: from then on every turn in progress hides the timer. */
  lemma {:induction false} HiddenAfterTurn1(flag: bool, rooms: seq<RoomView>, k: nat)
    requires k < |rooms| && flag
    requires GetBattleControlsState(rooms[k]) in {TurnInProgress, SpectatorTurnInProgress}
    ensures Steps(flag, rooms)[k].hidden
    decreases k
  {
    if k > 0 {
      HiddenAfterTurn1(Wrapper(flag, rooms[0]).turn0Ended, rooms[1..], k - 1);
    }
  }

  /** The closure `modifyRoom` builds for one room: the `turn0Ended` flag, the timer-hiding CSS
      rule's declarations, `room.controlsShown`, and how the controls were last drawn. */
  class TimerGuard {
    var turn0Ended: bool
    var style: map<string, string>
    var controlsShown: bool
    var originalCalls: nat
    var lastRender: Render

    /** `style` holds the declarations of the rule the room's style template adds. */
    constructor(style: map<string, string>, controlsShown: bool)
      ensures !turn0Ended && this.style == style && this.controlsShown == controlsShown
      ensures originalCalls == 0 && lastRender == Original
    {
      turn0Ended := false;
      this.style := style;
      this.controlsShown := controlsShown;
      originalCalls := 0;
      lastRender := Original;
    }

    /** The wrapped `room.updateControls(...args)`. */
    method UpdateControls(room: RoomView)
      modifies this
      ensures var st := Wrapper(old(turn0Ended), room);
        && turn0Ended == st.turn0Ended
        && style == (if st.hidden then old(style) + HIDING else old(style) - HIDING.Keys)
        && lastRender == st.render
        && originalCalls == old(originalCalls) + (if st.render == Original then 1 else 0)
        && controlsShown == (if st.render == StandIn then false else old(controlsShown))
    {
      SetsHiding(style);
      RemovesHiding(style);
      var state := GetBattleControlsState(room);
      if state == PlayerChoosing && room.turn > 0 {
        turn0Ended := true;
      }
      if (state == TurnInProgress || state == SpectatorTurnInProgress) && turn0Ended {
        style := style["filter" := "brightness(0)"];
        style := style["width" := "70px"];
        style := style["overflow" := "hidden"];
        style := style["white-space" := "nowrap"];
        if state == SpectatorTurnInProgress {
          controlsShown := false;
          lastRender := StandIn;
          return;
        }
      } else {
        style := style - {"filter"};
        style := style - {"width"};
        style := style - {"overflow"};
        style := style - {"white-space"};
      }
      originalCalls := originalCalls + 1;
      lastRender := Original;
    }
  }
}
