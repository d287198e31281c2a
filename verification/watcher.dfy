/** Sigilyph's disconnect watcher (`src/subtools/sigilyphs_disconnect_watcher/inject.js`).

    While the user is logged in, a timer is kept running. Every message from the server
    counts as a pong: it clears `pingSent` and restarts the polling timer. When the timer
    fires without a ping outstanding, the watcher sends the user a private message to
    themselves (a ping) and waits `timeoutDuration` seconds; when it fires with the ping
    still outstanding, it reports a disconnect. The echoed ping is hidden from the PM
    window. Timers are explicit: a `Fire` event is the pending timer running out. */
module DisconnectWatcher {
  import opened Wrappers
  import Strings

  const PING: string := "GUZZTOOL_SIGILYPH_PING"
  const DISCONNECTED: string := "Sigilyph says: Disconnected from server. Please refresh the page."

  /** The subtool's options, in seconds. */
  datatype Config = Config(pollingInterval: real, timeoutDuration: real)

  /** `listenForPong(timeout)`'s delay in milliseconds: a falsy `timeout` (absent, `null` or
      0, all written 0 here) means the polling interval. */
  function Delay(cfg: Config, timeout: real): (d: real)
    ensures timeout != 0.0 ==> d == timeout
    ensures timeout == 0.0 ==> d == cfg.pollingInterval * 1000.0
  {
    if timeout != 0.0 then timeout else cfg.pollingInterval * 1000.0
  }

  /** What happens to the watcher, each with whether the user is logged in
      (`app.user.attributes.named`) at that moment. */
  datatype Event =
    | Start                   // login, or logged in at start-up
    | Stop                    // logout
    | Receive(named: bool)    // any message from the server
    | Fire(named: bool)       // the pending timer runs out

  /** The watcher's state: `pingSent`, and the delay of the pending timer. There is one timer
      handle, `this.timeout`, and it is cleared before every new timer is set, so at most one
      timer is ever pending. */
  datatype Watch = Watch(pingSent: bool, pending: Option<real>)

  /** What an event makes the watcher do besides changing state. */
  datatype Effect = Nothing | SendPing | ReportDisconnect

  /** One event. */
  function Step(cfg: Config, w: Watch, e: Event): (r: (Watch, Effect))
    ensures e.Start? || e.Stop? || e.Receive? ==> !r.0.pingSent && r.1 == Nothing
    ensures r.1 == SendPing <==> e == Fire(true) && !w.pingSent
    ensures r.1 == ReportDisconnect <==> e == Fire(true) && w.pingSent
    ensures r.1 == SendPing ==> r.0 == Watch(true, Some(Delay(cfg, cfg.timeoutDuration * 1000.0)))
    ensures r.1 == ReportDisconnect ==> r.0.pending.None?
    ensures e == Fire(false) || e == Stop ==> r.0 == Watch(false, None)
  {
    match e
    case Start => (Watch(false, Some(Delay(cfg, 0.0))), Nothing)
    case Stop => (Watch(false, None), Nothing)
    case Receive(named) =>
      (Watch(false, if named then Some(Delay(cfg, 0.0)) else w.pending), Nothing)
    case Fire(named) =>
      if !named then (Watch(false, None), Nothing)
      else if !w.pingSent then (Watch(true, Some(Delay(cfg, cfg.timeoutDuration * 1000.0))), SendPing)
      else (Watch(true, None), ReportDisconnect)
  }

  /** The state after a sequence of events. */
  function Run(cfg: Config, w: Watch, events: seq<Event>): Watch {
    if events == [] then w
    else Step(cfg, Run(cfg, w, events[..|events| - 1]), events[|events| - 1]).0
  }

  /** A ping is outstanding exactly when the last event was the timer running out while
      logged in. */
  lemma PingSentIffLastFired(cfg: Config, w: Watch, events: seq<Event>)
    requires events != []
    ensures Run(cfg, w, events).pingSent <==> events[|events| - 1] == Fire(true)
  {
  }

  /** So a disconnect is reported exactly when the timer runs out twice in a row while
      logged in, with no message from the server, login or logout in between. */
  lemma ReportIffTwoFires(cfg: Config, w: Watch, events: seq<Event>)
    requires events != []
    ensures Step(cfg, Run(cfg, w, events), Fire(true)).1 == ReportDisconnect <==>
      events[|events| - 1] == Fire(true)
  {
    PingSentIffLastFired(cfg, w, events);
  }

  /** While the user stays logged in and no disconnect has been reported, a timer is always
      pending: after a start, every message and every timer fire re-arms it. */
  lemma {:induction false} AlwaysArmed(cfg: Config, events: seq<Event>)
    requires events != [] && events[0] == Start
    requires forall i :: 1 <= i < |events| ==> events[i] == Receive(true) || events[i] == Fire(true)
    requires forall i :: 1 <= i < |events| - 1 ==> !(events[i] == Fire(true) && events[i + 1] == Fire(true))
    ensures Run(cfg, Watch(false, None), events).pending.Some?
    decreases |events|
  {
    if |events| > 1 {
      var prefix := events[..|events| - 1];
      assert prefix[0] == Start;
      AlwaysArmed(cfg, prefix);
      if events[|events| - 1] == Fire(true) && |events| > 2 {
        PingSentIffLastFired(cfg, Watch(false, None), prefix);
        assert prefix[|prefix| - 1] == events[|events| - 2];
      }
    }
  }

  /** The PM `/pm <me>, GUZZTOOL_SIGILYPH_PING` comes back as one from `me` to `me` with the
      ping text: only that one is hidden; every other PM reaches the original `addPM`. */
  predicate HidesPM(sender: string, message: string, receiver: string, me: string) {
    Strings.ToID(sender) == me && Strings.ToID(receiver) == me && message == PING
  }

  /** The echo of the watcher's own ping is hidden, whatever the case and punctuation of the
      user name it is shown with. */
  lemma OwnPingHidden(name: string)
    ensures HidesPM(name, PING, name, Strings.ToID(name))
  {
  }

  /** A PM with any other text, or between other users, is shown. */
  lemma OtherPMShown(sender: string, message: string, receiver: string, me: string)
    requires message != PING || Strings.ToID(sender) != me || Strings.ToID(receiver) != me
    ensures !HidesPM(sender, message, receiver, me)
  {
  }

  /** The watcher with its side effects: the chat commands it sent and the popups it showed. */
  class Watcher {
    const cfg: Config
    var pingSent: bool
    /** The delay of the pending timer (`this.timeout`), `None` when none is pending. */
    var pending: Option<real>
    var sent: seq<string>
    var popups: seq<string>

    function State(): Watch
      reads this
    {
      Watch(pingSent, pending)
    }

    /** `init`: the watcher starts at once when the user is already logged in. */
    constructor(cfg: Config, named: bool)
      ensures this.cfg == cfg && sent == [] && popups == []
      ensures State() == if named then Step(cfg, Watch(false, None), Start).0 else Watch(false, None)
    {
      this.cfg := cfg;
      pingSent := false;
      pending := None;
      sent := [];
      popups := [];
      if named {
        pingSent := false;
        pending := Some(Delay(cfg, 0.0));
      }
    }

    /** `listenForPong(timeout)`: the previous timer is cleared and a new one set. */
    method ListenForPong(timeout: real)
      modifies this
      ensures pending == Some(Delay(cfg, timeout))
      ensures pingSent == old(pingSent) && sent == old(sent) && popups == old(popups)
    {
      var t := if timeout != 0.0 then timeout else cfg.pollingInterval * 1000.0;
      pending := None;
      pending := Some(t);
    }

    /** `startDisconnectWatcher()`, on login. */
    method StartWatcher()
      modifies this
      ensures State() == Step(cfg, old(State()), Start).0
      ensures sent == old(sent) && popups == old(popups)
    {
      pingSent := false;
      ListenForPong(0.0);
    }

    /** `stopDisconnectWatcher()`, on logout. */
    method StopWatcher()
      modifies this
      ensures State() == Step(cfg, old(State()), Stop).0
      ensures sent == old(sent) && popups == old(popups)
    {
      pending := None;
      pingSent := false;
    }

    /** `registerPong()`, on every message from the server. */
    method RegisterPong(named: bool)
      modifies this
      ensures State() == Step(cfg, old(State()), Receive(named)).0
      ensures sent == old(sent) && popups == old(popups)
    {
      pingSent := false;
      if named {
        ListenForPong(0.0);
      }
    }

    /** The timer callback; `userid` is `app.user.get("userid")`. */
    method Fire(named: bool, userid: string)
      requires pending.Some?
      modifies this
      ensures var r := Step(cfg, old(State()), Event.Fire(named));
        && State() == r.0
        && sent == old(sent) + (if r.1 == SendPing then ["/pm " + userid + ", " + PING] else [])
        && popups == old(popups) + (if r.1 == ReportDisconnect then [DISCONNECTED] else [])
    {
      pending := None;
      if !named {
        StopWatcher();
        return;
      }
      if !pingSent {
        sent := sent + ["/pm " + userid + ", " + PING];
        pingSent := true;
        ListenForPong(cfg.timeoutDuration * 1000.0);
      } else {
        popups := popups + [DISCONNECTED];
      }
    }
  }
}
