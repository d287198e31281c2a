/** `RoomListener`: handlers for rooms being created or deleted in the Showdown client's
    `app.rooms` object, and the replay of the rooms that existed at construction.

    Handlers are identified by number; invoking one is recorded as a `HandlerCall`. The
    rooms object is an ordered dictionary from room id to room. */
module RoomListeners {
  import opened Wrappers
  import opened Dicts
  import ListenerProxies
  import Seqs

  /** One handler invocation: `(roomId, room)` for "new", `(roomId)` for "delete". */
  datatype HandlerCall<R> = NewRoom(handler: nat, roomId: string, room: R) | DeletedRoom(handler: nat, roomId: string)

  type Handlers = map<string, seq<nat>>

  /** The handler table a fresh listener starts with. */
  const FRESH: Handlers := map["new" := [], "delete" := []]

  /** Names `e in this.handlers` also finds on `Object.prototype`; for them the check passes and
      the following `push` throws a TypeError instead. */
  const INHERITED := ListenerProxies.INHERITED

  /** `on`'s loop: each name in turn is checked and registered; the first invalid name throws,
      leaving the names before it registered. */
  function Register(h: Handlers, names: seq<string>, id: nat): (r: (Handlers, Option<string>))
    requires h.Keys == FRESH.Keys
    ensures r.0.Keys == FRESH.Keys
    ensures r.1.None? <==> forall i :: 0 <= i < |names| ==> names[i] in FRESH
    decreases |names|
  {
    if names == [] then (h, None)
    else if names[0] in h then
      var r := Register(h[names[0] := h[names[0]] + [id]], names[1..], id);
      assert forall i :: 1 <= i < |names| ==> names[i] == names[1..][i - 1];
      r
    else if names[0] in INHERITED then (h, Some("TypeError: this.handlers[e].push is not a function"))
    else (h, Some("Invalid event: " + names[0]))
  }

  /** `on`'s loop at name `i`: register it and go on, or throw. */
  lemma RegisterStep(h: Handlers, names: seq<string>, i: nat, id: nat)
    requires h.Keys == FRESH.Keys && i < |names|
    ensures Register(h, names[i..], id) ==
      if names[i] in h then Register(h[names[i] := h[names[i]] + [id]], names[i + 1..], id)
      else if names[i] in INHERITED then (h, Some("TypeError: this.handlers[e].push is not a function"))
      else (h, Some("Invalid event: " + names[i]))
  {
    assert names[i..][0] == names[i] && names[i..][1..] == names[i + 1..];
  }

  /** Names before the first invalid one are registered even though the call throws. */
  lemma {:induction false} RegisterPartial(h: Handlers, names: seq<string>, id: nat, k: nat)
    requires h.Keys == FRESH.Keys
    requires k < |names| && names[k] !in FRESH
    requires forall i :: 0 <= i < k ==> names[i] in FRESH
    ensures Register(h, names, id) == (Register(h, names[..k], id).0, Register(h, names[k..], id).1)
    ensures Register(h, names, id).1.Some?
    decreases |names|
  {
    if k > 0 {
      var h' := h[names[0] := h[names[0]] + [id]];
      var prefix := names[..k];
      assert names[0] in FRESH && prefix[0] == names[0];
      assert Register(h, names, id) == Register(h', names[1..], id);
      assert Register(h, prefix, id) == Register(h', prefix[1..], id);
      ValidBefore(names, k);
      RegisterPartial(h', names[1..], id, k - 1);
      assert prefix[1..] == names[1..][..k - 1];
      assert names[k..] == names[1..][k - 1..];
    }
  }

  lemma ValidBefore(names: seq<string>, k: nat)
    requires 0 < k < |names| && names[k] !in FRESH
    requires forall i :: 0 <= i < k ==> names[i] in FRESH
    ensures names[1..][k - 1] !in FRESH
    ensures forall i :: 0 <= i < k - 1 ==> names[1..][i] in FRESH
  {
  }

  /** A successful registration appends `id` to each named list once per mention. */
  lemma {:induction false} RegisterAppends(h: Handlers, names: seq<string>, id: nat, e: string)
    requires h.Keys == FRESH.Keys && e in FRESH
    requires forall i :: 0 <= i < |names| ==> names[i] in FRESH
    ensures Register(h, names, id).0[e] == h[e] + seq(multiset(names)[e], _ => id)
    decreases |names|
  {
    if names != [] {
      var h' := h[names[0] := h[names[0]] + [id]];
      RegisterAppends(h', names[1..], id, e);
      Seqs.CountCons(names, e);
      var n := multiset(names[1..])[e];
      if names[0] == e {
        assert seq(n + 1, _ => id) == [id] + seq(n, _ => id);
      }
    }
  }

  /** Every handler in `hs`, in order, called with `(roomId, room)`. */
  function NewCalls<R>(hs: seq<nat>, roomId: string, room: R): (cs: seq<HandlerCall<R>>)
    ensures |cs| == |hs|
  {
    if hs == [] then [] else NewCalls(hs[..|hs| - 1], roomId, room) + [NewRoom(hs[|hs| - 1], roomId, room)]
  }

  function DeleteCalls<R>(hs: seq<nat>, roomId: string): (cs: seq<HandlerCall<R>>)
    ensures |cs| == |hs|
  {
    if hs == [] then [] else DeleteCalls(hs[..|hs| - 1], roomId) + [DeletedRoom(hs[|hs| - 1], roomId)]
  }

  /** Each handler is called exactly once, in registration order, with the room's id (and the
      room itself for "new"). */
  lemma {:induction false} HandlerCallsAt<R>(hs: seq<nat>, roomId: string, room: R, i: nat)
    requires i < |hs|
    ensures NewCalls(hs, roomId, room)[i] == NewRoom(hs[i], roomId, room)
    ensures DeleteCalls<R>(hs, roomId)[i] == DeletedRoom(hs[i], roomId)
  {
    if i < |hs| - 1 {
      HandlerCallsAt(hs[..|hs| - 1], roomId, room, i);
    }
  }

  /** `initialize`: for each snapshot id still present, in snapshot order, every "new"
      handler with that room. */
  function Replay<R>(initial: seq<string>, rooms: Dict<R>, hs: seq<nat>): seq<HandlerCall<R>>
  {
    if initial == [] then []
    else
      Replay(initial[..|initial| - 1], rooms, hs) + RoomCalls(initial[|initial| - 1], rooms, hs)
  }

  /** The "new" calls for one snapshot id: none once the room is gone. */
  function RoomCalls<R>(roomId: string, rooms: Dict<R>, hs: seq<nat>): seq<HandlerCall<R>>
  {
    match Get(rooms, roomId)
    case Some(room) => NewCalls(hs, roomId, room)
    case None => []
  }

  function Without(ids: seq<string>, k: string): (r: seq<string>)
    ensures forall x :: x in r <==> x in ids && x != k
  {
    if ids == [] then [] else Without(ids[..|ids| - 1], k) + (if ids[|ids| - 1] != k then [ids[|ids| - 1]] else [])
  }

  /** Deleting a room before `initialize` drops exactly that room's replay. */
  lemma {:induction false} ReplayAfterDelete<R>(initial: seq<string>, rooms: Dict<R>, hs: seq<nat>, k: string)
    ensures Replay(initial, Delete(rooms, k), hs) == Replay(Without(initial, k), rooms, hs)
  {
    if initial != [] {
      var n := |initial| - 1;
      ReplayAfterDelete(initial[..n], rooms, hs, k);
      DeleteGet(rooms, k, initial[n]);
      var w := Without(initial[..n], k);
      if initial[n] != k {
        assert Without(initial, k) == w + [initial[n]];
        assert (w + [initial[n]])[..|w|] == w;
        assert Replay(w + [initial[n]], rooms, hs) == Replay(w, rooms, hs) + RoomCalls(initial[n], rooms, hs);
      } else {
        assert Without(initial, k) == w;
      }
    }
  }

  /** The replay of a snapshot is the replay of its first part followed by that of the rest:
      rooms are replayed in snapshot order, each independently of the others. */
  lemma {:induction false} ReplayAppend<R>(a: seq<string>, b: seq<string>, rooms: Dict<R>, hs: seq<nat>)
    ensures Replay(a + b, rooms, hs) == Replay(a, rooms, hs) + Replay(b, rooms, hs)
    decreases |b|
  {
    if b == [] {
      assert a + b == a;
    } else {
      var init, last := b[..|b| - 1], b[|b| - 1];
      var front := a + init;
      assert b == init + [last];
      assert a + b == front + [last];
      ReplaySnoc(front, last, rooms, hs);
      ReplaySnoc(init, last, rooms, hs);
      ReplayAppend(a, init, rooms, hs);
      CallsAssoc(Replay(a, rooms, hs), Replay(init, rooms, hs), RoomCalls(last, rooms, hs));
    }
  }

  lemma ReplayPrefixStep<R>(initial: seq<string>, k: nat, rooms: Dict<R>, hs: seq<nat>)
    requires k < |initial|
    ensures Replay(initial[..k + 1], rooms, hs) == Replay(initial[..k], rooms, hs) + RoomCalls(initial[k], rooms, hs)
  {
    assert initial[..k + 1] == initial[..k] + [initial[k]];
    ReplaySnoc(initial[..k], initial[k], rooms, hs);
  }

  lemma CallsAssoc<R>(x: seq<HandlerCall<R>>, y: seq<HandlerCall<R>>, z: seq<HandlerCall<R>>)
    ensures x + (y + z) == x + y + z
  {
  }

  lemma ReplaySnoc<R>(ids: seq<string>, x: string, rooms: Dict<R>, hs: seq<nat>)
    ensures Replay(ids + [x], rooms, hs) == Replay(ids, rooms, hs) + RoomCalls(x, rooms, hs)
  {
    assert (ids + [x])[..|ids|] == ids;
  }

  /** While every snapshot room is present, the replay makes one call per room and handler. */
  lemma {:induction false} ReplayAllPresent<R>(initial: seq<string>, rooms: Dict<R>, hs: seq<nat>)
    requires forall i :: 0 <= i < |initial| ==> initial[i] in Keys(rooms)
    ensures |Replay(initial, rooms, hs)| == |initial| * |hs|
  {
    if initial != [] {
      var n := |initial| - 1;
      ReplayAllPresent(initial[..n], rooms, hs);
      assert initial[n] in Keys(rooms);
      assert |RoomCalls(initial[n], rooms, hs)| == |hs|;
      MulSucc(n, |hs|);
    }
  }

  lemma MulSucc(n: nat, m: nat)
    ensures (n + 1) * m == n * m + m
  {
  }

  /** `handlers["new"].forEach(h => h(roomId, room))`. */
  method CallNew<R>(hs: seq<nat>, roomId: string, room: R) returns (calls: seq<HandlerCall<R>>)
    ensures calls == NewCalls(hs, roomId, room)
  {
    calls := [];
    var i := 0;
    while i < |hs|
      invariant 0 <= i <= |hs| && calls == NewCalls(hs[..i], roomId, room)
    {
      assert hs[..i + 1][..i] == hs[..i];
      calls := calls + [NewRoom(hs[i], roomId, room)];
      i := i + 1;
    }
    assert hs[..i] == hs;
  }

  class RoomListener<R> {
    var handlers: Handlers
    var rooms: Dict<R>
    const initialRooms: seq<string>

    ghost predicate Valid()
      reads this
    {
      handlers.Keys == FRESH.Keys
    }

    /** `new RoomListener(app)`: empty "new" and "delete" lists, and the ids of the rooms that
        exist now. */
    constructor (rooms: Dict<R>)
      ensures Valid() && handlers == FRESH && this.rooms == rooms && initialRooms == Keys(rooms)
    {
      handlers := FRESH;
      this.rooms := rooms;
      initialRooms := Keys(rooms);
    }

    /** `on(event, listener)`: `error` is the message it throws, if any. */
    method On(arg: ListenerProxies.EventArg, id: nat) returns (error: Option<string>)
      requires Valid()
      modifies this
      ensures Valid() && rooms == old(rooms)
      ensures (handlers, error) == Register(old(handlers), ListenerProxies.Names(arg), id)
    {
      var names := ListenerProxies.Names(arg);
      var i := 0;
      error := None;
      while i < |names|
        invariant 0 <= i <= |names| && Valid() && rooms == old(rooms)
        invariant Register(old(handlers), names, id) == Register(handlers, names[i..], id)
      {
        RegisterStep(handlers, names, i, id);
        var e := names[i];
        if e !in handlers {
          error := if e in INHERITED then Some("TypeError: this.handlers[e].push is not a function")
            else Some("Invalid event: " + e);
          return;
        }
        handlers := handlers[e := handlers[e] + [id]];
        i := i + 1;
      }
    }

    /** `app.rooms[roomId] = room`: the `set` trap runs every "new" handler, then the room is
        stored. */
    method SetRoom(roomId: string, room: R) returns (calls: seq<HandlerCall<R>>)
      requires Valid()
      modifies this
      ensures Valid() && handlers == old(handlers)
      ensures rooms == Put(old(rooms), roomId, room)
      ensures calls == NewCalls(handlers["new"], roomId, room)
    {
      calls := CallNew(handlers["new"], roomId, room);
      rooms := Put(rooms, roomId, room);
    }

    /** `delete app.rooms[roomId]`: every "delete" handler, then the room goes. */
    method DeleteRoom(roomId: string) returns (calls: seq<HandlerCall<R>>)
      requires Valid()
      modifies this
      ensures Valid() && handlers == old(handlers)
      ensures rooms == Delete(old(rooms), roomId)
      ensures calls == DeleteCalls(handlers["delete"], roomId)
    {
      calls := [];
      var hs := handlers["delete"];
      var i := 0;
      while i < |hs|
        invariant 0 <= i <= |hs| && calls == DeleteCalls(hs[..i], roomId)
      {
        assert hs[..i + 1][..i] == hs[..i];
        calls := calls + [DeletedRoom(hs[i], roomId)];
        i := i + 1;
      }
      assert hs[..i] == hs;
      rooms := Delete(rooms, roomId);
    }

    /** `initialize()`. */
    method Initialize() returns (calls: seq<HandlerCall<R>>)
      requires Valid()
      ensures calls == Replay(initialRooms, rooms, handlers["new"])
    {
      calls := [];
      var hs := handlers["new"];
      var k := 0;
      while k < |initialRooms|
        invariant 0 <= k <= |initialRooms| && calls == Replay(initialRooms[..k], rooms, hs)
      {
        var roomId := initialRooms[k];
        ReplayPrefixStep(initialRooms, k, rooms, hs);
        var found := Get(rooms, roomId);
        if found.Some? {
          var batch := CallNew(hs, roomId, found.value);
          calls := calls + batch;
        }
        k := k + 1;
      }
      assert initialRooms[..k] == initialRooms;
    }
  }
}
