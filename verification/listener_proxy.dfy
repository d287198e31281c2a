/** `ListenerProxy` and its two subclasses: a registry of listeners per event name, the
    emission order, and which events each proxy trap emits.

    A listener is identified by a number; calling it is recorded as a `Call`, so an emission
    is the sequence of calls it makes. The one listener the library registers itself, the
    `ArrayListenerProxy` relay that turns `set` and `deleteProperty` into `mutate`, is its
    own constructor. */
module ListenerProxies {
  import opened Wrappers
  import Seqs

  /** A registered listener: one of the user's, or the array proxy's mutate relay. */
  datatype Listener = User(id: nat) | MutateRelay

  /** What a listener receives after the event name and the target. */
  datatype Payload =
    | TrapArgs                        // the trap's own remaining arguments
    | MutateByTrap(trap: string)      // `{ event, args }` from the relay
    | MutateByMethod(name: string)    // `{ type: prop, args }` from a wrapped array method
    | ApplyArgs                       // `{ thisArg, argumentsList }` from the function proxy

  /** One listener invocation. */
  datatype Call = Call(listener: nat, event: string, payload: Payload)

  /** `on`'s first argument: one name or an array of names. */
  datatype EventArg = One(name: string) | Many(names: seq<string>)

  function Names(arg: EventArg): (ns: seq<string>)
    ensures arg.One? ==> ns == [arg.name]
  {
    match arg
    case One(n) => [n]
    case Many(ns) => ns
  }

  type Events = map<string, seq<Listener>>

  /** Names that `this.events = {}` already answers through `Object.prototype`: for them
      `!this.events[e]` is false, so nothing is created and the `push` (or `forEach`) that
      follows throws. */
  const INHERITED: seq<string> := ["constructor", "hasOwnProperty", "isPrototypeOf",
    "propertyIsEnumerable", "toLocaleString", "toString", "valueOf", "__proto__",
    "__defineGetter__", "__defineSetter__", "__lookupGetter__", "__lookupSetter__"]

  const PUSH_ERROR := "TypeError: this.events[e].push is not a function"
  const FOR_EACH_ERROR := "TypeError: this.events[event]?.forEach is not a function"

  /** `this.events[e]`, with a missing list read as empty. */
  function ListenersOf(ev: Events, e: string): seq<Listener> {
    if e in ev then ev[e] else []
  }

  /** `if (!this.events[e]) this.events[e] = []; this.events[e].push(l)`. */
  function Register(ev: Events, e: string, l: Listener): (r: Result<Events>)
    ensures r.Ok? <==> e !in INHERITED
    ensures r.Err? ==> r.error == PUSH_ERROR
    ensures r.Ok? ==> ListenersOf(r.value, e) == ListenersOf(ev, e) + [l]
  {
    if e in INHERITED then Err(PUSH_ERROR) else Ok(ev[e := ListenersOf(ev, e) + [l]])
  }

  /** Registering under one name leaves every other name's list as it was. */
  lemma RegisterFrame(ev: Events, e: string, l: Listener, x: string)
    requires e !in INHERITED && x != e
    ensures ListenersOf(Register(ev, e, l).value, x) == ListenersOf(ev, x)
  {
  }

  /** `event.forEach(...)`: registration for each name, left to right; the first inherited
      name throws, leaving the names before it registered. */
  function RegisterAll(ev: Events, names: seq<string>, l: Listener): (Events, Option<string>)
    decreases |names|
  {
    if names == [] then (ev, None)
    else match Register(ev, names[0], l)
      case Err(msg) => (ev, Some(msg))
      case Ok(ev') => RegisterAll(ev', names[1..], l)
  }

  function Repeat(l: Listener, n: nat): (r: seq<Listener>)
    ensures |r| == n && forall i :: 0 <= i < n ==> r[i] == l
  {
    if n == 0 then [] else Repeat(l, n - 1) + [l]
  }

  /** After registering `l` under names none of which is inherited, the call does not throw
      and each event's list is its old list followed by `l` once per occurrence of the event
      in `names`; there is no de-duplication. */
  lemma {:induction false} RegisterAllListeners(ev: Events, names: seq<string>, l: Listener, e: string)
    requires forall n :: n in names ==> n !in INHERITED
    ensures RegisterAll(ev, names, l).1.None?
    ensures ListenersOf(RegisterAll(ev, names, l).0, e) == ListenersOf(ev, e) + Repeat(l, multiset(names)[e])
    decreases |names|
  {
    if names != [] {
      RegisterHead(ev, names, l, e);
      var ev' := Register(ev, names[0], l).value;
      RegisterAllListeners(ev', names[1..], l, e);
      RepeatOfCount(l, names, e);
    }
  }

  /** `l` repeated once per occurrence of `e`, split at the first name. */
  lemma RepeatOfCount(l: Listener, names: seq<string>, e: string)
    requires names != []
    ensures Repeat(l, multiset(names)[e]) ==
      (if names[0] == e then [l] else []) + Repeat(l, multiset(names[1..])[e])
  {
    Seqs.CountCons(names, e);
    if names[0] == e {
      RepeatCons(l, multiset(names[1..])[e]);
    }
  }

  /** The first name of a list without inherited names: it is registered, and the rest
      follow. */
  lemma RegisterHead(ev: Events, names: seq<string>, l: Listener, e: string)
    requires names != [] && forall n :: n in names ==> n !in INHERITED
    ensures forall n :: n in names[1..] ==> n !in INHERITED
    ensures Register(ev, names[0], l).Ok?
    ensures RegisterAll(ev, names, l) == RegisterAll(Register(ev, names[0], l).value, names[1..], l)
    ensures ListenersOf(Register(ev, names[0], l).value, e) ==
      ListenersOf(ev, e) + (if names[0] == e then [l] else [])
  {
    assert names[0] in names;
  }

  lemma {:induction false} RepeatCons(l: Listener, n: nat)
    ensures Repeat(l, n + 1) == [l] + Repeat(l, n)
  {
    if n > 0 {
      RepeatCons(l, n - 1);
    }
  }

  /** An inherited name throws the `push` error; the names before the first inherited one
      are registered all the same. */
  lemma {:induction false} RegisterAllThrows(ev: Events, names: seq<string>, l: Listener, k: nat)
    requires k < |names| && names[k] in INHERITED
    requires forall i :: 0 <= i < k ==> names[i] !in INHERITED
    ensures RegisterAll(ev, names, l) == (RegisterAll(ev, names[..k], l).0, Some(PUSH_ERROR))
    decreases k
  {
    if k > 0 {
      var ev' := Register(ev, names[0], l).value;
      assert names[1..][k - 1] == names[k];
      assert forall i :: 0 <= i < k - 1 ==> names[1..][i] == names[i + 1];
      RegisterAllThrows(ev', names[1..], l, k - 1);
      assert names[..k][1..] == names[1..][..k - 1];
    }
  }

  /** Lists of events other than the named ones are untouched, whether or not the call
      throws. */
  lemma {:induction false} RegisterAllOthers(ev: Events, arg: EventArg, l: Listener, e: string)
    requires e !in Names(arg)
    ensures ListenersOf(RegisterAll(ev, Names(arg), l).0, e) == ListenersOf(ev, e)
  {
    RegisterAllFrame(ev, Names(arg), l, e);
  }

  lemma {:induction false} RegisterAllFrame(ev: Events, names: seq<string>, l: Listener, e: string)
    requires e !in names
    ensures ListenersOf(RegisterAll(ev, names, l).0, e) == ListenersOf(ev, e)
    decreases |names|
  {
    if names != [] && names[0] !in INHERITED {
      assert forall x :: x in names[1..] ==> x in names;
      RegisterFrame(ev, names[0], l, e);
      RegisterAllFrame(Register(ev, names[0], l).value, names[1..], l, e);
    }
  }

  // ---- emission ----

  /** The calls listeners `ls` make for `event`, in order. The relay emits `mutate` from
      inside its call; `depth` bounds that nesting (the relay is only ever registered on
      `set` and `deleteProperty`, so one level is all that happens). */
  function Calls(ev: Events, ls: seq<Listener>, event: string, p: Payload, depth: nat): seq<Call>
    decreases depth, 1, |ls|
  {
    if ls == [] then []
    else Calls(ev, ls[..|ls| - 1], event, p, depth) + CallOne(ev, ls[|ls| - 1], event, p, depth)
  }

  function CallOne(ev: Events, l: Listener, event: string, p: Payload, depth: nat): seq<Call>
    decreases depth, 0, 0
  {
    match l
    case User(id) => [Call(id, event, p)]
    case MutateRelay => if depth == 0 then [] else EmitAt(ev, "mutate", MutateByTrap(event), depth - 1)
  }

  /** `_emit(event)`: the event's own listeners in registration order, then every `"*"`
      listener in registration order. */
  function EmitAt(ev: Events, event: string, p: Payload, depth: nat): seq<Call>
    decreases depth, 2, 0
  {
    Calls(ev, ListenersOf(ev, event), event, p, depth) + Calls(ev, ListenersOf(ev, "*"), event, p, depth)
  }

  lemma {:induction false} CallsAppend(ev: Events, a: seq<Listener>, b: seq<Listener>, event: string, p: Payload, depth: nat)
    ensures Calls(ev, a + b, event, p, depth) == Calls(ev, a, event, p, depth) + Calls(ev, b, event, p, depth)
    decreases |b|
  {
    if b == [] {
      assert a + b == a;
    } else {
      var n := |b| - 1;
      assert (a + b)[..|a + b| - 1] == a + b[..n];
      CallsAppend(ev, a, b[..n], event, p, depth);
    }
  }

  lemma CallsStep(ev: Events, ls: seq<Listener>, i: nat, event: string, p: Payload, depth: nat)
    requires i < |ls|
    ensures Calls(ev, ls[..i + 1], event, p, depth) == Calls(ev, ls[..i], event, p, depth) + CallOne(ev, ls[i], event, p, depth)
  {
    assert ls[..i + 1][..i] == ls[..i];
  }

  /** Only user listeners: each fires once, in list order, with the emitted event. */
  lemma {:induction false} CallsOfUsers(ev: Events, ls: seq<Listener>, event: string, p: Payload, depth: nat)
    requires forall i :: 0 <= i < |ls| ==> ls[i].User?
    ensures |Calls(ev, ls, event, p, depth)| == |ls|
    ensures forall i :: 0 <= i < |ls| ==> Calls(ev, ls, event, p, depth)[i] == Call(ls[i].id, event, p)
    decreases |ls|
  {
    if ls != [] {
      CallsOfUsers(ev, ls[..|ls| - 1], event, p, depth);
    }
  }

  /** A listener registered on `event` (not `"*"`) fires after that event's earlier listeners
      and before every `"*"` listener; registering it twice makes it fire twice. */
  lemma RegisterThenEmit(ev: Events, event: string, id: nat, p: Payload, depth: nat)
    requires event != "*" && event !in INHERITED
    ensures var ev' := Register(ev, event, User(id)).value;
      EmitAt(ev', event, p, depth)
      == Calls(ev', ListenersOf(ev, event), event, p, depth) + [Call(id, event, p)]
        + Calls(ev', ListenersOf(ev, "*"), event, p, depth)
  {
    var ev' := Register(ev, event, User(id)).value;
    CallsAppend(ev', ListenersOf(ev, event), [User(id)], event, p, depth);
    assert Calls(ev', [User(id)], event, p, depth) == [Call(id, event, p)] by {
      assert [User(id)][..0] == [];
    }
  }

  /** Lists without the relay make the same calls however deep nesting may go. */
  lemma {:induction false} RelayFreeCalls(ev: Events, ls: seq<Listener>, event: string, p: Payload, d1: nat, d2: nat)
    requires MutateRelay !in ls
    ensures Calls(ev, ls, event, p, d1) == Calls(ev, ls, event, p, d2)
    decreases |ls|
  {
    if ls != [] {
      RelayFreeCalls(ev, ls[..|ls| - 1], event, p, d1, d2);
      assert ls[|ls| - 1] in ls;
    }
  }

  /** The relay is registered on `set` and `deleteProperty` only, ahead of every other
      listener there, and only by the array proxy. */
  ghost predicate RelayPlaced(ev: Events, isArray: bool) {
    && (forall e :: e in ev && MutateRelay in ev[e] ==> isArray && (e == "set" || e == "deleteProperty"))
    && (isArray ==> forall e :: e == "set" || e == "deleteProperty" ==>
          |ListenersOf(ev, e)| > 0 && ListenersOf(ev, e)[0] == MutateRelay
          && MutateRelay !in ListenersOf(ev, e)[1..])
  }

  /** The nested `mutate` emission never meets the relay again, so the bounded emission at
      depth 1 is the whole emission. */
  lemma MutateIsFlat(ev: Events, isArray: bool, q: Payload, d: nat)
    requires RelayPlaced(ev, isArray)
    ensures EmitAt(ev, "mutate", q, 0) == EmitAt(ev, "mutate", q, d)
  {
    RelayFreeCalls(ev, ListenersOf(ev, "mutate"), "mutate", q, 0, d);
    RelayFreeCalls(ev, ListenersOf(ev, "*"), "mutate", q, 0, d);
  }

  /** On an array proxy, a `set` or `deleteProperty` first emits `mutate` (with the trap's
      name as payload), then runs the trap event's own and `"*"` listeners. */
  lemma ArrayTrapEmitsMutate(ev: Events, trap: string, p: Payload)
    requires RelayPlaced(ev, true) && (trap == "set" || trap == "deleteProperty")
    ensures EmitAt(ev, trap, p, 1)
      == EmitAt(ev, "mutate", MutateByTrap(trap), 0)
        + Calls(ev, ListenersOf(ev, trap)[1..], trap, p, 1)
        + Calls(ev, ListenersOf(ev, "*"), trap, p, 1)
  {
    var ls := ListenersOf(ev, trap);
    assert ls == [ls[0]] + ls[1..];
    CallsAppend(ev, [ls[0]], ls[1..], trap, p, 1);
    assert [ls[0]][..0] == [];
    assert Calls(ev, [MutateRelay], trap, p, 1) == CallOne(ev, MutateRelay, trap, p, 1);
  }

  // ---- the proxy ----

  /** The subclass a proxy was built as. */
  datatype Kind = Plain | ArrayProxy | FunctionProxy

  /** `ListenerProxy.proxyMethods`: the traps the handler installs (`set` is listed twice). */
  const PROXY_METHODS: seq<string> := ["get", "set", "apply", "construct", "defineProperty",
    "deleteProperty", "getOwnPropertyDescriptor", "getPrototypeOf", "has", "isExtensible",
    "ownKeys", "preventExtensions", "set"]

  /** `ArrayListenerProxy.mutatingArrayMethods`. */
  const MUTATING_ARRAY_METHODS: seq<string> := ["copyWithin", "fill", "pop", "push", "reverse",
    "shift", "sort", "splice", "unshift"]

  /** An operation on the proxy, named by the trap it goes through. */
  datatype Op = GetOp(prop: string) | SetOp(prop: string) | DeleteOp(prop: string) | ApplyOp | OtherOp(trap: string)

  function TrapName(op: Op): string {
    match op
    case GetOp(_) => "get"
    case SetOp(_) => "set"
    case DeleteOp(_) => "deleteProperty"
    case ApplyOp => "apply"
    case OtherOp(t) => t
  }

  /** What the trap hands back: the `Reflect` result of its own trap, a wrapped mutating
      array method, the wrapped method's application, or `proxyFn`'s result. */
  datatype Outcome = Reflected(trap: string) | MethodWrapper(name: string) | MethodApplied(name: string) | ProxyFnResult

  class ListenerProxy {
    const kind: Kind
    var events: Events

    ghost predicate Valid()
      reads this
    {
      RelayPlaced(events, kind == ArrayProxy)
    }

    /** `new ListenerProxy(target)` and the two subclass constructors; the array proxy
        registers its relay on `set` and `deleteProperty`. */
    constructor (kind: Kind)
      ensures this.kind == kind && Valid()
      ensures events == if kind == ArrayProxy then map["set" := [MutateRelay], "deleteProperty" := [MutateRelay]] else map[]
    {
      this.kind := kind;
      events := map[];
      new;
      if kind == ArrayProxy {
        var error := On(Many(["set", "deleteProperty"]), MutateRelay);
        RelayRegistration();
      }
    }

    /** `on(event, listener)`: the names in turn, until an inherited one throws. */
    method On(arg: EventArg, l: Listener) returns (error: Option<string>)
      requires l.User? ==> Valid()
      requires l == MutateRelay ==> kind == ArrayProxy && events == map[] && Names(arg) == ["set", "deleteProperty"]
      modifies this
      ensures (events, error) == RegisterAll(old(events), Names(arg), l)
      ensures Valid()
    {
      var names := Names(arg);
      if l == MutateRelay {
        RelayRegistration();
      } else {
        RegisterUsersKeepsRelay(events, names, l, kind == ArrayProxy);
      }
      error := None;
      var i := 0;
      while i < |names|
        invariant 0 <= i <= |names|
        invariant RegisterAll(old(events), names, l) == RegisterAll(events, names[i..], l)
      {
        assert names[i..][0] == names[i] && names[i..][1..] == names[i + 1..];
        var r := Register(events, names[i], l);
        if r.Err? {
          error := Some(r.error);
          return;
        }
        events := r.value;
        i := i + 1;
      }
      assert names[i..] == [];
    }

    /** `_emit(event, target, ...args)`. For an inherited name `this.events[event]` is a
        function of `Object.prototype`, which has no `forEach`, so the call throws before any
        listener runs. */
    method Emit(event: string, p: Payload) returns (trace: seq<Call>, error: Option<string>)
      ensures event in INHERITED ==> trace == [] && error == Some(FOR_EACH_ERROR)
      ensures event !in INHERITED ==> trace == EmitAt(events, event, p, 1) && error.None?
    {
      if event in INHERITED {
        return [], Some(FOR_EACH_ERROR);
      }
      trace := Notify(ListenersOf(events, event), event, p, 1);
      var star := Notify(ListenersOf(events, "*"), event, p, 1);
      trace := trace + star;
      error := None;
    }

    /** One `forEach` over a listener list. */
    method Notify(ls: seq<Listener>, event: string, p: Payload, depth: nat) returns (trace: seq<Call>)
      ensures trace == Calls(events, ls, event, p, depth)
      decreases depth
    {
      trace := [];
      var i := 0;
      while i < |ls|
        invariant 0 <= i <= |ls|
        invariant trace == Calls(events, ls[..i], event, p, depth)
        decreases |ls| - i
      {
        CallsStep(events, ls, i, event, p, depth);
        match ls[i] {
          case User(id) =>
            assert CallOne(events, ls[i], event, p, depth) == [Call(id, event, p)];
            trace := trace + [Call(id, event, p)];
          case MutateRelay =>
            if depth > 0 {
              var own := Notify(ListenersOf(events, "mutate"), "mutate", MutateByTrap(event), depth - 1);
              var star := Notify(ListenersOf(events, "*"), "mutate", MutateByTrap(event), depth - 1);
              assert CallOne(events, ls[i], event, p, depth) == own + star;
              trace := trace + (own + star);
            } else {
              assert CallOne(events, ls[i], event, p, depth) == [];
            }
        }
        i := i + 1;
      }
      assert ls[..i] == ls;
    }

    /** One operation through the proxy: the calls its trap makes and what it returns. */
    method Trap(op: Op) returns (trace: seq<Call>, outcome: Outcome)
      ensures TrapName(op) !in PROXY_METHODS ==> trace == [] && outcome == Reflected(TrapName(op))
      ensures kind == ArrayProxy && op.GetOp? && op.prop in MUTATING_ARRAY_METHODS ==>
        trace == [] && outcome == MethodWrapper(op.prop)
      ensures kind == FunctionProxy && op.ApplyOp? ==>
        trace == EmitAt(events, "apply", ApplyArgs, 1) && outcome == ProxyFnResult
      ensures
        (&& TrapName(op) in PROXY_METHODS
         && !(kind == ArrayProxy && op.GetOp? && op.prop in MUTATING_ARRAY_METHODS)
         && !(kind == FunctionProxy && op.ApplyOp?)) ==>
        trace == EmitAt(events, TrapName(op), TrapArgs, 1) && outcome == Reflected(TrapName(op))
    {
      var name := TrapName(op);
      if name !in PROXY_METHODS {
        trace, outcome := [], Reflected(name);
      } else if kind == ArrayProxy && op.GetOp? && op.prop in MUTATING_ARRAY_METHODS {
        trace, outcome := [], MethodWrapper(op.prop);
      } else if kind == FunctionProxy && op.ApplyOp? {
        TrapsNotInherited();
        var error;
        trace, error := Emit("apply", ApplyArgs);
        outcome := ProxyFnResult;
      } else {
        TrapsNotInherited();
        var error;
        trace, error := Emit(name, TrapArgs);
        outcome := Reflected(name);
      }
    }

    /** Calling a wrapped mutating array method: `mutate` first, then the original `get`
        trap (which emits `get`), then the method is applied to the bare array. */
    method CallWrapper(name: string) returns (trace: seq<Call>, outcome: Outcome)
      requires kind == ArrayProxy && name in MUTATING_ARRAY_METHODS
      ensures trace == EmitAt(events, "mutate", MutateByMethod(name), 1) + EmitAt(events, "get", TrapArgs, 1)
      ensures outcome == MethodApplied(name)
    {
      TrapsNotInherited();
      var error;
      trace, error := Emit("mutate", MutateByMethod(name));
      var got;
      got, error := Emit("get", TrapArgs);
      trace := trace + got;
      outcome := MethodApplied(name);
    }
  }

  /** No trap of the handler is named like an inherited property, so trap events never
      throw in `_emit`. */
  lemma TrapsNotInherited()
    ensures forall t :: t in PROXY_METHODS ==> t !in INHERITED
    ensures "mutate" !in INHERITED && "get" !in INHERITED && "apply" !in INHERITED
  {
  }

  /** The array proxy's constructor registers the relay on exactly its two events. */
  lemma RelayRegistration()
    ensures var r := RegisterAll(map[], ["set", "deleteProperty"], MutateRelay);
      && r == (map["set" := [MutateRelay], "deleteProperty" := [MutateRelay]], None)
      && RelayPlaced(r.0, true)
  {
    var names := ["set", "deleteProperty"];
    var empty: Events := map[];
    var ev1 := Register(empty, "set", MutateRelay).value;
    assert ListenersOf(empty, "set") + [MutateRelay] == [MutateRelay];
    assert ev1 == empty["set" := [MutateRelay]];
    assert ev1.Keys == {"set"} && ev1["set"] == [MutateRelay];
    assert ev1 == map["set" := [MutateRelay]];
    assert names[1..] == ["deleteProperty"];
    assert RegisterAll(empty, names, MutateRelay) == RegisterAll(ev1, ["deleteProperty"], MutateRelay);
    assert ["deleteProperty"][1..] == [];
    assert RegisterAll(ev1, ["deleteProperty"], MutateRelay) == (Register(ev1, "deleteProperty", MutateRelay).value, None);
  }

  /** Registering a user listener under one name keeps the relay where it is. */
  lemma RegisterUserKeepsRelay(ev: Events, e: string, l: Listener, isArray: bool)
    requires l.User? && RelayPlaced(ev, isArray) && e !in INHERITED
    ensures RelayPlaced(Register(ev, e, l).value, isArray)
  {
    var ev' := Register(ev, e, l).value;
    forall x | x in ev' && MutateRelay in ev'[x]
      ensures isArray && (x == "set" || x == "deleteProperty")
    {
      if x == e {
        assert ev'[x] == ListenersOf(ev, e) + [l];
      } else {
        assert ev'[x] == ev[x];
      }
    }
    if isArray {
      forall x | x == "set" || x == "deleteProperty"
        ensures |ListenersOf(ev', x)| > 0 && ListenersOf(ev', x)[0] == MutateRelay
        ensures MutateRelay !in ListenersOf(ev', x)[1..]
      {
        if x == e {
          assert ListenersOf(ev', x)[1..] == ListenersOf(ev, x)[1..] + [l];
        } else {
          RegisterFrame(ev, e, l, x);
        }
      }
    }
  }

  /** Registering a user listener, whether or not the call throws, keeps the relay where it
      is. */
  lemma {:induction false} RegisterUsersKeepsRelay(ev: Events, names: seq<string>, l: Listener, isArray: bool)
    requires l.User? && RelayPlaced(ev, isArray)
    ensures RelayPlaced(RegisterAll(ev, names, l).0, isArray)
    decreases |names|
  {
    if names != [] && names[0] !in INHERITED {
      RegisterUserKeepsRelay(ev, names[0], l, isArray);
      RegisterUsersKeepsRelay(Register(ev, names[0], l).value, names[1..], l, isArray);
    }
  }
}
