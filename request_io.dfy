/**
 * The socket.io request lifecycle of kettle.requests.io (lib/request.io.js).
 *
 * `createIO` creates one request component per socket under a fresh name and
 * records it as a child of the owning component; it registers a "disconnect"
 * handler on the socket that tears the request down only while the request
 * is still registered. Both terminal events of a request (onError and
 * onSuccess) run the same two listeners in order: fire onRequestEnd, then
 * destroy the component. The reply handlers write through an optional `send`.
 *
 * The part of this that is about names and firings is first stated as a pure
 * state machine over `Registry` values; the classes further down keep the
 * owning component's state in fields and are proved to follow it.
 */
module RequestIO {
  import opened Wrappers
  import opened JsValue

  /** The generated name a request is registered under (a v4 UUID in the source). */
  type Name = string

  /** Which of the request's two terminal events fired. */
  datatype Outcome = Success | Error

  datatype EffectKind = EndKind | DestroyKind

  /** One observable step of the lifecycle, in the order it happens. */
  datatype Effect =
    | RequestEnd(name: Name, args: seq<Value>)   // onRequestEnd fired with these arguments
    | Destroy(name: Name)                        // the component was destroyed
  {
    function Kind(): EffectKind {
      if RequestEnd? then EndKind else DestroyKind
    }
  }

  /** How many effects of the given kind the log holds for the given name. */
  function Count(log: seq<Effect>, kind: EffectKind, n: Name): nat {
    if log == [] then 0
    else (if log[0].Kind() == kind && log[0].name == n then 1 else 0) + Count(log[1..], kind, n)
  }

  /** The two-effect tail of a teardown counts one of each kind, for its own name only. */
  lemma TeardownTailCount(n: Name, args: seq<Value>, kind: EffectKind, m: Name)
    ensures Count([RequestEnd(n, args), Destroy(n)], kind, m) == if m == n then 1 else 0
  {
    var tail := [RequestEnd(n, args), Destroy(n)];
    assert tail[1..] == [Destroy(n)] && [Destroy(n)][1..] == [];
    assert Count([Destroy(n)], kind, m) == if kind == DestroyKind && m == n then 1 else 0;
  }

  lemma {:induction false} CountAppend(a: seq<Effect>, b: seq<Effect>, kind: EffectKind, n: Name)
    ensures Count(a + b, kind, n) == Count(a, kind, n) + Count(b, kind, n)
  {
    if a == [] {
      assert a + b == b;
    } else {
      assert (a + b)[1..] == a[1..] + b;
      CountAppend(a[1..], b, kind, n);
    }
  }

  // ---------------------------------------------------------------------------
  // The lifecycle as a state machine over values
  // ---------------------------------------------------------------------------

  /**
   * The abstract state of the owning component: every name ever handed out,
   * the names still registered (`that[name]` is set), and the log of effects.
   */
  datatype Registry = Registry(issued: set<Name>, live: set<Name>, log: seq<Effect>)

  const Init: Registry := Registry({}, {}, [])

  /** The two listeners both terminal paths share: fire onRequestEnd, then destroy. */
  function Teardown(r: Registry, n: Name, args: seq<Value>): Registry {
    Registry(r.issued, r.live - {n}, r.log + [RequestEnd(n, args), Destroy(n)])
  }

  /** createIO: the request is registered under the new name. */
  function Created(r: Registry, n: Name): Registry {
    Registry(r.issued + {n}, r.live + {n}, r.log)
  }

  /**
   * onError or onSuccess fired with `payload`: both listener lists are
   * "onRequestEnd.fire, destroy", and each listener receives the event's
   * arguments.
   */
  function Signalled(r: Registry, n: Name, outcome: Outcome, payload: Value): Registry {
    Teardown(r, n, [payload])
  }

  /** The disconnect handler: tear down with no arguments, only while still registered. */
  function Disconnected(r: Registry, n: Name): Registry {
    if n in r.live then Teardown(r, n, []) else r
  }

  /** Every Destroy in the log directly follows the onRequestEnd of the same request. */
  ghost predicate EndsPrecedeDestroys(log: seq<Effect>) {
    forall i :: 0 <= i < |log| && log[i].Destroy? ==>
      0 < i && log[i - 1].RequestEnd? && log[i - 1].name == log[i].name
  }

  /**
   * The lifecycle invariant: a request that is still registered has not ended,
   * a request that was registered and is gone ended and was destroyed exactly
   * once, and no name that was never handed out appears in the log.
   */
  ghost predicate WellFormed(r: Registry) {
    && r.live <= r.issued
    && (forall n, k :: Count(r.log, k, n) == if n in r.issued && n !in r.live then 1 else 0)
    && EndsPrecedeDestroys(r.log)
  }

  lemma CreatedWellFormed(r: Registry, n: Name)
    requires WellFormed(r) && n !in r.issued
    ensures WellFormed(Created(r, n))
    ensures Created(r, n).live == r.live + {n} && Created(r, n).log == r.log
  {
  }

  /** A teardown of a registered request keeps the invariant. */
  lemma TeardownWellFormed(r: Registry, n: Name, args: seq<Value>)
    requires WellFormed(r) && n in r.live
    ensures WellFormed(Teardown(r, n, args))
  {
    var t := Teardown(r, n, args);
    var tail := [RequestEnd(n, args), Destroy(n)];
    forall m, k
      ensures Count(t.log, k, m) == if m in t.issued && m !in t.live then 1 else 0
    {
      CountAppend(r.log, tail, k, m);
      TeardownTailCount(n, args, k, m);
    }
    forall i | 0 <= i < |t.log| && t.log[i].Destroy?
      ensures 0 < i && t.log[i - 1].RequestEnd? && t.log[i - 1].name == t.log[i].name
    {
      if i < |r.log| {
        assert t.log[i] == r.log[i] && t.log[i - 1] == r.log[i - 1];
      }
    }
  }

  /**
   * A success or error signal on a registered request fires onRequestEnd with
   * the payload and then destroys it; afterwards the name is no longer
   * registered and every other name is as before.
   */
  lemma SignalEndsThenDestroys(r: Registry, n: Name, outcome: Outcome, payload: Value)
    requires WellFormed(r) && n in r.live
    ensures var s := Signalled(r, n, outcome, payload);
      && WellFormed(s)
      && s.log == r.log + [RequestEnd(n, [payload]), Destroy(n)]
      && s.live == r.live - {n} && n !in s.live
      && s.issued == r.issued
      && Count(s.log, EndKind, n) == 1 && Count(s.log, DestroyKind, n) == 1
  {
    TeardownWellFormed(r, n, [payload]);
  }

  /**
   * A disconnect while the request is registered fires onRequestEnd exactly
   * once, with no arguments, and removes the request.
   */
  lemma DisconnectLiveTearsDown(r: Registry, n: Name)
    requires WellFormed(r) && n in r.live
    ensures var d := Disconnected(r, n);
      && WellFormed(d)
      && d.log == r.log + [RequestEnd(n, []), Destroy(n)]
      && d.live == r.live - {n}
      && Count(d.log, EndKind, n) == Count(r.log, EndKind, n) + 1
  {
    TeardownWellFormed(r, n, []);
  }

  /** A disconnect after the request was destroyed fires nothing and changes nothing. */
  lemma DisconnectAfterEndIsNoOp(r: Registry, n: Name)
    requires n !in r.live
    ensures Disconnected(r, n) == r
  {
  }

  /**
   * "Signal, then disconnect": exactly one onRequestEnd fires for the request
   * in total, it precedes the one Destroy, and no other request's entry or
   * firings change.
   */
  lemma SignalThenDisconnect(r: Registry, n: Name, outcome: Outcome, payload: Value)
    requires WellFormed(r) && n in r.live
    ensures var d := Disconnected(Signalled(r, n, outcome, payload), n);
      && WellFormed(d)
      && d.log == r.log + [RequestEnd(n, [payload]), Destroy(n)]
      && Count(d.log, EndKind, n) == 1
      && d.live == r.live - {n}
      && forall m, k :: m != n ==> Count(d.log, k, m) == Count(r.log, k, m)
  {
    SignalEndsThenDestroys(r, n, outcome, payload);
  }

  // ---------------------------------------------------------------------------
  // Whole runs
  // ---------------------------------------------------------------------------

  /** One event the owning component reacts to. */
  datatype Op =
    | CreateOp(name: Name)
    | SignalOp(name: Name, outcome: Outcome, payload: Value)
    | DisconnectOp(name: Name)

  /**
   * The state after a run of events, or None when the run contains an event
   * outside the model: a reused name, or a signal on a request that is no
   * longer registered.
   */
  function Run(r: Registry, ops: seq<Op>): Option<Registry>
    decreases |ops|
  {
    if ops == [] then Some(r)
    else
      match ops[0]
      case CreateOp(n) => if n in r.issued then None else Run(Created(r, n), ops[1..])
      case SignalOp(n, o, p) => if n !in r.live then None else Run(Signalled(r, n, o, p), ops[1..])
      case DisconnectOp(n) => Run(Disconnected(r, n), ops[1..])
  }

  lemma {:induction false} RunWellFormed(r: Registry, ops: seq<Op>)
    requires WellFormed(r) && Run(r, ops).Some?
    ensures WellFormed(Run(r, ops).value)
    decreases |ops|
  {
    if ops != [] {
      match ops[0]
      case CreateOp(n) =>
        CreatedWellFormed(r, n);
        RunWellFormed(Created(r, n), ops[1..]);
      case SignalOp(n, o, p) =>
        SignalEndsThenDestroys(r, n, o, p);
        RunWellFormed(Signalled(r, n, o, p), ops[1..]);
      case DisconnectOp(n) =>
        if n in r.live { DisconnectLiveTearsDown(r, n); }
        RunWellFormed(Disconnected(r, n), ops[1..]);
    }
  }

  /**
   * Exactly one teardown per request: after any run from the initial state,
   * a request that is gone fired onRequestEnd once and was destroyed once,
   * with the end first; a request still registered fired neither.
   */
  lemma ExactlyOneTeardown(ops: seq<Op>, n: Name)
    requires Run(Init, ops).Some?
    ensures var r := Run(Init, ops).value;
      && (n in r.issued && n !in r.live ==>
            Count(r.log, EndKind, n) == 1 && Count(r.log, DestroyKind, n) == 1)
      && (n in r.live ==> Count(r.log, EndKind, n) == 0 && Count(r.log, DestroyKind, n) == 0)
      && EndsPrecedeDestroys(r.log)
  {
    RunWellFormed(Init, ops);
  }

  // ---------------------------------------------------------------------------
  // The owning component and its children, with their state in fields
  // ---------------------------------------------------------------------------

  /** The part of a socket.io socket that createIO touches. */
  class Socket {
    /** `socket.fluidRequest`. */
    var fluidRequest: Request?
    /** The requests whose "disconnect" handler is registered on this socket, in order. */
    var disconnectListeners: seq<Request>

    constructor ()
      ensures fluidRequest == null && disconnectListeners == []
    {
      fluidRequest := null;
      disconnectListeners := [];
    }
  }

  /** A kettle.requests.request.io component: its `name` member and its `socket` member. */
  class Request {
    const name: Name
    const socket: Socket

    constructor (name: Name, socket: Socket)
      ensures this.name == name && this.socket == socket
    {
      this.name := name;
      this.socket := socket;
    }
  }

  /** A kettle.requests.io component, the owner of the per-socket requests. */
  class RequestsIO {
    /** `that.options.components[name]`: the socket each child was configured with. */
    var componentOptions: map<Name, Socket>
    /** `that[name]`: the children currently instantiated. */
    var components: map<Name, Request>
    /** Every onRequestEnd firing and destroy of the children, in order. */
    var log: seq<Effect>
    /** Every child ever created, by name. */
    ghost var created: map<Name, Request>

    ghost function State(): Registry
      reads this
    {
      Registry(created.Keys, components.Keys, log)
    }

    ghost predicate Valid()
      reads this
    {
      && componentOptions.Keys == created.Keys
      && (forall n :: n in components ==> n in created && components[n] == created[n])
      && (forall n :: n in created ==> created[n].name == n && created[n].socket == componentOptions[n])
      && WellFormed(State())
    }

    constructor ()
      ensures Valid() && State() == Init
      ensures componentOptions == map[] && components == map[]
    {
      componentOptions := map[];
      components := map[];
      log := [];
      created := map[];
    }

    /**
     * createIO(socket) with `name` the freshly generated name: records the
     * child's options, instantiates it, registers the disconnect handler on
     * the socket and sets `socket.fluidRequest` to the new request.
     */
    method CreateIO(socket: Socket, name: Name)
      requires Valid() && name !in created
      modifies this, socket
      ensures Valid()
      ensures State() == Created(old(State()), name)
      ensures componentOptions == old(componentOptions)[name := socket]
      ensures name in components && fresh(components[name])
      ensures created == old(created)[name := components[name]]
      ensures components == old(components)[name := components[name]]
      ensures components[name].name == name && components[name].socket == socket
      ensures log == old(log)
      ensures socket.fluidRequest == components[name]
      ensures socket.disconnectListeners == old(socket.disconnectListeners) + [components[name]]
    {
      componentOptions := componentOptions[name := socket];
      var request := new Request(name, socket);
      components := components[name := request];
      created := created[name := request];
      socket.disconnectListeners := socket.disconnectListeners + [request];
      socket.fluidRequest := request;
      assert created.Keys == old(created).Keys + {name};
      assert components.Keys == old(components).Keys + {name};
      assert State() == Created(old(State()), name);
      CreatedWellFormed(old(State()), name);
    }

    /**
     * `request.events.onRequestEnd.fire(args...)`: the first of the two steps
     * inside Signal and OnDisconnect, which restore Valid() after both; it is
     * not an operation of its own.
     */
    method FireRequestEnd(name: Name, args: seq<Value>)
      modifies this
      ensures log == old(log) + [RequestEnd(name, args)]
      ensures components == old(components) && componentOptions == old(componentOptions)
      ensures created == old(created)
    {
      log := log + [RequestEnd(name, args)];
    }

    /**
     * `request.destroy()`: the child is removed from its parent. The second
     * of the two steps inside Signal and OnDisconnect; not an operation of
     * its own.
     */
    method DestroyChild(name: Name)
      modifies this
      ensures log == old(log) + [Destroy(name)]
      ensures components == old(components) - {name}
      ensures componentOptions == old(componentOptions) && created == old(created)
    {
      components := components - {name};
      log := log + [Destroy(name)];
    }

    /**
     * The request's onError or onSuccess event fired with `payload`: the
     * listener list runs onRequestEnd.fire, then destroy.
     */
    method Signal(request: Request, outcome: Outcome, payload: Value)
      requires Valid() && request.name in components && components[request.name] == request
      modifies this
      ensures Valid()
      ensures State() == Signalled(old(State()), request.name, outcome, payload)
      ensures components == old(components) - {request.name}
      ensures componentOptions == old(componentOptions) && created == old(created)
    {
      ghost var before := State();
      FireRequestEnd(request.name, [payload]);
      DestroyChild(request.name);
      assert State() == Signalled(before, request.name, outcome, payload);
      SignalEndsThenDestroys(before, request.name, outcome, payload);
    }

    /**
     * The "disconnect" handler that CreateIO registered for `request`: when
     * the request is still registered, fire onRequestEnd and destroy it;
     * otherwise do nothing.
     */
    method OnDisconnect(request: Request)
      requires Valid() && request.name in created && created[request.name] == request
      modifies this
      ensures Valid()
      ensures State() == Disconnected(old(State()), request.name)
      ensures old(request.name in components) ==> components == old(components) - {request.name}
      ensures !old(request.name in components) ==> unchanged(this)
      ensures componentOptions == old(componentOptions) && created == old(created)
    {
      if request.name in components {
        ghost var before := State();
        FireRequestEnd(request.name, []);
        DestroyChild(request.name);
        assert State() == Disconnected(before, request.name);
        DisconnectLiveTearsDown(before, request.name);
      }
    }
  }

  /**
   * "Signal, then disconnect" on a fresh component: the disconnect handler
   * is still callable after the signal, and the request ends exactly once
   * and is destroyed exactly once.
   */
  method SignalThenDisconnectOrder() returns (ends: nat, destroys: nat)
    ensures ends == 1 && destroys == 1
  {
    var io := new RequestsIO();
    var socket := new Socket();
    io.CreateIO(socket, "a");
    var a := io.components["a"];
    assert io.log == [];
    io.Signal(a, Success, Null);
    assert io.log == [RequestEnd("a", [Null]), Destroy("a")];
    io.OnDisconnect(a);
    assert io.log == [RequestEnd("a", [Null]), Destroy("a")];
    ends := Count(io.log, EndKind, "a");
    destroys := Count(io.log, DestroyKind, "a");
  }

  /**
   * "Disconnect, then disconnect again" on a fresh component: the second
   * disconnect meets the guard and does nothing, so the request ends exactly
   * once and is destroyed exactly once.
   */
  method DoubleDisconnectOrder() returns (ends: nat, destroys: nat)
    ensures ends == 1 && destroys == 1
  {
    var io := new RequestsIO();
    var socket := new Socket();
    io.CreateIO(socket, "b");
    var b := io.components["b"];
    assert io.log == [];
    io.OnDisconnect(b);
    assert io.log == [RequestEnd("b", []), Destroy("b")];
    io.OnDisconnect(b);
    assert io.log == [RequestEnd("b", []), Destroy("b")];
    ends := Count(io.log, EndKind, "b");
    destroys := Count(io.log, DestroyKind, "b");
  }

  // ---------------------------------------------------------------------------
  // The reply handlers
  // ---------------------------------------------------------------------------

  /** One call `send(payload)` of the request's send function. */
  datatype SendCall = SendCall(send: Value, payload: Value)

  /** The payload written when an error is signalled without one. */
  const UnknownError: Value := Obj(map["isError" := Bool(true), "message" := Str("Unknown error")])

  /**
   * onErrorHandler(send, error): nothing when `send` is falsy; a TypeError
   * when `send` is truthy but not a function; otherwise one call of `send`,
   * with the error when it is truthy and with UnknownError in its place when
   * it is not.
   */
  function OnErrorHandler(send: Value, error: Value): (r: Result<seq<SendCall>, JsError>)
    ensures r.Err? <==> Truthy(send) && !send.Fn?
    ensures r.Ok? ==> |r.value| == if send.Fn? then 1 else 0
    ensures r.Ok? ==> forall c :: c in r.value ==> c.send == send && Truthy(c.payload)
    ensures r.Ok? && Truthy(error) ==> forall c :: c in r.value ==> c.payload == error
    ensures r.Ok? && !Truthy(error) ==> forall c :: c in r.value ==> c.payload == UnknownError
  {
    if !Truthy(send) then Ok([])
    else if !send.Fn? then Err(TypeError)
    else
      var e := Or(error, UnknownError);
      Ok([SendCall(send, e)])
  }

  /**
   * onSuccessHandler(send, response): nothing when `send` is falsy; a
   * TypeError when `send` is truthy but not a function; otherwise one call
   * of `send` with the response unchanged.
   */
  function OnSuccessHandler(send: Value, response: Value): (r: Result<seq<SendCall>, JsError>)
    ensures r.Err? <==> Truthy(send) && !send.Fn?
    ensures r.Ok? ==> |r.value| == if send.Fn? then 1 else 0
    ensures r.Ok? ==> forall c :: c in r.value ==> c == SendCall(send, response)
  {
    if !Truthy(send) then Ok([])
    else if !send.Fn? then Err(TypeError)
    else Ok([SendCall(send, response)])
  }

  /**
   * Errors and successes go out through the same write path: the error
   * handler is the success handler applied to the error with the fallback
   * substituted.
   */
  lemma ErrorRepliesLikeSuccess(send: Value, error: Value)
    ensures OnErrorHandler(send, error) == OnSuccessHandler(send, Or(error, UnknownError))
  {
  }
}
