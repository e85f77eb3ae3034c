/**
  The registration builder of src/core/kernel.ts.

  A `Kernel` holds `portsMap`: port key -> port, where a port may carry an
  `eventsMap`: event key -> the ordered list of its middleware handlers. The
  source rebinds the methods `handle` and `use` as the registration goes on;
  here that hidden state is the explicit cursor `handlePort` (the port bound
  into `handle`) and `useTarget` (the port and event bound into `use`), and
  `Handle` and `Use` dispatch on it.

  The pure functions below give the effect of each registration on the map;
  the class methods are proved to perform exactly those updates.
*/
module Registry {
  import opened Wrappers

  /** The handlers registered for one event, in call order (kernel.ts lines 68-70). */
  datatype EventHandler<M> = EventHandler(handlers: seq<M>)

  /** A registered port; a port passed in as `{}` has no `eventsMap` yet (lines 64-66). */
  datatype PortEntry<E, M> = PortEntry(eventsMap: Option<map<E, EventHandler<M>>>)

  /** What the registration methods throw. */
  datatype KernelError<P> =
    | PortNotRegistered(key: P)   // `port with key ${key} is not registered`
    | HandleBeforePort            // '"handle" must be used followed by "port" method'
    | UseBeforeHandle             // '"use" must be used followed by "handle" method'
    | UndefinedPropertyRead       // TypeError: a property read on an undefined port or eventsMap

  /** The handler list of event `e` on port `p`, empty when either is not registered. */
  function Handlers<P, E, M>(ports: map<P, PortEntry<E, M>>, p: P, e: E): seq<M>
  {
    if p in ports && ports[p].eventsMap.Some? && e in ports[p].eventsMap.value
    then ports[p].eventsMap.value[e].handlers
    else []
  }

  /** The port `p` exists and has an `eventsMap`, so middleware can be registered on it. */
  predicate HasEvents<P, E, M>(ports: map<P, PortEntry<E, M>>, p: P)
  {
    p in ports && ports[p].eventsMap.Some?
  }

  /** `registerPort(key, port)` on the map (lines 9-12): an existing port for `key` is kept and `port` ignored. */
  function AddPort<P, E, M>(ports: map<P, PortEntry<E, M>>, key: P, port: PortEntry<E, M>): (r: map<P, PortEntry<E, M>>)
    ensures r.Keys == ports.Keys + {key}
    ensures forall q :: q in ports ==> r[q] == ports[q]
    ensures key !in ports ==> r[key] == port
  {
    if key in ports then ports else ports[key := port]
  }

  /**
    `registerEvent(portKey, eventKey)` on the map (lines 27-36): an unregistered
    port throws; a port without `eventsMap` gets one holding only `eventKey`
    with no handlers; a port that already has one is left exactly as it was.
  */
  function AddEvent<P, E, M>(ports: map<P, PortEntry<E, M>>, p: P, e: E): (r: Result<map<P, PortEntry<E, M>>, KernelError<P>>)
    ensures r.Err? <==> p !in ports
    ensures r.Err? ==> r.error == UndefinedPropertyRead
    ensures r.Ok? ==> r.value.Keys == ports.Keys && HasEvents(r.value, p)
    ensures r.Ok? ==> forall q :: q in ports && q != p ==> r.value[q] == ports[q]
    ensures r.Ok? && ports[p].eventsMap.Some? ==> r.value == ports
    ensures r.Ok? && ports[p].eventsMap.None? ==>
              r.value[p].eventsMap.value.Keys == {e} && Handlers(r.value, p, e) == []
  {
    if p !in ports then Err(UndefinedPropertyRead)
    else if ports[p].eventsMap.Some? then Ok(ports)
    else Ok(ports[p := PortEntry(Some(map[e := EventHandler([])]))])
  }

  /**
    `registerMiddleware(portKey, eventKey, m)` on the map (lines 43-57): `m` is
    appended to the handlers of (`p`, `e`), which start empty if `e` is new;
    every other handler list is unchanged. A port that is unregistered or has
    no `eventsMap` throws.
  */
  function AddMiddleware<P, E(!new), M>(ports: map<P, PortEntry<E, M>>, p: P, e: E, m: M): (r: Result<map<P, PortEntry<E, M>>, KernelError<P>>)
    ensures r.Err? <==> !HasEvents(ports, p)
    ensures r.Err? ==> r.error == UndefinedPropertyRead
    ensures r.Ok? ==> r.value.Keys == ports.Keys && HasEvents(r.value, p)
    ensures r.Ok? ==> Handlers(r.value, p, e) == Handlers(ports, p, e) + [m]
    ensures r.Ok? ==> r.value[p].eventsMap.value.Keys == ports[p].eventsMap.value.Keys + {e}
    ensures r.Ok? ==> r.value[p].eventsMap.value == ports[p].eventsMap.value[e := EventHandler(Handlers(ports, p, e) + [m])]
    ensures r.Ok? ==> forall q :: q in ports && q != p ==> r.value[q] == ports[q]
    ensures r.Ok? ==> forall e' :: e' != e ==> Handlers(r.value, p, e') == Handlers(ports, p, e')
  {
    if !HasEvents(ports, p) then Err(UndefinedPropertyRead)
    else
      var events := ports[p].eventsMap.value;
      var handler := if e in events then events[e] else EventHandler([]);
      Ok(ports[p := PortEntry(Some(events[e := EventHandler(handler.handlers + [m])]))])
  }

  /** A chain `.use(ms[0]).use(ms[1])...` bound to (`p`, `e`), applied to the map. */
  function AddMiddlewares<P, E(!new), M>(ports: map<P, PortEntry<E, M>>, p: P, e: E, ms: seq<M>): Result<map<P, PortEntry<E, M>>, KernelError<P>>
  {
    if ms == [] then Ok(ports)
    else match AddMiddlewares(ports, p, e, ms[..|ms| - 1])
      case Err(err) => Err(err)
      case Ok(ports') => AddMiddleware(ports', p, e, ms[|ms| - 1])
  }

  /**
    Handlers run in registration order: a chain of `use` calls on one bound
    event appends its middlewares in call order and touches no other list.
  */
  lemma {:induction false} ChainAppendsInOrder<P, E(!new), M>(ports: map<P, PortEntry<E, M>>, p: P, e: E, ms: seq<M>)
    requires HasEvents(ports, p)
    ensures AddMiddlewares(ports, p, e, ms).Ok?
    ensures var r := AddMiddlewares(ports, p, e, ms).value;
            && r.Keys == ports.Keys
            && HasEvents(r, p)
            && Handlers(r, p, e) == Handlers(ports, p, e) + ms
            && (forall q :: q in ports && q != p ==> r[q] == ports[q])
            && (forall e' :: e' != e ==> Handlers(r, p, e') == Handlers(ports, p, e'))
  {
    if ms != [] {
      var init := ms[..|ms| - 1];
      ChainAppendsInOrder(ports, p, e, init);
      assert init + [ms[|ms| - 1]] == ms;
    }
  }

  /** Registering a port twice under the same key is the same as registering it once. */
  lemma AddPortIdempotent<P, E, M>(ports: map<P, PortEntry<E, M>>, key: P, first: PortEntry<E, M>, second: PortEntry<E, M>)
    ensures AddPort(AddPort(ports, key, first), key, second) == AddPort(ports, key, first)
  {
  }

  /** The fluent registration object of kernel.ts lines 3-62. */
  class Kernel<P(==), E(==, !new), M> {
    /** The registered ports (line 7). */
    var portsMap: map<P, PortEntry<E, M>>
    /** The port that `handle` is bound to by the last `port` call, if any (line 22). */
    var handlePort: Option<P>
    /** The port and event that `use` is bound to by the last `registerEvent` that created an `eventsMap` (line 33). */
    var useTarget: Option<(P, E)>

    /** The cursor only ever names ports that `handle` and `use` can register on. */
    ghost predicate Valid()
      reads this
    {
      && (handlePort.Some? ==> handlePort.value in portsMap)
      && (useTarget.Some? ==> HasEvents(portsMap, useTarget.value.0))
    }

    /** A fresh kernel: no ports, and `handle` and `use` still the throwing defaults (lines 39-41, 59-61). */
    constructor ()
      ensures Valid()
      ensures portsMap == map[] && handlePort == None && useTarget == None
    {
      portsMap := map[];
      handlePort := None;
      useTarget := None;
    }

    /** `registerPort(key, port)` (lines 9-15): keeps an existing port, then binds `handle` to `key`. */
    method RegisterPort(key: P, port: PortEntry<E, M>) returns (self: Kernel<P, E, M>)
      requires Valid()
      modifies this
      ensures Valid() && self == this
      ensures portsMap == AddPort(old(portsMap), key, port)
      ensures handlePort == Some(key) && useTarget == old(useTarget)
    {
      if key !in portsMap {
        portsMap := portsMap[key := port];
      }
      var r := Port(key);
      self := r.value;
    }

    /** `port(key)` (lines 17-25): throws for an unregistered key; otherwise rebinds `handle`, never `use`. */
    method Port(key: P) returns (r: Result<Kernel<P, E, M>, KernelError<P>>)
      requires Valid()
      modifies this`handlePort
      ensures Valid()
      ensures key !in portsMap ==> r == Err(PortNotRegistered(key)) && handlePort == old(handlePort)
      ensures key in portsMap ==> r == Ok(this) && handlePort == Some(key)
    {
      if key !in portsMap {
        return Err(PortNotRegistered(key));
      }
      handlePort := Some(key);
      r := Ok(this);
    }

    /** `registerEvent(portKey, eventKey)` (lines 27-37): binds `use` only when it creates the port's `eventsMap`. */
    method RegisterEvent(portKey: P, eventKey: E) returns (r: Result<Kernel<P, E, M>, KernelError<P>>)
      requires Valid()
      modifies this`portsMap, this`useTarget
      ensures Valid()
      ensures var a := AddEvent(old(portsMap), portKey, eventKey);
              && (a.Err? ==> r == Err(a.error) && portsMap == old(portsMap) && useTarget == old(useTarget))
              && (a.Ok? ==> r == Ok(this) && portsMap == a.value)
      ensures HasEvents(old(portsMap), portKey) ==> useTarget == old(useTarget)
      ensures portKey in old(portsMap) && !HasEvents(old(portsMap), portKey) ==> useTarget == Some((portKey, eventKey))
    {
      if portKey !in portsMap {
        return Err(UndefinedPropertyRead);
      }
      if portsMap[portKey].eventsMap.None? {
        portsMap := portsMap[portKey := PortEntry(Some(map[eventKey := EventHandler([])]))];
        useTarget := Some((portKey, eventKey));
      }
      r := Ok(this);
    }

    /** `handle(event)` (lines 22, 39-41): throws until `port` has bound it, then is `registerEvent` on the bound port. */
    method Handle(event: E) returns (r: Result<Kernel<P, E, M>, KernelError<P>>)
      requires Valid()
      modifies this`portsMap, this`useTarget
      ensures Valid()
      ensures old(handlePort).None? ==>
                r == Err(HandleBeforePort) && portsMap == old(portsMap) && useTarget == old(useTarget)
      ensures old(handlePort).Some? ==>
                var p := old(handlePort).value;
                && r == Ok(this)
                && portsMap == AddEvent(old(portsMap), p, event).value
                && useTarget == (if HasEvents(old(portsMap), p) then old(useTarget) else Some((p, event)))
    {
      if handlePort.None? {
        return Err(HandleBeforePort);
      }
      r := RegisterEvent(handlePort.value, event);
    }

    /** `registerMiddleware(portKey, eventKey, m)` (lines 43-57). */
    method RegisterMiddleware(portKey: P, eventKey: E, middleware: M) returns (r: Result<Kernel<P, E, M>, KernelError<P>>)
      requires Valid()
      modifies this`portsMap
      ensures Valid()
      ensures var a := AddMiddleware(old(portsMap), portKey, eventKey, middleware);
              && (a.Err? ==> r == Err(a.error) && portsMap == old(portsMap))
              && (a.Ok? ==> r == Ok(this) && portsMap == a.value)
    {
      if portKey !in portsMap || portsMap[portKey].eventsMap.None? {
        return Err(UndefinedPropertyRead);
      }
      var events := portsMap[portKey].eventsMap.value;
      var handler := EventHandler([]);
      if eventKey in events {
        handler := events[eventKey];
      }
      portsMap := portsMap[portKey := PortEntry(Some(events[eventKey := EventHandler(handler.handlers + [middleware])]))];
      r := Ok(this);
    }

    /**
      `use(m)` (lines 33, 59-61): throws until a `registerEvent` has bound it;
      once bound it always succeeds and appends `m` to the bound event.
    */
    method Use(middleware: M) returns (r: Result<Kernel<P, E, M>, KernelError<P>>)
      requires Valid()
      modifies this`portsMap
      ensures Valid()
      ensures old(useTarget).None? ==> r == Err(UseBeforeHandle) && portsMap == old(portsMap)
      ensures old(useTarget).Some? ==>
                var (p, e) := old(useTarget).value;
                r == Ok(this) && portsMap == AddMiddleware(old(portsMap), p, e, middleware).value
    {
      if useTarget.None? {
        return Err(UseBeforeHandle);
      }
      var (p, e) := useTarget.value;
      r := RegisterMiddleware(p, e, middleware);
    }
  }

  /** The port and event keys of the demo registration in src/index.ts (lines 3-12). */
  datatype PortKey = FromApp | FromSDK | FromPopup
  datatype EventKey = Ping | Pong

  /**
    `.handle(e).use(a).use(b).use(c)` on a kernel whose `handle` is bound to a
    port without `eventsMap`: that port ends up with exactly the event `e`,
    whose handlers are `a`, `b`, `c` in call order.
  */
  method HandleThenUseThree(k: Kernel<PortKey, EventKey, int>, e: EventKey, a: int, b: int, c: int)
    requires k.Valid() && k.handlePort.Some? && !HasEvents(k.portsMap, k.handlePort.value)
    modifies k`portsMap, k`useTarget
    ensures k.Valid()
    ensures var p := k.handlePort.value;
            && k.portsMap == old(k.portsMap)[p := PortEntry(Some(map[e := EventHandler([a, b, c])]))]
            && k.useTarget == Some((p, e))
  {
    var p := k.handlePort.value;
    var r := k.Handle(e);
    r := k.Use(a);
    r := k.Use(b);
    r := k.Use(c);
    ghost var events := k.portsMap[p].eventsMap.value;
    assert events.Keys == {e} && events[e].handlers == [a, b, c];
    assert events == map[e := EventHandler([a, b, c])];
  }

  /**
    The demo chain of src/index.ts lines 14-35, with each middleware named by
    the source line that registers it: every port gets its own event, and the
    handlers of each event are the three middlewares in call order.
  */
  method IndexChain() returns (k: Kernel<PortKey, EventKey, int>)
    ensures k.Valid()
    ensures k.portsMap == map[
      FromApp := PortEntry(Some(map[Pong := EventHandler([21, 22, 23])])),
      FromSDK := PortEntry(Some(map[Ping := EventHandler([27, 28, 29])])),
      FromPopup := PortEntry(Some(map[Ping := EventHandler([33, 34, 35])]))]
    ensures Handlers(k.portsMap, FromApp, Pong) == [21, 22, 23]
    ensures Handlers(k.portsMap, FromApp, Ping) == []
    ensures k.useTarget == Some((FromPopup, Ping))
  {
    k := new Kernel();
    var self := k.RegisterPort(FromApp, PortEntry(None));
    var r := k.Port(FromApp);
    HandleThenUseThree(k, Pong, 21, 22, 23);
    self := k.RegisterPort(FromSDK, PortEntry(None));
    HandleThenUseThree(k, Ping, 27, 28, 29);
    self := k.RegisterPort(FromPopup, PortEntry(None));
    HandleThenUseThree(k, Ping, 33, 34, 35);
  }

  /** On a fresh kernel `handle`, `use` and `port` all throw and register nothing (kernel.ts lines 18-19, 39-41, 59-61). */
  method FreshKernelThrows() returns (k: Kernel<PortKey, EventKey, int>, handled: Result<Kernel<PortKey, EventKey, int>, KernelError<PortKey>>,
                                      used: Result<Kernel<PortKey, EventKey, int>, KernelError<PortKey>>,
                                      ported: Result<Kernel<PortKey, EventKey, int>, KernelError<PortKey>>)
    ensures k.Valid() && k.portsMap == map[]
    ensures handled == Err(HandleBeforePort) && used == Err(UseBeforeHandle) && ported == Err(PortNotRegistered(FromApp))
  {
    k := new Kernel();
    handled := k.Handle(Pong);
    used := k.Use(0);
    ported := k.Port(FromApp);
  }

  /**
    A second `handle` on a port that already has an `eventsMap` registers
    nothing and leaves `use` bound to the first event (kernel.ts lines 28-34),
    so `.handle(Pong).use(1).handle(Ping).use(2)` puts both middlewares on Pong.
  */
  method SecondHandleIgnored() returns (k: Kernel<PortKey, EventKey, int>)
    ensures k.Valid()
    ensures k.portsMap == map[FromApp := PortEntry(Some(map[Pong := EventHandler([1, 2])]))]
    ensures Handlers(k.portsMap, FromApp, Ping) == []
  {
    k := new Kernel();
    var self := k.RegisterPort(FromApp, PortEntry(None));
    var r := k.Handle(Pong);
    assert k.portsMap[FromApp].eventsMap.value == map[Pong := EventHandler([])];
    r := k.Use(1);
    assert [] + [1] == [1];
    assert k.portsMap[FromApp].eventsMap.value == map[Pong := EventHandler([1])];
    r := k.Handle(Ping);
    assert r == Ok(k) && k.useTarget == Some((FromApp, Pong));
    r := k.Use(2);
    ghost var events := k.portsMap[FromApp].eventsMap.value;
    assert events.Keys == {Pong} && events[Pong].handlers == [1, 2];
    assert events == map[Pong := EventHandler([1, 2])];
  }

  /**
    Moving to another port rebinds `handle` but not `use` (kernel.ts lines 22
    and 33): a `use` right after `registerPort(FromSDK, ...)` still appends to
    the event bound on FromApp, and FromSDK stays without events.
  */
  method PortDoesNotRebindUse() returns (k: Kernel<PortKey, EventKey, int>)
    ensures k.Valid()
    ensures k.portsMap == map[
      FromApp := PortEntry(Some(map[Pong := EventHandler([1, 2])])),
      FromSDK := PortEntry(None)]
    ensures k.handlePort == Some(FromSDK) && k.useTarget == Some((FromApp, Pong))
  {
    k := new Kernel();
    var self := k.RegisterPort(FromApp, PortEntry(None));
    var r := k.Handle(Pong);
    assert k.portsMap[FromApp].eventsMap.value == map[Pong := EventHandler([])];
    r := k.Use(1);
    assert [] + [1] == [1];
    assert k.portsMap[FromApp].eventsMap.value == map[Pong := EventHandler([1])];
    assert k.portsMap.Keys == {FromApp};
    assert k.portsMap == map[FromApp := PortEntry(Some(map[Pong := EventHandler([1])]))];
    self := k.RegisterPort(FromSDK, PortEntry(None));
    r := k.Use(2);
    ghost var events := k.portsMap[FromApp].eventsMap.value;
    assert events.Keys == {Pong} && events[Pong].handlers == [1, 2];
    assert events == map[Pong := EventHandler([1, 2])];
  }
}
