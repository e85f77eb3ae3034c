/**
  The caller-side correlator of src/core/channel.ts.

  An `AsyncChannel` turns a one-way `push` into request/response calls: `Request`
  records a pending `RequestContext` in `requestPool` under the request id, and
  the entry is settled and deleted either by `HandleIncoming` (a response with a
  matching `requestId`) or by `Sweep`, the body of the cleaner's periodic tick.

  JavaScript promises become a ghost log of settlements; each admitted request
  receives a ghost ticket so that the log can say which request was settled even
  when a request id is later reused. Clock readings become `now` arguments and
  `crypto.randomUUID()` becomes a `uuid` argument that is not yet a pool key.
*/
module Channel {
  import opened Wrappers

  /** Default `timeout` of `request`, in milliseconds (channel.ts line 17). */
  const DefaultTimeout: int := 1000
  /** Default `interval` of `startCleaner`, in milliseconds (channel.ts line 66). */
  const DefaultInterval: int := 1000

  /** Properties of a payload that the channel carries along but never reads. */
  type Fields = map<string, string>

  /** A value as `typeof` sees it: not an object, `null` (whose typeof is 'object'), or an object. */
  datatype JsValue<T> = Primitive | Null | Object(value: T)

  /** A request payload; `id` and `timeout` are optional properties of it. */
  datatype RawRequest = RawRequest(id: Option<string>, timeout: Option<int>, fields: Fields)

  /** A response; a truthy `error` signals failure. */
  datatype Response = Response(requestId: Option<string>, error: Option<string>, fields: Fields)

  /** A pending entry of `requestPool`; the promise's resolve/reject live in the settlement log. */
  datatype RequestContext = RequestContext(requestId: string, payload: RawRequest, timeout: int, sentAt: int)

  /** What the channel throws (inside `request`, a rejection of the returned promise). */
  datatype ChannelError =
    | InvalidPayload
    | DuplicateId
    | NullPropertyRead
    | PushFailed(message: string)
    | InvalidResponse
    | ContextNotFound(requestId: string)
    | CleanerRunning
  {
    /** The message of the thrown `Error`; a property read on null is the engine's own TypeError. */
    function Message(): string
    {
      match this
      case InvalidPayload => "Payload must be 'object' type"
      case DuplicateId => "Request id must be unique"
      case NullPropertyRead => "Cannot read properties of null"
      case PushFailed(m) => m
      case InvalidResponse => "got an invalid response"
      case ContextNotFound(id) => "can not find context of " + id + " to resolve"
      case CleanerRunning => "Cleaner is already running"
    }
  }

  /** The transport's `push`: the base class throws, transports deliver, any hook may throw. */
  datatype PushHook = NotImplemented | Deliver | Throw(message: string)

  /** The message `push` throws with the given hook, if it throws. */
  function PushFailure(hook: PushHook): Option<string>
  {
    match hook
    case NotImplemented => Some("Not implemented yet")
    case Deliver => None
    case Throw(m) => Some(m)
  }

  /** Why a pending request was rejected. */
  datatype Reason = Timeout | Remote(message: string)

  /** How a pending request's promise settled. */
  datatype Outcome = Resolved(response: Response) | Rejected(reason: Reason)

  /** One settlement of the promise of the request admitted with `ticket`. */
  datatype Settlement = Settlement(ticket: nat, requestId: string, outcome: Outcome)

  /** The message a rejection carries. */
  function ReasonMessage(r: Reason): string
  {
    match r
    case Timeout => "Request timeout"
    case Remote(m) => m
  }

  /**
    The checks `request` makes before sending: the payload must be an object, and
    a truthy id must not already be a pool key. The admitted payload keeps a truthy
    id and otherwise takes the fresh `uuid`.
  */
  function Admit(pool: map<string, RequestContext>, payload: JsValue<RawRequest>, uuid: string): (r: Result<RawRequest, ChannelError>)
    requires uuid != "" && uuid !in pool
    ensures r == Err(InvalidPayload) <==> payload.Primitive?
    ensures r == Err(NullPropertyRead) <==> payload.Null?
    ensures r == Err(DuplicateId) <==> payload.Object? && Truthy(payload.value.id) && payload.value.id.value in pool
    ensures r.Ok? <==> payload.Object? && !(Truthy(payload.value.id) && payload.value.id.value in pool)
    ensures r.Ok? ==> Truthy(r.value.id) && r.value.id.value !in pool
    ensures r.Ok? ==> r.value.timeout == payload.value.timeout && r.value.fields == payload.value.fields
    ensures r.Ok? ==> r.value.id == (if Truthy(payload.value.id) then payload.value.id else Some(uuid))
  {
    match payload
    case Primitive => Err(InvalidPayload)
    case Null => Err(NullPropertyRead)
    case Object(req) =>
      if Truthy(req.id) && req.id.value in pool then Err(DuplicateId)
      else if !Truthy(req.id) then Ok(req.(id := Some(uuid)))
      else Ok(req)
  }

  /** The payload as sent: `Object.assign(request, { timeout })` overwrites the timeout property. */
  function Stamp(req: RawRequest, timeout: int): (r: RawRequest)
    ensures r.timeout == Some(timeout)
    ensures r.id == req.id && r.fields == req.fields
  {
    req.(timeout := Some(timeout))
  }

  /**
    The checks `handleIncoming` makes before settling: the response must be an
    object with a truthy `requestId` that is a pool key; the key is the result.
  */
  function Lookup(pool: map<string, RequestContext>, incoming: JsValue<Response>): (r: Result<string, ChannelError>)
    ensures r == Err(NullPropertyRead) <==> incoming.Null?
    ensures r == Err(InvalidResponse) <==> incoming.Primitive? || (incoming.Object? && !Truthy(incoming.value.requestId))
    ensures r.Err? && r.error.ContextNotFound? <==>
              incoming.Object? && Truthy(incoming.value.requestId) && incoming.value.requestId.value !in pool
    ensures r.Err? && r.error.ContextNotFound? ==> r.error.requestId == incoming.value.requestId.value
    ensures r.Ok? ==> incoming.Object? && incoming.value.requestId == Some(r.value) && r.value in pool
    ensures r.Ok? <==> incoming.Object? && Truthy(incoming.value.requestId) && incoming.value.requestId.value in pool
  {
    match incoming
    case Primitive => Err(InvalidResponse)
    case Null => Err(NullPropertyRead)
    case Object(resp) =>
      if !Truthy(resp.requestId) then Err(InvalidResponse)
      else if resp.requestId.value !in pool then Err(ContextNotFound(resp.requestId.value))
      else Ok(resp.requestId.value)
  }

  /** How a matched response settles its request: rejected with a truthy `error`, else resolved with the whole response. */
  function Verdict(response: Response): (o: Outcome)
    ensures o.Rejected? <==> Truthy(response.error)
    ensures o.Rejected? ==> ReasonMessage(o.reason) == response.error.value && o.reason != Timeout
    ensures o.Resolved? ==> o.response == response
  {
    if Truthy(response.error) then Rejected(Remote(response.error.value)) else Resolved(response)
  }

  /** A cleaner tick at `now` expires an entry whose age is strictly greater than its timeout. */
  predicate Expired(c: RequestContext, now: int): (b: bool)
    ensures b <==> now > c.sentAt + c.timeout
    ensures c.timeout >= 0 && now <= c.sentAt ==> !b
  {
    now - c.sentAt > c.timeout
  }

  /** The pool left after a cleaner tick at `now`. */
  function Survivors(pool: map<string, RequestContext>, now: int): (r: map<string, RequestContext>)
    ensures forall k :: k in r <==> k in pool && !Expired(pool[k], now)
    ensures forall k :: k in r ==> r[k] == pool[k]
  {
    map k | k in pool && !Expired(pool[k], now) :: pool[k]
  }

  /** The rejections a cleaner tick performs, one per expired key in the order reached. */
  function TimeoutSettlements(tickets: map<string, nat>, keys: seq<string>): (s: seq<Settlement>)
    requires forall k :: k in keys ==> k in tickets
    ensures |s| == |keys|
    ensures forall i :: 0 <= i < |keys| ==> s[i] == Settlement(tickets[keys[i]], keys[i], Rejected(Timeout))
  {
    if keys == [] then []
    else TimeoutSettlements(tickets, keys[..|keys| - 1]) + [Settlement(tickets[keys[|keys| - 1]], keys[|keys| - 1], Rejected(Timeout))]
  }

  /** Deleting one more key from a map is deleting the enlarged key set. */
  lemma RemoveOneMore<K, V>(m: map<K, V>, gone: set<K>, k: K)
    ensures (m - gone) - {k} == m - (gone + {k})
  {
    assert ((m - gone) - {k}).Keys == (m - (gone + {k})).Keys;
  }

  /**
    Where a cleaner tick stands after visiting every key of `pool0` outside
    `keys`: the expired ones among them, `gone` as a set and `expired` in the
    order reached, have been rejected and deleted; nothing else has changed.
  */
  ghost predicate SweepProgress(pool: map<string, RequestContext>, tickets: map<string, nat>, log: seq<Settlement>,
                                pool0: map<string, RequestContext>, tickets0: map<string, nat>, log0: seq<Settlement>,
                                now: int, keys: set<string>, gone: set<string>, expired: seq<string>)
  {
    && keys <= pool0.Keys && gone !! keys
    && pool == pool0 - gone && tickets == tickets0 - gone
    && (forall k :: k in gone <==> k in pool0 && k !in keys && Expired(pool0[k], now))
    && (forall k :: k in expired <==> k in gone)
    && (forall k :: k in expired ==> k in tickets0)
    && (forall i, j :: 0 <= i < j < |expired| ==> expired[i] != expired[j])
    && log == log0 + TimeoutSettlements(tickets0, expired)
  }

  /** Before a cleaner tick has visited any key, nothing has changed. */
  lemma SweepStart(pool: map<string, RequestContext>, tickets: map<string, nat>, log: seq<Settlement>, now: int)
    ensures SweepProgress(pool, tickets, log, pool, tickets, log, now, pool.Keys, {}, [])
  {
    assert pool - {} == pool;
    assert tickets - {} == tickets;
  }

  /**
    Once a cleaner tick has visited every key, exactly the expired entries
    have been rejected with a timeout, once each, and deleted, and every other
    entry is kept with its ticket.
  */
  lemma SweepDone(pool: map<string, RequestContext>, tickets: map<string, nat>, log: seq<Settlement>,
                  pool0: map<string, RequestContext>, tickets0: map<string, nat>, log0: seq<Settlement>,
                  now: int, gone: set<string>, expired: seq<string>)
    requires SweepProgress(pool, tickets, log, pool0, tickets0, log0, now, {}, gone, expired)
    ensures pool == Survivors(pool0, now)
    ensures forall k :: k in tickets ==> k in tickets0 && tickets[k] == tickets0[k]
    ensures forall k :: k in expired <==> k in pool0 && Expired(pool0[k], now)
    ensures forall i, j :: 0 <= i < j < |expired| ==> expired[i] != expired[j]
    ensures forall k :: k in expired ==> k in tickets0
    ensures log == log0 + TimeoutSettlements(tickets0, expired)
  {
    assert pool.Keys == Survivors(pool0, now).Keys;
  }

  /** Visiting an expired key rejects it and deletes it. */
  lemma SweepStepExpired(pool: map<string, RequestContext>, tickets: map<string, nat>, log: seq<Settlement>,
                         pool0: map<string, RequestContext>, tickets0: map<string, nat>, log0: seq<Settlement>,
                         now: int, keys: set<string>, gone: set<string>, expired: seq<string>, k: string)
    requires SweepProgress(pool, tickets, log, pool0, tickets0, log0, now, keys, gone, expired)
    requires k in keys && k in pool && k in tickets && Expired(pool[k], now)
    ensures SweepProgress(pool - {k}, tickets - {k}, log + [Settlement(tickets[k], k, Rejected(Timeout))],
                          pool0, tickets0, log0, now, keys - {k}, gone + {k}, expired + [k])
  {
    RemoveOneMore(pool0, gone, k);
    RemoveOneMore(tickets0, gone, k);
    assert (expired + [k])[..|expired|] == expired;
    assert TimeoutSettlements(tickets0, expired + [k])
        == TimeoutSettlements(tickets0, expired) + [Settlement(tickets[k], k, Rejected(Timeout))];
  }

  /** Visiting a key that has not expired changes nothing. */
  lemma SweepStepKept(pool: map<string, RequestContext>, tickets: map<string, nat>, log: seq<Settlement>,
                      pool0: map<string, RequestContext>, tickets0: map<string, nat>, log0: seq<Settlement>,
                      now: int, keys: set<string>, gone: set<string>, expired: seq<string>, k: string)
    requires SweepProgress(pool, tickets, log, pool0, tickets0, log0, now, keys, gone, expired)
    requires k in keys && k in pool && !Expired(pool[k], now)
    ensures SweepProgress(pool, tickets, log, pool0, tickets0, log0, now, keys - {k}, gone, expired)
  {
  }

  /** A second tick at the same instant removes nothing more. */
  lemma SweepIdempotent(pool: map<string, RequestContext>, now: int)
    ensures Survivors(Survivors(pool, now), now) == Survivors(pool, now)
  {
    var once := Survivors(pool, now);
    assert Survivors(once, now).Keys == once.Keys;
  }

  /** Expiry is monotone in time: an entry removed at `t1` would be removed at any `t2 >= t1`, and two ticks equal the later one. */
  lemma LaterSweepRemovesMore(pool: map<string, RequestContext>, t1: int, t2: int)
    requires t1 <= t2
    ensures Survivors(pool, t2).Keys <= Survivors(pool, t1).Keys
    ensures Survivors(Survivors(pool, t1), t2) == Survivors(pool, t2)
  {
    var later := Survivors(Survivors(pool, t1), t2);
    assert later.Keys == Survivors(pool, t2).Keys;
  }

  /**
    The race between a matching response for `k` and a cleaner tick: whichever
    order they run in, the pool ends up the same, and a response that arrives
    after its entry expired is refused with "can not find context".
  */
  lemma ResponseAndSweepCommute(pool: map<string, RequestContext>, k: string, now: int, response: Response)
    requires k in pool && k != ""
    ensures Survivors(pool - {k}, now) == Survivors(pool, now) - {k}
    ensures Expired(pool[k], now) && response.requestId == Some(k) ==>
              Lookup(Survivors(pool, now), JsValue.Object(response)) == Err(ContextNotFound(k))
  {
    assert Survivors(pool - {k}, now).Keys == (Survivors(pool, now) - {k}).Keys;
  }

  /**
    A pending entry sent with timeout 0 (channel.test.ts line 86) survives a
    tick at the instant it was sent, or earlier, and is removed by any tick
    a millisecond or more later.
  */
  lemma ZeroTimeoutExpiresAfterOneMillisecond(pool: map<string, RequestContext>, k: string, t: int)
    requires k in pool && pool[k].timeout == 0
    ensures k in Survivors(pool, t) <==> t <= pool[k].sentAt
    ensures k in Survivors(pool, t) ==> Survivors(pool, t)[k] == pool[k]
  {
  }

  /** The ticket `t` belongs to a pending entry. */
  ghost predicate PendingIn(tickets: map<string, nat>, t: nat)
  {
    exists k :: k in tickets && tickets[k] == t
  }

  /** The ticket `t` has been settled. */
  ghost predicate SettledIn(log: seq<Settlement>, t: nat)
  {
    exists i :: 0 <= i < |log| && log[i].ticket == t
  }

  /**
    The bookkeeping of a channel: pool entries are keyed by their own request
    id, and each of the `issued` admitted requests is either pending, under
    exactly one key, or settled, exactly once.
  */
  ghost predicate Ledger(pool: map<string, RequestContext>, tickets: map<string, nat>, log: seq<Settlement>, issued: nat)
  {
    && tickets.Keys == pool.Keys
    && (forall k :: k in pool ==> pool[k].requestId == k && pool[k].payload.id == Some(k))
    && (forall k :: k in tickets ==> tickets[k] < issued)
    && (forall k, k' :: k in tickets && k' in tickets && tickets[k] == tickets[k'] ==> k == k')
    && (forall i :: 0 <= i < |log| ==> log[i].ticket < issued)
    && (forall i, j :: 0 <= i < j < |log| ==> log[i].ticket != log[j].ticket)
    && (forall k, i :: k in tickets && 0 <= i < |log| ==> log[i].ticket != tickets[k])
    && (forall t: nat :: t < issued ==> PendingIn(tickets, t) || SettledIn(log, t))
  }

  /** Admitting a new entry under a fresh key, with the next ticket, keeps the bookkeeping. */
  lemma LedgerInsert(pool: map<string, RequestContext>, tickets: map<string, nat>, log: seq<Settlement>, issued: nat, c: RequestContext)
    requires Ledger(pool, tickets, log, issued)
    requires c.requestId !in pool && c.payload.id == Some(c.requestId)
    ensures Ledger(pool[c.requestId := c], tickets[c.requestId := issued], log, issued + 1)
  {
    var tickets' := tickets[c.requestId := issued];
    forall u: nat | u < issued + 1
      ensures PendingIn(tickets', u) || SettledIn(log, u)
    {
      if u == issued {
        assert tickets'[c.requestId] == u;
      } else if PendingIn(tickets, u) {
        var k :| k in tickets && tickets[k] == u;
        assert k in tickets' && tickets'[k] == u;
      }
    }
  }

  /** Settling the pending entry `k` once and deleting it keeps the bookkeeping. */
  lemma LedgerSettle(pool: map<string, RequestContext>, tickets: map<string, nat>, log: seq<Settlement>, issued: nat,
                     k: string, outcome: Outcome)
    requires Ledger(pool, tickets, log, issued) && k in pool
    ensures Ledger(pool - {k}, tickets - {k}, log + [Settlement(tickets[k], k, outcome)], issued)
  {
    var t := tickets[k];
    var log' := log + [Settlement(t, k, outcome)];
    var tickets' := tickets - {k};
    assert SettledIn(log', t) by {
      assert log'[|log|].ticket == t;
    }
    forall u: nat | u < issued
      ensures PendingIn(tickets', u) || SettledIn(log', u)
    {
      if u != t {
        if PendingIn(tickets, u) {
          var j :| j in tickets && tickets[j] == u;
          assert j in tickets' && tickets'[j] == u;
        } else {
          var i :| 0 <= i < |log| && log[i].ticket == u;
          assert log'[i].ticket == u;
        }
      }
    }
  }

  /** The correlator object of channel.ts lines 7-86. */
  class AsyncChannel {
    /** The cleaner's interval handle; set by `startCleaner`, never cleared (line 8). */
    var timer: Option<int>
    /** Whether the host's interval timer is still firing the cleaner tick. */
    var ticking: bool
    /** Pending requests by id (line 9). */
    var requestPool: map<string, RequestContext>
    /** Which `push` this channel has (the base class's, or a transport's override). */
    const hook: PushHook
    /** Every payload `push` was called with, in call order. */
    var pushCalls: seq<RawRequest>

    /** Every settlement of a request's promise, in order. */
    ghost var settlements: seq<Settlement>
    /** The ticket of each pending entry. */
    ghost var ticketOf: map<string, nat>
    /** How many requests have been admitted into the pool so far. */
    ghost var issued: nat

    /** Every request ever admitted is either still pending or settled, exactly once. */
    ghost predicate Valid()
      reads this`requestPool, this`ticketOf, this`settlements, this`issued
    {
      Ledger(requestPool, ticketOf, settlements, issued)
    }

    /** A new channel with an empty pool whose cleaner is started at once (lines 11-13). */
    constructor (hook: PushHook)
      ensures Valid()
      ensures this.hook == hook && requestPool == map[] && pushCalls == [] && settlements == []
      ensures ticketOf == map[] && issued == 0
      ensures timer == Some(DefaultInterval) && ticking
    {
      this.hook := hook;
      requestPool := map[];
      pushCalls := [];
      settlements := [];
      ticketOf := map[];
      issued := 0;
      timer := Some(DefaultInterval);
      ticking := true;
    }

    /** `push(payload)`: records the call, then throws unless the hook delivers (lines 43-45). */
    method Push(payload: RawRequest) returns (failure: Option<string>)
      modifies this`pushCalls
      ensures pushCalls == old(pushCalls) + [payload]
      ensures failure == PushFailure(hook)
    {
      pushCalls := pushCalls + [payload];
      failure := PushFailure(hook);
    }

    /**
      `request(payload, timeout)` at time `now` (lines 15-40). On `Ok(id)` the
      promise is pending under `id`. Push is called exactly once with the stamped
      payload, before the entry exists, so a throwing push leaves the pool alone.
    */
    method Request(payload: JsValue<RawRequest>, now: int, uuid: string, timeout: int := DefaultTimeout)
      returns (r: Result<string, ChannelError>)
      requires Valid()
      requires uuid != "" && uuid !in requestPool
      modifies this`requestPool, this`pushCalls, this`ticketOf, this`issued
      ensures Valid()
      ensures var a := Admit(old(requestPool), payload, uuid);
              match a
              case Err(e) =>
                && r == Err(e) && pushCalls == old(pushCalls) && requestPool == old(requestPool)
                && ticketOf == old(ticketOf) && issued == old(issued)
              case Ok(req) =>
                && pushCalls == old(pushCalls) + [Stamp(req, timeout)]
                && (PushFailure(hook).Some? ==>
                      && r == Err(PushFailed(PushFailure(hook).value)) && requestPool == old(requestPool)
                      && ticketOf == old(ticketOf) && issued == old(issued))
                && (PushFailure(hook).None? ==>
                      && r == Ok(req.id.value)
                      && requestPool == old(requestPool)[req.id.value := RequestContext(req.id.value, Stamp(req, timeout), timeout, now)]
                      && ticketOf == old(ticketOf)[req.id.value := old(issued)]
                      && issued == old(issued) + 1)
    {
      var admitted := Admit(requestPool, payload, uuid);
      if admitted.Err? {
        return Err(admitted.error);
      }
      var req := Stamp(admitted.value, timeout);
      var failure := Push(req);
      if failure.Some? {
        return Err(PushFailed(failure.value));
      }
      var id := req.id.value;
      InsertEntry(RequestContext(id, req, timeout, now));
      r := Ok(id);
    }

    /** Stores a new pending entry under its own id (lines 31-38), issuing it the next ticket. */
    method InsertEntry(c: RequestContext)
      requires Valid() && c.requestId !in requestPool && c.payload.id == Some(c.requestId)
      modifies this`requestPool, this`ticketOf, this`issued
      ensures Valid()
      ensures requestPool == old(requestPool)[c.requestId := c]
      ensures ticketOf == old(ticketOf)[c.requestId := old(issued)]
      ensures issued == old(issued) + 1
    {
      LedgerInsert(requestPool, ticketOf, settlements, issued, c);
      requestPool := requestPool[c.requestId := c];
      ticketOf := ticketOf[c.requestId := issued];
      issued := issued + 1;
    }

    /** Settles the pending entry `k` with `outcome` and deletes it (the reject/resolve and `delete` of lines 56-63 and 76-77). */
    method SettleEntry(k: string, outcome: Outcome)
      requires Valid() && k in requestPool
      modifies this`requestPool, this`ticketOf, this`settlements
      ensures Valid()
      ensures requestPool == old(requestPool) - {k}
      ensures ticketOf == old(ticketOf) - {k}
      ensures settlements == old(settlements) + [Settlement(old(ticketOf)[k], k, outcome)]
    {
      LedgerSettle(requestPool, ticketOf, settlements, issued, k, outcome);
      settlements := settlements + [Settlement(ticketOf[k], k, outcome)];
      requestPool := requestPool - {k};
      ticketOf := ticketOf - {k};
    }

    /**
      `handleIncoming(response)` (lines 47-64): an invalid or unmatched response
      throws and changes nothing; a matched one settles its entry with the
      response's verdict and deletes exactly that entry.
    */
    method HandleIncoming(incoming: JsValue<Response>) returns (thrown: Option<ChannelError>)
      requires Valid()
      modifies this`requestPool, this`ticketOf, this`settlements
      ensures Valid()
      ensures var l := Lookup(old(requestPool), incoming);
              match l
              case Err(e) =>
                thrown == Some(e) && requestPool == old(requestPool) && settlements == old(settlements)
                && ticketOf == old(ticketOf)
              case Ok(k) =>
                && thrown == None
                && requestPool == old(requestPool) - {k}
                && ticketOf == old(ticketOf) - {k}
                && settlements == old(settlements) + [Settlement(old(ticketOf)[k], k, Verdict(incoming.value))]
    {
      var found := Lookup(requestPool, incoming);
      if found.Err? {
        return Some(found.error);
      }
      SettleEntry(found.value, Verdict(incoming.value));
      thrown := None;
    }

    /** `startCleaner(interval)` (lines 66-69): throws while a timer handle is set. */
    method StartCleaner(interval: int := DefaultInterval) returns (thrown: Option<ChannelError>)
      modifies this`timer, this`ticking
      ensures old(timer).Some? ==> thrown == Some(CleanerRunning) && timer == old(timer) && ticking == old(ticking)
      ensures old(timer).None? ==> thrown == None && timer == Some(interval) && ticking
    {
      if timer.Some? {
        return Some(CleanerRunning);
      }
      timer := Some(interval);
      ticking := true;
      thrown := None;
    }

    /** `stopCleaner()` (lines 83-85): clears the interval but leaves the handle set. */
    method StopCleaner()
      modifies this`ticking
      ensures !ticking
    {
      ticking := false;
    }

    /** The loop body of the cleaner tick for key `k` (lines 72-78): reject and delete the entry if it has expired. */
    method ExpireIfDue(k: string, now: int, ghost pool0: map<string, RequestContext>, ghost tickets0: map<string, nat>,
                       ghost log0: seq<Settlement>, ghost keys: set<string>, ghost gone: set<string>, ghost expired: seq<string>)
      returns (ghost gone': set<string>, ghost expired': seq<string>)
      requires Valid() && k in keys
      requires SweepProgress(requestPool, ticketOf, settlements, pool0, tickets0, log0, now, keys, gone, expired)
      modifies this`requestPool, this`ticketOf, this`settlements
      ensures Valid()
      ensures SweepProgress(requestPool, ticketOf, settlements, pool0, tickets0, log0, now, keys - {k}, gone', expired')
    {
      var duration := now - requestPool[k].sentAt;
      if duration > requestPool[k].timeout {
        ghost var pool, tickets, log := requestPool, ticketOf, settlements;
        SettleEntry(k, Rejected(Timeout));
        gone', expired' := gone + {k}, expired + [k];
        SweepStepExpired(pool, tickets, log, pool0, tickets0, log0, now, keys, gone, expired, k);
      } else {
        gone', expired' := gone, expired;
        SweepStepKept(requestPool, ticketOf, settlements, pool0, tickets0, log0, now, keys, gone, expired, k);
      }
    }

    /**
      One cleaner tick at time `now` (lines 70-79): every expired entry is
      rejected with "Request timeout" and deleted, every other entry is kept,
      and nothing already settled is touched again. `expired` is the order in
      which the `for...in` loop reached the expired keys.
    */
    method Sweep(now: int) returns (ghost expired: seq<string>)
      requires Valid() && ticking
      modifies this`requestPool, this`ticketOf, this`settlements
      ensures Valid()
      ensures requestPool == Survivors(old(requestPool), now)
      ensures forall k :: k in ticketOf ==> k in old(ticketOf) && ticketOf[k] == old(ticketOf)[k]
      ensures forall k :: k in expired <==> k in old(requestPool) && Expired(old(requestPool)[k], now)
      ensures forall i, j :: 0 <= i < j < |expired| ==> expired[i] != expired[j]
      ensures forall k :: k in expired ==> k in old(ticketOf)
      ensures settlements == old(settlements) + TimeoutSettlements(old(ticketOf), expired)
    {
      var keys := requestPool.Keys;
      expired := [];
      ghost var gone: set<string> := {};
      SweepStart(requestPool, ticketOf, settlements, now);
      while keys != {}
        invariant Valid()
        invariant SweepProgress(requestPool, ticketOf, settlements, old(requestPool), old(ticketOf), old(settlements), now, keys, gone, expired)
        decreases keys
      {
        var k :| k in keys;
        gone, expired := ExpireIfDue(k, now, old(requestPool), old(ticketOf), old(settlements), keys, gone, expired);
        keys := keys - {k};
      }
      SweepDone(requestPool, ticketOf, settlements, old(requestPool), old(ticketOf), old(settlements), now, gone, expired);
    }
  }

  /**
    channel.test.ts lines 3-22 and 62-79: a payload without `id` is sent once
    under a fresh id, its entry holds the stamped payload, and a matching
    response without `error` resolves it with the whole response.
  */
  method RoundTrip(uuid: string, now: int, fields: Fields, data: Fields) returns (c: AsyncChannel)
    requires uuid != ""
    ensures c.Valid() && c.requestPool == map[]
    ensures c.pushCalls == [RawRequest(Some(uuid), Some(DefaultTimeout), fields)]
    ensures c.settlements == [Settlement(0, uuid, Resolved(Response(Some(uuid), None, data)))]
  {
    c := new AsyncChannel(Deliver);
    var r := c.Request(JsValue.Object(RawRequest(None, None, fields)), now, uuid);
    assert r == Ok(uuid);
    assert c.requestPool.Keys == {uuid} && c.requestPool[uuid].payload == RawRequest(Some(uuid), Some(DefaultTimeout), fields);
    var thrown := c.HandleIncoming(JsValue.Object(Response(Some(uuid), None, data)));
    assert thrown == None;
  }

  /** channel.test.ts lines 42-60: a matching response with a truthy `error` rejects with that message. */
  method ErrorResponseRejects(uuid: string, now: int) returns (c: AsyncChannel)
    requires uuid != ""
    ensures c.Valid() && c.requestPool == map[]
    ensures c.settlements == [Settlement(0, uuid, Rejected(Remote("failed")))]
  {
    c := new AsyncChannel(Deliver);
    var r := c.Request(JsValue.Object(RawRequest(None, None, map[])), now, uuid);
    assert r == Ok(uuid);
    var thrown := c.HandleIncoming(JsValue.Object(Response(Some(uuid), Some("failed"), map[])));
    assert thrown == None;
  }

  /** channel.test.ts lines 81-112: a request with timeout 0 is pushed exactly once and is pending. */
  method ZeroTimeoutSent(uuid: string, now: int) returns (c: AsyncChannel)
    requires uuid != ""
    ensures fresh(c) && c.Valid() && |c.pushCalls| == 1 && c.settlements == []
    ensures c.requestPool == map[uuid := RequestContext(uuid, RawRequest(Some(uuid), Some(0), map[]), 0, now)]
    ensures c.ticketOf == map[uuid := 0] && c.ticking
  {
    c := new AsyncChannel(Deliver);
    var r := c.Request(JsValue.Object(RawRequest(None, None, map[])), now, uuid, 0);
    assert r == Ok(uuid);
  }

  /** A request with timeout 0 survives a tick at the instant it was sent. */
  method ZeroTimeoutSurvivesSameInstant(uuid: string, now: int) returns (c: AsyncChannel)
    requires uuid != ""
    ensures fresh(c) && c.Valid() && |c.pushCalls| == 1 && c.settlements == []
    ensures c.requestPool == map[uuid := RequestContext(uuid, RawRequest(Some(uuid), Some(0), map[]), 0, now)]
    ensures c.ticketOf == map[uuid := 0] && c.ticking
  {
    c := ZeroTimeoutSent(uuid, now);
    ghost var pool := c.requestPool;
    QuietTick(pool, now);
    var expired := c.Sweep(now);
    assert expired == [];
  }

  /** A tick at which no entry is past its timeout leaves the pool as it was. */
  lemma QuietTick(pool: map<string, RequestContext>, now: int)
    requires forall k :: k in pool ==> !Expired(pool[k], now)
    ensures Survivors(pool, now) == pool
  {
    assert Survivors(pool, now).Keys == pool.Keys;
  }

  /** channel.test.ts lines 81-93: the same request is rejected with "Request timeout" by a tick one millisecond later. */
  method ZeroTimeoutRejected(uuid: string, now: int) returns (c: AsyncChannel)
    requires uuid != ""
    ensures c.Valid() && c.requestPool == map[] && |c.pushCalls| == 1
    ensures c.settlements == [Settlement(0, uuid, Rejected(Timeout))]
  {
    c := ZeroTimeoutSurvivesSameInstant(uuid, now);
    var expired := c.Sweep(now + 1);
    OnlyKeyReached(expired, uuid);
  }

  /** A list of distinct keys that holds `u` is either `[u]` or holds some other key too. */
  lemma OnlyKeyReached(keys: seq<string>, u: string)
    requires u in keys
    requires forall i, j :: 0 <= i < j < |keys| ==> keys[i] != keys[j]
    ensures keys == [u] || exists k :: k in keys && k != u
  {
    if |keys| == 1 {
      assert keys[0] in keys;
    } else {
      assert keys[0] in keys && keys[1] in keys;
    }
  }

  /**
    channel.ts lines 28 and 43-45: with the base `push` the request fails
    with "Not implemented yet" after the one push call, and no entry is
    added; a duplicate id is refused before any push.
  */
  method BasePushFails(uuid: string, now: int) returns (c: AsyncChannel, r: Result<string, ChannelError>)
    requires uuid != ""
    ensures c.Valid() && c.requestPool == map[] && c.settlements == []
    ensures c.pushCalls == [RawRequest(Some(uuid), Some(DefaultTimeout), map[])]
    ensures r == Err(PushFailed("Not implemented yet")) && r.error.Message() == "Not implemented yet"
  {
    c := new AsyncChannel(NotImplemented);
    r := c.Request(JsValue.Object(RawRequest(None, None, map[])), now, uuid);
  }

  /**
    channel.ts lines 21-22: a request under a caller id is admitted, and a
    second request under the same id, while the first is pending, is refused
    before any push.
  */
  method DuplicatePendingIdRefused(id: string, uuid: string, now: int)
    returns (c: AsyncChannel, first: Result<string, ChannelError>, second: Result<string, ChannelError>)
    requires id != "" && uuid != "" && uuid != id
    ensures fresh(c) && c.hook == Deliver && c.Valid() && c.requestPool.Keys == {id} && |c.pushCalls| == 1
    ensures c.settlements == [] && c.ticketOf == map[id := 0] && c.issued == 1
    ensures first == Ok(id)
    ensures second == Err(DuplicateId) && second.error.Message() == "Request id must be unique"
  {
    c := new AsyncChannel(Deliver);
    var payload := JsValue.Object(RawRequest(Some(id), None, map[]));
    first := c.Request(payload, now, uuid);
    second := c.Request(payload, now, uuid);
  }

  /**
    channel.ts lines 21-22: only pool membership is checked, so once the
    pending request under a caller id has settled, the id is accepted again
    and the new request gets a new ticket.
  */
  method SettledIdReusable(id: string, uuid: string, now: int) returns (c: AsyncChannel)
    requires id != "" && uuid != "" && uuid != id
    ensures c.Valid() && c.requestPool.Keys == {id} && |c.pushCalls| == 2
    ensures c.settlements == [Settlement(0, id, Resolved(Response(Some(id), None, map[])))]
    ensures c.ticketOf == map[id := 1]
  {
    var first, second;
    c, first, second := DuplicatePendingIdRefused(id, uuid, now);
    var thrown := c.HandleIncoming(JsValue.Object(Response(Some(id), None, map[])));
    assert thrown == None && c.requestPool == map[];
    var r := c.Request(JsValue.Object(RawRequest(Some(id), None, map[])), now, uuid);
    assert r == Ok(id);
  }

  /**
    channel.ts lines 66-67 and 83-85: the constructor starts the cleaner, and
    since `stopCleaner` leaves the handle set, starting it again throws even
    after a stop.
  */
  method RestartAfterStopThrows() returns (c: AsyncChannel, first: Option<ChannelError>, second: Option<ChannelError>)
    ensures !c.ticking && c.timer == Some(DefaultInterval)
    ensures first == Some(CleanerRunning)
    ensures second == Some(CleanerRunning) && second.value.Message() == "Cleaner is already running"
  {
    c := new AsyncChannel(Deliver);
    first := c.StartCleaner();
    c.StopCleaner();
    second := c.StartCleaner(500);
  }
}
