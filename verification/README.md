# crab messaging core, modelled in Dafny

crab is a messaging library for browser extensions and web pages. A caller
sends requests over a one-way transport and waits for correlated responses.
A kernel routes incoming requests through per-port, per-event middleware
chains. This project models the sequential core of that library and proves
its behaviour:

- `channel.dfy` (module `Channel`) models `AsyncChannel`, the caller-side correlator.
  - Its pending-request table `requestPool` is a `map` field that the methods reassign.
  - Every promise settlement is recorded in a ghost log.
  - `Sweep(now)` is the body of the cleaner's periodic tick.
  - The class invariant says that every admitted request is either still pending or settled, and settled exactly once.
- `registry.dfy` (module `Registry`) models `Kernel`, the fluent registration builder.
  - The source hides state by reassigning the methods `handle` and `use`. Here that state is the explicit cursor `handlePort` / `useTarget`.
  - Each method is proved to perform exactly the pure map update that `AddPort`, `AddEvent` or `AddMiddleware` describes.
- `middlewares.dfy` (module `Middlewares`) models the cross-resolving middleware.
  - It is a pure function from the cross-resolving table and a request to the ordered list of callbacks it invokes.
- `freeze.dfy` (module `Freeze`) models the two `deepFreeze` variants as recursive methods over a heap of objects (`Realm`).
  - Each variant is specified by the sequence of objects it freezes.
  - Lemmas show that this sequence is exactly the reachable objects, in post-order.
  - They also show where the null-intolerant variant stops.
- `wrappers.dfy` holds `Option`, `Result` and JavaScript truthiness for optional strings.

The model encodes these JavaScript facts explicitly:
- `typeof null === 'object'`.
- A property read on `null` is a TypeError.
- An absent or empty string is falsy.
- An absent property key is looked up as the string `"undefined"`.
- Errors that are thrown become `Result`/`Option` values.
  - In `Channel`, `ChannelError.Message()` gives the exact strings the source throws. The one exception is `NullPropertyRead`, the engine's TypeError, whose text depends on the engine.
  - `Registry.KernelError` and `Freeze.FreezeError` are error kinds without a message.

Time and randomness become parameters:
- `now` is a number of milliseconds.
- `uuid` stands for `crypto.randomUUID()` and is assumed not to be a pool key.

Four facts about the code that shape the model:
- `request` calls `push` before it inserts the pool entry, so a throwing `push` leaves no entry.
- `handleIncoming` throws on a response that is not an object, has no `requestId`, or matches no pending entry.
- The registration API is `registerPort`/`port`/`registerEvent`/`handle`/`registerMiddleware`/`use`, and nothing else.
- A request without `resolveId` is looked up under the key `"undefined"`.

## Model

| member | source | states |
|---|---|---|
| Channel.Admit | src/core/channel.ts:19-25 | A non-object payload fails with "Payload must be 'object' type" and `null` fails with a TypeError. A truthy id that is already a pool key fails with 'Request id must be unique'. In every other case the payload is admitted. It keeps a truthy id, or otherwise takes the fresh id, and its other fields are unchanged. |
| Channel.Stamp | src/core/channel.ts:28 | The payload as pushed carries the given timeout, and its id and other fields are unchanged. |
| Channel.Lookup | src/core/channel.ts:48-54 | `null` is the TypeError of a property read (`NullPropertyRead`). A response that is not an object, or has a missing or falsy `requestId`, is invalid. An unknown id gives "can not find context of <id> to resolve". The lookup succeeds exactly when the response is an object whose truthy `requestId` is a pool key, and then the result is that key. |
| Channel.Verdict | src/core/channel.ts:57-61 | A matched response rejects with its error exactly when `error` is truthy. Otherwise it resolves with the whole response. |
| Channel.Expired | src/core/channel.ts:72-75 | An entry is expired exactly when `now` is past `sentAt + timeout`. With a non-negative timeout it is never expired at or before its send instant. |
| Channel.Survivors | src/core/channel.ts:71-79 | A tick at `now` keeps exactly the entries with `now - sentAt <= timeout`, each unchanged. |
| Channel.TimeoutSettlements | src/core/channel.ts:75-77 | Each expired key yields one "Request timeout" rejection for its ticket, in the order the keys were reached. |
| Channel.SweepStepExpired | src/core/channel.ts:75-77 | Rejecting and deleting an expired key advances the tick's progress invariant. |
| Channel.SweepStart | src/core/channel.ts:71-72 | Before a tick visits any key, nothing is expired or deleted yet and the pool, tickets and log are the ones the tick started from. |
| Channel.SweepDone | src/core/channel.ts:71-79 | After a tick has visited every key, the pool is exactly the unexpired entries. The expired keys are listed once each and rejected in that order with a timeout against their tickets. Every kept entry keeps its ticket. |
| Channel.LedgerInsert | src/core/channel.ts:31-38 | Adding an entry under a key that is not pending, with the next ticket, keeps every ticket pending or settled once, and never both. |
| Channel.LedgerSettle | src/core/channel.ts:56-63 | Settling and deleting a pending entry moves its ticket from pending to settled exactly once and keeps the rest of the ledger. |
| Channel.SweepStepKept | src/core/channel.ts:75 | Skipping a key that has not expired advances the tick's progress invariant. |
| Channel.SweepIdempotent | src/core/channel.ts:69-79 | A second tick at the same instant removes nothing more. |
| Channel.LaterSweepRemovesMore | src/core/channel.ts:72-75 | Expiry is monotone in time. A tick at `t1` followed by one at `t2 >= t1` is the same as the tick at `t2` alone. |
| Channel.ResponseAndSweepCommute | src/core/channel.ts:47-79 | A matching response and a tick give the same pool in either order. Any response for an entry that has already expired is refused with "can not find context". |
| Channel.ZeroTimeoutExpiresAfterOneMillisecond | src/core/channel.ts:72-75 | A pending entry with timeout 0 survives, unchanged, a tick at or before its send instant, and is removed by any tick at a later millisecond. |
| Channel.AsyncChannel.constructor | src/core/channel.ts:11-13 | A new channel has an empty pool and no settlements, and its cleaner is started. |
| Channel.AsyncChannel.Push | src/core/channel.ts:43-45 | The call is recorded. The base `push` throws 'Not implemented yet'. |
| Channel.AsyncChannel.Request | src/core/channel.ts:15-40 | A refused payload causes no push and leaves the pool unchanged. Otherwise push is called exactly once, with the payload stamped with `timeout`. If push throws, no entry is added. If push returns, exactly one entry is added under the payload id, with that payload, the timeout and `sentAt = now`, and the class invariant is kept. |
| Channel.AsyncChannel.InsertEntry | src/core/channel.ts:31-38 | Stores the context under its request id, gives it the next ticket, and keeps the class invariant. |
| Channel.AsyncChannel.SettleEntry | src/core/channel.ts:56-63 | Settles the entry once, logs the outcome against its ticket, and deletes exactly that entry. |
| Channel.AsyncChannel.HandleIncoming | src/core/channel.ts:47-64 | An invalid or unmatched response throws and changes nothing. A matched response settles the entry with its verdict and deletes exactly that entry. |
| Channel.AsyncChannel.StartCleaner | src/core/channel.ts:66-69 | Throws 'Cleaner is already running' while a timer handle is set. Otherwise it sets the handle. |
| Channel.AsyncChannel.StopCleaner | src/core/channel.ts:83-85 | Stops the ticks (`Sweep` requires `ticking`, as the interval callback runs only while the interval is active) and leaves the handle set. |
| Channel.AsyncChannel.ExpireIfDue | src/core/channel.ts:72-78 | One iteration of the tick keeps the class invariant and the progress invariant. |
| Channel.AsyncChannel.Sweep | src/core/channel.ts:69-80 | Runs only while the cleaner is ticking. Every expired entry is rejected with "Request timeout" exactly once and deleted. Every other entry and its ticket are kept. The class invariant holds afterwards. |
| Channel.RoundTrip | src/core/test/channel.test.ts:62-79 | A payload without an id is pushed once under the fresh id, and a matching response without an error resolves it with the whole response. |
| Channel.ErrorResponseRejects | src/core/test/channel.test.ts:42-60 | A matching response with error 'failed' rejects with 'failed'. |
| Channel.ZeroTimeoutSent | src/core/test/channel.test.ts:95-112 | A request with timeout 0 is pushed exactly once and is pending. |
| Channel.ZeroTimeoutSurvivesSameInstant | src/core/channel.ts:75 | A tick at the send instant does not expire a zero-timeout request. |
| Channel.ZeroTimeoutRejected | src/core/test/channel.test.ts:81-93 | A tick one millisecond later empties the pool, and the only settlement ever made is the rejection of that request with "Request timeout". |
| Channel.BasePushFails | src/core/channel.ts:43-45 | With the base `push`, the request returns the error 'Not implemented yet' after its single push call, and no entry is added. |
| Channel.DuplicatePendingIdRefused | src/core/channel.ts:21-22 | The first request under a caller id is admitted under that id. A second request under the same pending id is refused with 'Request id must be unique' before any push. |
| Channel.SettledIdReusable | src/core/channel.ts:21-22 | Once a request has settled, its id is accepted again, under a new ticket. |
| Channel.RestartAfterStopThrows | src/core/channel.ts:66-85 | Starting the cleaner again throws 'Cleaner is already running', both before and after `stopCleaner`. |
| Registry.AddPort | src/core/kernel.ts:9-12 | A port is stored only if its key is absent. An existing port is kept. |
| Registry.AddPortIdempotent | src/core/kernel.ts:9-12 | Registering under the same key twice has the same effect as registering once. |
| Registry.AddEvent | src/core/kernel.ts:27-36 | An unregistered port is a TypeError. A port without `eventsMap` gets `{e: {handlers: []}}`. A port with an `eventsMap` is left exactly as it was. |
| Registry.AddMiddleware | src/core/kernel.ts:43-57 | `m` is appended to the end of (port, event), which is created empty if needed. Every other port and event list is unchanged. A missing port or `eventsMap` is a TypeError. |
| Registry.ChainAppendsInOrder | src/core/kernel.ts:48-54 | A chain of `use` calls appends its middlewares in call order and touches no other list. |
| Registry.Kernel.constructor | src/core/kernel.ts:3-7 | A fresh kernel has no ports, and `handle` and `use` are unbound. |
| Registry.Kernel.RegisterPort | src/core/kernel.ts:9-15 | Keeps an existing port, binds `handle` to the key, does not rebind `use`, and returns the same kernel. |
| Registry.Kernel.Port | src/core/kernel.ts:17-25 | An absent key throws "port with key … is not registered". Otherwise `handle` is rebound (never `use`) and the same kernel is returned. |
| Registry.Kernel.RegisterEvent | src/core/kernel.ts:27-37 | Binds `use` to (port, event) exactly when it creates the port's `eventsMap`. Otherwise nothing changes. |
| Registry.Kernel.Handle | src/core/kernel.ts:39-41 | Unbound, it throws '"handle" must be used followed by "port" method'. Bound, it is `registerEvent` on the bound port. |
| Registry.Kernel.RegisterMiddleware | src/core/kernel.ts:43-57 | Performs exactly the update of `AddMiddleware` and returns the same kernel. |
| Registry.Kernel.Use | src/core/kernel.ts:59-61 | Unbound, it throws '"use" must be used followed by "handle" method'. Bound, it appends to the bound event. |
| Registry.HandleThenUseThree | src/index.ts:19-23 | `handle(e)` followed by three `use` calls gives the port exactly event `e` with the three handlers in order. |
| Registry.IndexChain | src/index.ts:14-35 | The demo registration yields three ports, each with its one event and three handlers in call order. |
| Registry.FreshKernelThrows | src/core/kernel.ts:17-61 | On a fresh kernel, `handle`, `use` and `port` return their three distinct refusals and register nothing. |
| Registry.SecondHandleIgnored | src/core/kernel.ts:27-36 | A second `handle` on a port that already has events registers nothing, so the next `use` goes to the first event. |
| Registry.PortDoesNotRebindUse | src/core/kernel.ts:17-33 | After moving to another port, `use` still appends to the previously bound event. |
| Middlewares.PropertyKey | src/core/middlewares.ts:19-20 | A present `resolveId` is its own lookup key. |
| Middlewares.HandleCrossResolving | src/core/middlewares.ts:18-28 | The last effect is a `respond`, and `next` is never called. |
| Middlewares.CrossResolvingContract | src/core/middlewares.ts:18-28 | `respond` is called exactly once and last. Its response carries 'Can not find context for cross-resolving' exactly when the key has no entry, and then no resolver runs. Otherwise the entry's resolver runs once, with `resolvePayload`, before the error-free acknowledgement. |
| Middlewares.AbsentIdLooksUpUndefined | src/core/middlewares.ts:19-22 | A request without `resolveId` gets the not-found error, unless the table holds the key "undefined". |
| Middlewares.OnlyTheRequestedEntryMatters | src/core/middlewares.ts:20-27 | The middleware reads only the entry under the request's key. |
| Freeze.Realm.DeepFreeze | src/utils/index.ts:1-9 | A non-object (`null`, `undefined`, primitive or function) returns `undefined` and freezes nothing. An object is returned itself, after freezing exactly the sequence `Order`. |
| Freeze.Realm.DeepFreezeStrict | src/utils.ts:1-9 | It freezes exactly the sequence `StrictOrder`. It returns the same object exactly when the traversal completes, and otherwise throws the TypeError of `Object.keys(null)`. src/core/utils.ts lines 1-9 have the same body. |
| Freeze.OrderIsReachable | src/utils/index.ts:2-5 | The tolerant variant freezes exactly the objects reachable from its argument. Null, primitive and function children are skipped. |
| Freeze.Order | src/utils/index.ts:1-9 | The tolerant traversal freezes nothing for a non-object. For an object it freezes the object itself last. |
| Freeze.OrderOfIsReachable | src/utils/index.ts:4-6 | The properties traversed so far freeze exactly what is reachable through them. |
| Freeze.OrderChildrenFirst | src/utils/index.ts:4-8 | Every object is frozen after every object its properties hold (post-order). |
| Freeze.HeldObjectInOrderOf | src/utils/index.ts:4-6 | Every object held by a traversed property is frozen during the traversal of its parent's keys. |
| Freeze.StrictMatchesTolerant | src/utils.ts:2-8 | The strict variant completes exactly when no `null` is reachable. In that case it freezes the same objects in the same order as the tolerant one. |
| Freeze.StrictFailureSticks | src/utils.ts:2-6 | After a property's traversal throws, no later property is visited. |
| Freeze.Realm.VisitStrict | src/utils.ts:2-6 | The forEach callback for one property recurses exactly when `typeof` the value is "object". It reports a throw exactly when that recursion throws, and freezes exactly what `StrictVisit` freezes, in order. |
| Freeze.Realm.VisitKeysStrict | src/utils.ts:2-6 | Visits the keys in order until one visit throws. It reports the throw and freezes exactly what `StrictOrderOf` over all keys freezes. |
| Freeze.StrictVisit | src/utils.ts:2-6 | The callback for one property skips a value whose `typeof` is not 'object', throws at once for `null`, and on completing an object has frozen that object last. |
| Freeze.StrictOrder | src/utils.ts:1-9 | The strict traversal of `null` throws without freezing anything. When a traversal completes, its argument is an object and is the last thing frozen. |
| Freeze.StrictThrowLeavesParentUnfrozen | src/core/utils.ts:3-8 | When the traversal throws, the argument itself is not frozen. |
| Freeze.StrictFrozenBelow | src/core/utils.ts:2-8 | The strict traversal of an object freezes nothing that ranks above it. |
| Freeze.StrictFrozenOnlyGrows | src/core/utils.ts:2-6 | Objects frozen for earlier properties stay frozen, whatever later properties do. |
| Freeze.NullPropertyAborts | src/utils.ts:3-4 | On `{a: {}, b: null}`, the strict variant freezes the inner object and then throws. The outer object stays unfrozen. The tolerant variant freezes both. |

## Findings

| source | as written | input that shows it | evidently intended | confidence | as-written member | corrected member |
|---|---|---|---|---|---|---|
| src/utils.ts:3-4 (and src/core/utils.ts:3-4) | Every property whose `typeof` is 'object' is recursed into, including `null`. `Object.keys(null)` then throws. | `deepFreeze({a: {}, b: null})` throws after freezing `a`, and the argument stays unfrozen. | Skip `null` children and freeze every reachable object, as the guard at src/utils/index.ts:2 does. | high, not executed | Freeze.NullPropertyAborts | Freeze.OrderIsReachable |

## Left out

- Timers and clocks: `setInterval`, `clearInterval` and `new Date()` are replaced by a `now` argument and the `Sweep` method. `timer` holds the interval rather than the host's handle.
- `crypto.randomUUID()` becomes a `uuid` argument that is assumed fresh (not a pool key).
- Promise semantics: settlement is recorded in a ghost log, with no scheduling of callbacks.
- `request` mutates the caller's payload object. Its `id` and `timeout` are written even when `push` then throws. The model returns the stamped payload as a value and does not model aliasing of the caller's object.
- Channel.AsyncChannel.Sweep: the `for...in` iteration order is not modelled. The order in which expired keys are reached is a ghost result, constrained only to hold each expired key exactly once.
- Channel.Expired: timeouts and times are integers. JavaScript's `number` also allows `NaN` and `Infinity`, and an entry with a `NaN` timeout is never expired by `duration > timeout` (src/core/channel.ts:75). That entry stays pending until a response arrives. `Channel.AsyncChannel.Sweep` does not model it, and fractional values are not modelled either.
- Keys that are names of `Object.prototype` members (such as "constructor") are not modelled. For those, a JavaScript lookup in `requestPool`, in the cross-resolving table, in `portsMap` or in an `eventsMap` would find the inherited member. For example, `registerPort("constructor", port)` finds `Object` and stores nothing (src/core/kernel.ts:10), and a later `registerEvent` on that key writes `eventsMap` onto `Object` (src/core/kernel.ts:28-29).
- Ports are stored by reference (src/core/kernel.ts:11) and updated in place (src/core/kernel.ts:29, 49, 54). `PortEntry` is a value, so the model does not capture one port object registered under two keys: in the source the two keys share one `eventsMap`, and a `handle` or `use` through one key shows through the other.
- Port and event keys are generic. JavaScript's conversion of number keys to strings is not modelled.
- `run` / `execute` and the middleware dispatch chain are not part of this model, and neither is the transport code in src/chrome and src/web.
- `crossResolvingContext` is read by the middleware but is not a field of the `Kernel` in src/core/kernel.ts. The table is a parameter here, and the TypeError the real code would raise is not modelled.
- The resolver stored in the table is assumed to be callable. A non-function `resolve` (a TypeError) is not modelled.
- `deepFreeze` on cyclic object graphs does not terminate. The model requires an acyclic heap, witnessed by a ghost rank.
- Freeze.Realm.DeepFreezeStrict: a function passed as the root (allowed by the parameter type `object`) is not modelled. Its argument must be an object, or the `null` it recurses into.
- Own properties of function values are not modelled. Neither variant traverses a function.
