# Verified model of heresy's request machinery

heresy runs JavaScript handlers as HTTP middleware.  Around each request it has
hand-written concurrency: objects from bounded pools are shared by the HTTP goroutine,
the event loop and helper goroutines, and are recycled by an asynchronous cleanup
protocol.  This project models that machinery in Dafny and proves what it keeps.

## What is modelled

**The joint system** (`Objects`, `Programs`, `Middleware`).  One runtime instance
serving any number of FetchEvent requests, as a labelled transition system: the request
goroutine, the handler and its promises, nested `waitUntil`s, fetch goroutines and their
callbacks, the goroutines of the response protocol, and the `wait` and `release`
goroutines, interleaved step by step over six kinds of pooled and reused object.  The
goroutines of the response protocol are small programs (`Prog`) run one instruction at a
time.  The two narrow windows of a fetch are steps of their own: its promise may settle
before its deferred `ReleaseFetchToken` runs, and `fetchGroup.Done` comes before
`limiter.Release`, so that a context may serve its next request with a permit still out.

A `waitUntil` is followed through its wrapper on the script's side: its promise settles,
the wrapper calls the resolve callback, and the reject callback if the promise was
rejected or the resolve call failed.  The goroutines of `readInto` and of the KV
operations read the stream's reader, or the proxy's context, in a step of their own some
time after the call.

`Obeys` is the documented usage rule (`extensions/common/io_context.go:40-46`,
`README.md:107`): the event, and what hangs off it, is used by active owners only (the
handler until it settles, the promise given to `respondWith`, the promise of a
`waitUntil` until it settles); a promise settles after the fetches, reads and KV
operations it awaits; and a handler does not throw synchronously once `respondWith` has
accepted an argument.  Everything else is free: any
schedule, any outcome of a fetch, the client leaving at any time.  A `respondWith`
promise rejected with undefined is inside the model: `CompletableExactly` says what it
costs.

`Invariants` says what every step keeps; `Potentials` counts what a goroutine has still
to do; `Frames`, `Ownership`, `EventSteps`, `LocalSteps`, `RequestSteps`, `FetchSteps`,
`TakeSteps`, `ScriptSteps`, `SettleSteps`, `TaskSteps` and `EndSteps` prove it step by
step and `Safety` puts it together.  `Theorems`, `Teardown`, `Marking`, `Completion` and
`Ending` hold the results on every reachable state and run.  `Lifetimes`, `Effects` and
`Presence` say of every step what it waits for, what it leaves behind and what it finds;
`Delivery` what can still happen.  `Alone` tells each step from the record of its own
request, and `History` and `Isolation` draw from it that a request is told by its own
steps, whatever it shares with others.  `Misuse` and `StaleCalls` say what breaking the
rule costs, and exactly when.

**The objects as the code has them.**  `IOContexts`, `Pools`, `FetchEvents`,
`KVMappers`, `HeadersView`, `Bodies`, `ExpressContext` and the class in `Shards` are
classes with the fields, loops and branches of the code; their methods are proved to
compute the functions that the transition system and the other results speak of.

**Express, headers and bodies.**  `Express` tells the output of a request twice, call by
call and from the list of calls alone, and proves the two equal for every list;
`HttpHeaders` does the same for `res.set`.  `Bodies` accounts for every byte of a reader
among its three consumers.

**Shards.**  `Shards` is a second transition system, of concurrent `LoadScript` and `Stop`
calls over the atomic pointers; `RoundRobin` counts the requests that a wrapping 32-bit
counter deals out.

Time, the network, the JavaScript engine and what a handler chooses to do are parameters
or free choices.  `home`, `registered`, `ran`, `trace`, `place` and `log` are history:
no step reads them to decide what to do.

## Model

| member | source | states |
|---|---|---|
| `Theorems.NeverCrashes` | extensions/common/io_context.go:35-118 | in no interleaving of any number of requests that obeys the usage rule is a nil context, event or proxy dereferenced, a wait group taken below zero or the semaphore over-released; and obeying steps stay among the reachable states |
| `Theorems.CleanupSafety` | extensions/common/io_context.go:86-118 | while cleanup functions run the request goroutine has returned, no handler, respondWith promise or waitUntil is live, every wrapper of a waitUntil has called back, every goroutine of readInto or of a KV operation has read what it reads and settled, both groups are at zero, every fetch has settled and passed fetchGroup.Done, and no goroutine of the response has anything left to do |
| `Theorems.FetchKeepsItsContext` | extensions/fetch/request_wrapper.go:57-95 | until its callback has run and its count is given back, whatever a fetch goroutine or callback reads as f.ioContext is the context of the request that made the call, and that context has not changed hands |
| `Theorems.EventKeepsItsContext` | event/fetch_event.go:191-221 | while the handler, its response or a waitUntil goes on, whoever reads evt.ioContext late finds its own request's context, owned by that request, and the event too |
| `Theorems.LateReadsFindTheirs` | extensions/stream/readable_stream.go:93-122 | no cleanup has begun while a goroutine of readInto or of a KV operation has not settled: it finds its stream's reader, the stream being its own request's, or the context of its own request, uncancelled and in no other hands |
| `TaskSteps.TaskFinds` | extensions/kv/kv_proxy.go:37-88 | the late read of kv.ioContext finds the context of the request that made the call, in every state that satisfies the invariant |
| `TaskSteps.KeepsRunTask` | extensions/kv/kv_proxy.go:37-88 | the late read dereferences no nil reader and no nil context, and keeps the invariant for every request |
| `Theorems.PooledContextIsQuiet` | extensions/common/io_context_pool.go:36-56 | a context in its pool is idle; every request that ever used it is closed with nothing live, no wrapper that has still to call back and no goroutine of the response, of a fetch, of readInto or of KV left, but for a pending limiter.Release |
| `Theorems.ExactlyOneOutcome` | event/fetch_event.go:243-377 | when the request goroutine returns, exactly one outcome has been written in full: next, the copied response, 204, or 500 with its report; nothing only for a throw after the client had gone; never with respondWith unsettled |
| `Theorems.StatusAtMostOnce` | event/fetch_event.go:257-377 | at every moment what has been written is a beginning of that one outcome, so the status is written at most once and never beside next |
| `Theorems.NothingWrittenAfterReturn` | runtime_handler.go:71-96 | along every continuation of every run nothing is written for a request whose Wait has returned |
| `Theorems.NoSendBlocks` | event/fetch_event.go:54-55 | a goroutine that comes to a send on requestDone or responseDone finds that channel of capacity one empty |
| `Theorems.OneWakeEach` | event/fetch_event.go:223-229 | both channels hold at most one token; requestDone holds one exactly when the outcome is decided, the goroutine that wakes has finished and Wait has not returned; both are empty once it has |
| `Theorems.PooledEventIsFresh` | event/fetch_event_pool.go:56-69 | an event in its pool equals a new one, channels included, so the next request is not woken by an old token |
| `Theorems.PooledIsReset` | extensions/stream/extension.go:87-118 | every object of the six kinds that is in its pool, or was dropped by a full one, is as empty as a new one, field by field: it holds no request, response, context or other pooled object |
| `Theorems.ExactlyOnePlace` | extensions/common/x/pool.go:31-44 | every object ever made is in its pool at one position, or on one open request's stack at one position, or dropped, and never in two of these |
| `Theorems.Conservation` | extensions/common/x/pool.go:31-44 | for each kind, created = pooled + owned + dropped |
| `Theorems.CleanupsInReverse` | extensions/common/io_context.go:86-118 | at every moment what has run is what was registered above the remaining stack, backwards; when release returns, all of it, each once |
| `Theorems.ResetAboveReturn` | extensions/stream/response_proxy.go:42-55 | a proxy's reset stands above its return and so runs first |
| `Theorems.PermitsConserved` | extensions/common/io_context.go:72-84 | the permits out on a context are exactly the fetch goroutines, of this and of all earlier requests, between Acquire and Release, and never more than ten |
| `Theorems.GroupsConserved` | extensions/common/io_context.go:49-84 | the two group counters count exactly the outstanding waitUntils and the counted fetches of the one request that owns the context |
| `Theorems.ExtendedWhileOutstanding` | extensions/common/io_context.go:54-62 | while a waitUntil is outstanding Context() is the extended context and it is not cancelled, whether or not the request context is done |
| `Teardown.ResponseTakenDownInOrder` | extensions/stream/response_proxy.go:42-55 | on the stack a fetched response's headers stand above its reset, its stream right below the reset, its proxy below that: taken down in the opposite order they come headers, reset, stream, proxy |
| `Safety.StepKeeps` | extensions/common/io_context.go:35-118 | each of the thirty-three kinds of step, taken in any state that satisfies the invariant, keeps it for the request that steps and for all the others |
| `Safety.ReachableInv` | runtime_handler.go:71-96 | the invariant holds in every state reachable from a runtime instance without requests |
| `History.RunAdvancesAll` | event/fetch_event.go:223-229 | along every run writes are only added, and none after the return; a promise that has settled stays as it settled; a concluded waitUntil stays concluded; a request done or closed stays so |
| `History.ConcludesExactlyOnce` | extensions/promise/wrapper.ts:1-12 | over every run the callback that waitUntil gives the wrapper as resolve and as reject is called for it exactly once if the wrapper finishes in that run, and not at all otherwise; a failed resolve call, which would be followed by a second, never happens |
| `Theorems.ConcludeNeverFails` | extensions/common/io_context.go:49-52 | whichever call the wrapper makes finds evt.ioContext set and the counter above zero, and takes exactly one off the counter of its own request's context |
| `Completion.CompletableExactly` | event/fetch_event.go:322-336 | from every reachable state there is a rule-obeying run after which the request's context is given back, if and only if its respondWith promise has not been rejected with undefined |
| `Completion.NeverReturns` | event/fetch_event.go:322-336 | after a rejection with undefined no run makes Wait return or the context come back |
| `Completion.SomethingHelps` | runtime_handler.go:71-96 | in every state of an open request some step obeys the rule and makes a natural-number measure of its remaining work fall |
| `Ending.EndsUnderAnySchedule` | extensions/common/io_context.go:95-118 | once the handler has returned, the client has left or a waitUntil was accepted, every waitUntil has concluded and every fetch has passed Done: a wait or release step is always enabled until the context is back, other requests' steps never add to what remains, and as many steps as remained bring it back, in every run |
| `Ending.StepEnds` | extensions/common/io_context_pool.go:45-56 | no step of anybody increases the phases and cleanups that remain to such a request, and each wait or release step of its own decreases them |
| `Misuse.ThrowExactly` | event/fetch_event.go:243-255 | a synchronous throw can lead to two statuses, to a Wait that nobody ends, or to a return before the response is made, if and only if respondWith had been accepted; in every reachable state |
| `Misuse.LateWaitUntilExactly` | extensions/common/io_context.go:35-47 | a waitUntil that comes while the event is in place can see its context cancelled under it if and only if the wait goroutine has already chosen not to wait for extenders |
| `StaleCalls.StaleWaitUntil` | event/fetch_event.go:202-209 | a waitUntil after release has begun to clean up, in every case: with the event in nobody's hands, and only then, it dereferences nil; with another request having it, that request's group gets a count it never made; and exactly until the event's own return has run it is the request itself, whose context release then puts with a count of one that the next request inherits |
| `Theorems.AwaitEndsExactly` | event/fetch_event.go:338-377 | a resolver or rejector that waits for the response goes on if and only if the response promise has settled, not with undefined, and its goroutine has come to its end |
| `Theorems.RequestGoroutineInTurn` | runtime_handler.go:71-96 | the request goroutine does one thing at a time: the call of the handler, the exception callback to its end, and only then the wait |
| `Marking.SentTellsWritten` | event/fetch_event.go:243-377 | responseSent against what is written, in every reachable state: set before the first write of a copied response, a 204, next or the rejector's report; only after the last write of a failed response's or an exception's; and not set while nothing is decided |
| `Lifetimes.WaitsForClient` | extensions/common/io_context.go:95-105 | the wait goroutine has got past what it waits for only if the client has left or a waitUntil was accepted, and waits for the one or the other accordingly |
| `Lifetimes.ContextOutlivesClient` | extensions/common/io_context.go:95-118 | while the client is there and no waitUntil was accepted the extended context is not cancelled and no cleanup has run |
| `Lifetimes.ContextGiven` | extensions/common/io_context.go:54-62 | of every open request still in use: Context() is the request context if no waitUntil was accepted, and otherwise the extended one |
| `Lifetimes.FetchAsks` | extensions/common/io_context.go:72-79 | a fetch asks for its permit under the context that Context() gives at that moment |
| `Lifetimes.FetchRefusedExactly` | extensions/common/io_context.go:72-79 | a fetch waits under the extended context only if a waitUntil was accepted; it can be refused if and only if it waits under the request context and the client has left |
| `Lifetimes.FetchAdmittedExactly` | extensions/common/io_context.go:72-79 | a waiting fetch can go on if and only if fewer than ten fetches, of this and earlier requests, have a permit of that context |
| `Lifetimes.WaitBlocksExactly` | extensions/common/io_context.go:95-105 | in each of its phases the wait goroutine can go on if and only if: the client has left, or every waitUntil's wrapper has called back, or it has nothing to wait for |
| `Lifetimes.ReleaseBlocksExactly` | extensions/common/io_context.go:107-118 | and the release goroutine: the wait goroutine has ended, then every fetch has passed fetchGroup.Done, then at once |
| `Presence.ScriptFinds` | event/fetch_event.go:86-221 | what the script's calls and the promises' callbacks look up is there and their own request's: the event's context, its writer, the headers pool, the fetcher's context, a response's context |
| `Presence.ResponderFinds` | event/fetch_event.go:243-377 | a goroutine of the response that has anything left to do finds the event with its own request's writer |
| `Presence.FetchFindsIts` | extensions/fetch/request_wrapper.go:57-95 | in each stage of a fetch its fetcher is bound to its request's context where it is read, the context captured is that one, and count and permit are there to be given back |
| `Presence.EndFinds` | extensions/common/io_context.go:95-118 | wait finds its request context and an uncancelled extended one; release finds it cancelled once wait has ended, the headers pool set and a reader in every stream it is to return |
| `Alone.StepOwn` | runtime_handler.go:71-96 | a step changes the record of its own request and of no other, and how is told from that record alone, whatever the shared pools, contexts and events have been through |
| `History.WhatWasDoneLasts` | extensions/fetch/request_wrapper.go:84-94 | if a run contains a fetch's return with ok, then ever after its promise is settled or due to settle with that ok; likewise a refusal, a settled promise, a conclusion, a return of Wait and the client's leaving |
| `History.WhatShowsWasDone` | extensions/fetch/request_wrapper.go:84-94 | conversely, what a request shows at the end of a run and did not at its start was done in the run, by the step that does it |
| `History.ToldByTheRun` | event/fetch_event.go:243-377 | together: a handler's outcome, a use of respondWith, its settling, a fulfilled fetch and a client gone are shown at the end of a run if and only if the run contains their step |
| `Isolation.AnswerToldByTheRun` | event/fetch_event.go:243-377 | of every request that has returned: what it answered, told by which of its promises settled how in the run that led there |
| `Isolation.ThrowAnswer` | event/fetch_event.go:243-255 | a handler that throws when its client has left answers nothing; one whose client is still there at the end answers 500 |
| `Isolation.ToldByItsOwnSteps` | runtime_handler.go:71-96 | the record of a request after a run, but for the names of the objects it was given, is a function of the steps of that request in the run |
| `Isolation.SameStepsSameRecord` | runtime_handler.go:71-96 | so two requests, of whatever runs and beside whatever others, that take the same steps end with the same answer and settle alike |
| `Delivery.FetchCanComeBack` | extensions/fetch/request_wrapper.go:57-95 | from every reachable state in which a fetch is under way, a run that obeys the rule fulfils its promise, with the response bound to the request's context, its stream below its reset and both above its return |
| `Delivery.FetchCanSucceed` | extensions/fetch/request_wrapper.go:57-95 | in every reachable state a new request can come, call fetch and be given its response |
| `Delivery.ScriptIsFree` | event/fetch_event.go:86-221 | an owner whose promise has not settled can at once take every step that the rule allows it |
| `Delivery.HandlerIsFree` | event/fetch_event.go:158-189 | a handler in its call can return, throw or call respondWith, and settle either way once what it awaits has |
| `Delivery.ResponseIsFree` | event/fetch_event.go:257-336 | the promise of respondWith can settle with every outcome once what it awaits has |
| `Delivery.OthersAreFree` | extensions/promise/wrapper.ts:1-12 | the promise of a waitUntil can settle either way, a request in flight come back either way, and the client leave |
| `Delivery.AwaitedFirst` | extensions/promise/wrapper.ts:1-12 | whoever has called or taken over a fetch, or started a late read, is not settled before it |
| `Effects.FetcherMade` | extensions/fetch/extension.go:129-140 | the first read of fetch takes a fetcher, binds it to the reader's context and registers its return; the later reads change nothing |
| `Effects.HeadersMade` | extensions/common/io_context.go:64-70 | the first read of headers takes a proxy, gives it the header and registers its return; the later ones change nothing |
| `Effects.BodyMade` | event/fetch_event_request.go:41-48 | the first read of the body takes a stream, gives it the reader and registers its return; the later ones change nothing |
| `Effects.KVBound` | event/fetch_event.go:108-113 | a read of kv binds its proxies to the request's context |
| `Effects.FetchCalls` | extensions/fetch/request_wrapper.go:21-55 | a call of fetch takes a clean proxy, registers its return and, above it, the reset of a text body's buffer; an unsupported body is rejected without a goroutine, any other starts one |
| `Effects.CallbackFulfils` | extensions/stream/response_proxy.go:42-48 | a good callback leaves the response bound to the request's context with its stream, whose return is right below the response's reset and above its return |
| `Effects.ResponseHeadersMade` | extensions/stream/response_proxy.go:64-70 | the first read of a response's headers takes a proxy and registers its return; the later ones change nothing |
| `Effects.TextRegistered` | event/fetch_event.go:287-290 | a Response with a text body registers the reset of its buffer, any other nothing |
| `EndSteps.KeepsArrive` | extensions/common/io_context_pool.go:36-43 | a new request takes an idle context, pooled or new, and starts an incarnation on it; every object that another request has, or nobody, is left as it was |
| `EndSteps.KeepsTakeEvent` | event/fetch_event_pool.go:56-63 | the event a request takes is a new one but for its context and writer, and its return is the only thing on the stack |
| `RequestSteps.KeepsWaitReturn` | runtime_handler.go:71-96 | when Wait takes its token the response is complete and all spawned goroutines of the response are done, so Put may start wait and release |
| `RequestSteps.KeepsThrow` | event/fetch_event.go:243-255 | a throw before any respondWith leaves Exception alone to write and wake |
| `RequestSteps.KeepsRespondWith` | event/fetch_event.go:158-189 | the first respondWith moves the whole response to its own promise; a second changes nothing |
| `RequestSteps.KeepsWaitUntil` | event/fetch_event.go:191-221 | an extender may be added at any time until the wait goroutine has looked past the extenders |
| `RequestSteps.KeepsConclude` | event/fetch_event.go:204-209 | the cached conclude callback, reading evt.ioContext when it runs, lowers the counter of its own request's context by exactly one and touches no other context and no other request |
| `RequestSteps.KeepsFulfil` | extensions/promise/wrapper.ts:1-12 | the promise of a waitUntil settles only after what it awaits, and its count stays outstanding until the wrapper has called back |
| `RequestSteps.KeepsSettle` | event/fetch_event.go:338-377 | the spawned resolver or rejector owes one wake, and the mark and writes that fit whether respondWith was used |
| `RequestSteps.KeepsRun` | event/fetch_event.go:257-377 | one instruction of any response goroutine keeps the balance of marks, wakes, sends and writes done and still owed |
| `FetchSteps.KeepsFetchRead` | extensions/fetch/request_wrapper.go:57-70 | the goroutine's two late reads of f.ioContext find its own context |
| `FetchSteps.KeepsFetchCount` | extensions/common/io_context.go:72-84 | acquire, group Add and group Done keep permits and counts equal to the goroutines between them |
| `FetchSteps.KeepsLateRelease` | extensions/common/io_context.go:81-84 | a Release that comes after the context has been given to another request, or pooled, changes nothing but the goroutine's own counter and the context's permits |
| `FetchSteps.KeepsWaitStep` | extensions/common/io_context.go:95-105 | a step of the wait goroutine keeps the invariant, which has it past its wait only when nobody of the request is live any more and the client has left or a waitUntil was accepted |
| `FetchSteps.KeepsReleaseFetches` | extensions/common/io_context.go:107-109 | release starts to clean up only when every fetch has passed Done |
| `ScriptSteps.KeepsReadFetch` | extensions/fetch/extension.go:129-140 | a fetcher is bound to the reader's own context until its return runs |
| `ScriptSteps.KeepsFetchCall` | extensions/fetch/request_wrapper.go:21-55 | a call takes a clean proxy and registers its return, for an unsupported body too |
| `ScriptSteps.KeepsReadHeaders` | extensions/common/io_context.go:64-70 | a headers proxy is owned by one request and its return is registered with it |
| `ScriptSteps.KeepsReadBody` | event/fetch_event_request.go:41-57 | a request body's stream has its reader from the moment its return is registered, so the return never drains a nil reader |
| `ScriptSteps.KeepsReadResponseHeaders` | extensions/stream/response_proxy.go:57-78 | reading headers of a fulfilled response finds its context and response still set |
| `SettleSteps.KeepsGoodCallback` | extensions/stream/response_proxy.go:42-48 | binding a response registers stream return and reset above the proxy's return, on the context of the request that fetched |
| `SettleSteps.KeepsSettleResponse` | event/fetch_event.go:257-336 | the responder of every outcome owes one mark and one send, or neither when rejected with undefined |
| `EndSteps.KeepsCleanup` | extensions/common/io_context.go:113-116 | each cleanup takes the top off its own stack, leaves the object it returns reset and in nobody's hands, and every object of another request as it was |
| `EndSteps.KeepsRetire` | extensions/common/io_context_pool.go:47-52 | after the last cleanup the context is idle: both counters zero and nothing left on it |
| `EndSteps.KeepsPut` | extensions/common/io_context_pool.go:53-54 | the context enters its pool once, idle, or is dropped |
| `IOContexts.DrainedRunsAll` | extensions/common/io_context.go:113-117 | running all cleanups from the top empties the stack and adds exactly the registered functions in reverse |
| `IOContexts.IOContext.RegisterCleanup` | extensions/common/io_context.go:86-93 | nil is ignored; otherwise the function is appended, whether or not the buffer had to grow, and the slots not in use stay empty |
| `IOContexts.IOContext.Release` | extensions/common/io_context.go:107-118 | one call does what the transition system does pop by pop, and leaves no slot holding a function of this request |
| `IOContexts.IOContext.RunAll` | extensions/common/io_context.go:113-116 | the loop runs every registered function once, from the last to the first, and leaves every slot of the buffer empty |
| `IOContexts.IOContext.End` | extensions/common/io_context_pool.go:45-56 | a whole wind-down leaves the context idle, every function run once in reverse order and the buffer empty for the next request |
| `IOContexts.IOContext.ConcludeExtend` | extensions/common/io_context.go:49-52 | a counter that would go below zero panics and nothing else does |
| `IOContexts.IOContext.AcquireFetchToken` | extensions/common/io_context.go:72-79 | permit and group count go up together or, on an error, not at all; never above ten |
| `IOContexts.IOContext.ReleaseFetchToken` | extensions/common/io_context.go:81-84 | panics exactly when group or semaphore would go below zero |
| `IOContexts.IOContext.ExtendContext` | extensions/common/io_context.go:35-38 | the extender transition of the joint system, field by field |
| `IOContexts.IOContext.Context` | extensions/common/io_context.go:54-62 | the extended context if shouldExtend is set, otherwise the request context |
| `IOContexts.IOContext.Begin` | extensions/common/io_context_pool.go:36-43 | the four assignments of Get: an uncancelled extended context, the request context, the headers pool, and no extension; counters and permits are as the last incarnation left them |
| `Pools.Pool.Get` | extensions/common/x/pool.go:31-37 | never hands out an object that is still in the pool; the oldest, or a new one; the same as the joint system's Take |
| `Pools.Pool.Put` | extensions/common/x/pool.go:39-44 | panics exactly on the zero value; drops exactly when 2048 are in it; otherwise keeps; the same as the joint system's Give |
| `FetchEvents.FetchEvent.RespondWith` | event/fetch_event.go:158-189 | throws exactly without an argument or on a second call, and then changes nothing |
| `FetchEvents.FetchEvent.ExceptionNow` | event/fetch_event.go:243-255 | nothing if the response is sent; otherwise 500 and its report unless the client is gone, the mark and one wake; as the program of the joint system does when executed to its end |
| `FetchEvents.FetchEvent.ResolveRequest` | event/fetch_event.go:338-353 | takes the token of the response if respondWith was used, otherwise marks and serves next; and wakes; as the program does |
| `FetchEvents.FetchEvent.RejectRequest` | event/fetch_event.go:355-377 | takes the token if respondWith was used; then 500 with its report unless a response is sent, the mark and one wake; as the program does |
| `FetchEvents.FetchEvent.ResolveResponse` | event/fetch_event.go:257-321 | a Response with status n, with no body, a text or a reader of ours, writes n and the body; what is no Response writes 204; a body of another kind throws, before anything has changed |
| `FetchEvents.FetchEvent.SettleResponse` | event/fetch_event.go:257-336 | the script-side wrapper with both callbacks: status n and the body, 204, or 500 with its report for a resolver that throws and for a rejection, and 500 without mark or token for a rejection with undefined; with the callbacks it makes, and as the responder of the outcome does |
| `FetchEvents.FetchEvent.Reset` | event/fetch_event.go:68-84 | everything is cleared but the channels |
| `FetchEvents.ResponseThenRequest` | event/fetch_event.go:257-377 | after a response is made, the resolver and the rejector find their token, and leave one token in requestDone and none in responseDone |
| `FetchEvents.FetchEvent.Serve` | runtime_handler.go:71-96 | a whole request on the class, WithHttp to Reset: what its script does, a throw, a promise that settles or a Response with status n, decides what is written, told case by case, and the event is again equal to a new one |
| `HttpHeaders.CanonicalIgnoresCase` | express/request_context_response.go:134-147 | two token names are one field if and only if they differ only in case (section 5.1 of RFC 9110) |
| `HttpHeaders.CanonicalForm` | express/request_context_response.go:134-147 | a token keeps its letters but for their case, no word starts in lower case and no upper case stands elsewhere; any other name is left as it is |
| `HttpHeaders.TokenChars` | express/request_context_response.go:143-147 | the characters of a token are the visible ones but the delimiters (section 5.6.2 of RFC 9110) |
| `HttpHeaders.RefusedExactly` | express/request_context_response.go:134-137 | set throws exactly for a slice given to the field whose canonical name is Content-Type, however it is spelled |
| `HttpHeaders.SetFromNothing` | express/request_context_response.go:141-148 | after any list of fields set on an empty header: the map has exactly their canonical names, each with the texts given to it from the first that is not empty on, or the last; and Get reads the first of these |
| `HttpHeaders.SetLeavesSuffix` | express/request_context_response.go:122-165 | a sequence of values set on one absent or empty field leaves the suffix from the first that is not empty, or only the last when all are empty |
| `HttpHeaders.AppendsAll` | express/request_context_response.go:143-147 | on a field whose first value is not empty every value is appended |
| `HttpHeaders.SetFieldsByName` | express/request_context_response.go:149-163 | over any list of fields each name gets what its own values alone would leave, and the list is refused exactly when it holds a slice for content-type |
| `HttpHeaders.ObjectFormAnyOrder` | express/request_context_response.go:149-163 | the object form is refused in every order of the map or in none; and leaves the same header in every order if no field is given two texts |
| `HttpHeaders.OrderMattersExactly` | express/request_context_response.go:149-163 | for any header and any fields none of which is refused: every order of the map leaves the same header if and only if all texts given to one field, under whatever spellings, are equal |
| `Express.HandlerOutput` | express/request_context_response.go:168-299 | for every list of calls: the output is the commit of the first json, send or end not preceded by next, with the last accepted status or 200 and the header as set up to then, its body, and one next if next is called |
| `Express.CommitWrites` | express/request_context_response.go:193-299 | the commit in the protocol's terms, for any calls before it: the last accepted status or 200; for a text the header as set if its first content type is not empty, otherwise text/html as the only content type and every other field as set; application/json for json; and the body |
| `Express.KnownCodes` | express/request_context_response.go:182-184 | the codes that status() accepts, listed |
| `Express.RequestOutput` | express/request_context.go:145-224 | for every list of calls and every ending: that output plus what the ending adds (204 only if nothing was answered and no status accepted; 500 for a rejection only if nothing was answered; 500 for a throw whatever was), one wake, and a crash only for a handler that never used res or next and returns |
| `Express.SingleCommitExactly` | express/request_context.go:172-181 | next at most once; more than one commit if and only if the handler throws after a commit with the client still there |
| `Express.StatusAloneWritesNothing` | express/request_context.go:183-190 | status() with no send leaves a normal return writing nothing at all |
| `Express.NothingCarriesOver` | express/request_context_pool.go:48-61 | over any sequence of requests on one pooled context each gets the output it would get from a fresh one, and the context comes back fresh with an empty channel |
| `Express.SentRun` | express/request_context_response.go:168-299 | once the response is sent no call writes again but the first next |
| `Express.QuietRun` | express/request_context_response.go:122-191 | calls before the commit write nothing, and leave status and header as the list says |
| `ExpressContext.RequestContext.Next` | express/request_context.go:145-154 | the first call marks next invoked and the response sent and serves next, any other does nothing; and that is the call of which HandlerOutput speaks, as with those below |
| `ExpressContext.RequestContext.Exception` | express/request_context.go:172-181 | 500 with its report unless the client is gone, whether or not the response is sent; the mark and one wake |
| `ExpressContext.RequestContext.Resolve` | express/request_context.go:183-220 | commits the proxy's status, 204 if none was set, only if nothing was sent, no status accepted and the client is there; crashes exactly when that status is needed and the proxy was never made |
| `ExpressContext.RequestContext.Reject` | express/request_context.go:192-220 | writes 500, with its report unless the error is undefined, only if nothing was sent, next was not invoked and the client is there; the mark and one wake |
| `ExpressContext.RequestContext.Reset` | express/request_context.go:54-73 | all flags and the proxy's status are back to their first values, the channel is untouched |
| `ExpressContext.RequestContext.Perform` | express/request_context_response.go:122-299 | one call of the script on the fields is that call on the state, thrown or not, whether or not the proxy existed |
| `ExpressContext.RequestContext.Serve` | express/request_context.go:145-224 | WithHttp, the calls, the ending, Wait and Reset on the fields come to what RequestOutput says of the list, crash exactly when it says so, and leave the context idle |
| `ExpressContext.RequestContext.ServeAll` | express/request_context_pool.go:48-61 | one object that serves any sequence of requests writes for each what its own calls and ending say |
| `ExpressContext.ContextResponse.Status` | express/request_context_response.go:168-191 | throws after the response is sent, without an argument, for no number and for an unknown code; otherwise sets the code and changes nothing else |
| `ExpressContext.ContextResponse.Json` | express/request_context_response.go:193-222 | throws once sent; otherwise application/json is the only content type, every other field is as it was, and the commit is followed by {} for undefined, null for null and the JSON form otherwise |
| `ExpressContext.ContextResponse.Send` | express/request_context_response.go:225-264 | throws once sent; undefined does nothing; a text is sent under the header as it stands if its first content type is not empty, otherwise with text/html for its only content type and every other field as it was; null and structures go through json; anything else sends nothing after the commit |
| `ExpressContext.ContextResponse.End` | express/request_context_response.go:267-288 | throws once sent; otherwise commits the header as it stands, with the body if it is a text |
| `ExpressContext.ContextResponse.SendHeaders` | express/request_context_response.go:290-299 | commits the header as it stands under the accepted status or 200 and marks the response sent |
| `ExpressContext.ContextResponse.SetMany` | express/request_context_response.go:149-163 | the loop over the map sets the fields in the order it meets them and stops at a refused one; it throws exactly if there is one, and otherwise each field's values are those its own texts leave |
| `HeadersView.AlwaysFaithful` | extensions/common/shared/headers_proxy.go:40-90 | over any sequence of uses, reads and returns to the pool, every cached value is the current header's value, keys are its names in ascending order without repeats, a read gives what the header has, and nothing of an earlier request shows |
| `HeadersView.LessExactly` | extensions/common/shared/headers_proxy.go:45 | the order of the names: a comes before b exactly if it is smaller where they first differ, or ends where b goes on |
| `HeadersView.UsedTwiceExactly` | extensions/common/shared/headers_proxy.go:40-46 | a second UseHeader without a return in between is shown faithfully if and only if the first header was empty |
| `HeadersView.AscendingUnique` | extensions/common/shared/headers_proxy.go:45 | there is only one ascending list of given names, so the order in which the map was read does not show |
| `HeadersView.SortDistinct` | extensions/common/shared/headers_proxy.go:40-46 | sorting names without repeats puts exactly them in strictly ascending order |
| `HeadersView.HeadersProxy.UseHeader` | extensions/common/shared/headers_proxy.go:40-46 | the loop adds each name of the header once, in any order, to those there were, and sorts; the remembered values stay |
| `HeadersView.HeadersProxy.UnsetHeader` | extensions/common/shared/headers_proxy_pool.go:36-40 | the deleting loop leaves no header, no remembered value and no name |
| `HeadersView.HeadersProxy.Get` | extensions/common/shared/headers_proxy.go:60-69 | a remembered value is given as remembered; otherwise the header's first value, and remembered, or undefined if that is absent or empty |
| `HeadersView.HeadersProxy.Has` | extensions/common/shared/headers_proxy.go:75-82 | exactly the canonical names in use |
| `Bodies.NativeReaderWrapper.Live` | extensions/stream/readable_stream.go:38-50 | from WithReader to Reset, for any views, any chunking and with or without a copy: what was pulled, then copied, then drained, concatenated, is exactly what the reader had; a copy leaves nothing to drain; the reader ends empty and closed |
| `Bodies.NativeReaderWrapper.Pull` | extensions/stream/wrapper.ts:16-32 | delivers the next bytes of the reader; with a reader that never stalls it closes the stream if and only if the content is at its end or the view's offset equals its length |
| `Bodies.NativeReaderWrapper.ReadInto` | extensions/stream/readable_stream.go:93-122 | the slice from offset to length: panics exactly when that is no slice of the buffer, and fills it from offset on |
| `Bodies.NativeReaderWrapper.CopyBuffer` | extensions/stream/extension.go:120-131 | takes all that is left, in order |
| `Bodies.NativeReaderWrapper.Reset` | extensions/stream/readable_stream.go:38-42 | nothing is left in the reader, and it is closed and let go |
| `Bodies.TakenInTurn` | extensions/stream/readable_stream.go:38-50 | taken in turn, the three consumers' bytes concatenate to what was taken |
| `RoundRobin.DifferenceExactly` | runtime.go:125-131 | the exact difference between two shards' counts after any number of requests: one for each whole turn of the counter that favours the lower, and one more while the current turn does |
| `RoundRobin.NearlyEven` | runtime.go:125-131 | a lower shard is never behind a higher one, and ahead by at most the number of wraps plus one |
| `RoundRobin.EvenExactly` | runtime.go:125-131 | the difference never exceeds one, however long it runs, if and only if the shard count divides 2 to the power 32 |
| `RoundRobin.TicketIsNumber` | runtime.go:65 | from the initial value one below zero, request k draws ticket k modulo 2 to the power 32 |
| `Shards.EachInstanceOnce` | runtime.go:79-196 | under any number of concurrent LoadScript and Stop calls an instance is in one thread's hands, in one shard or in neither, is stopped at most once and never while in use, and if it still runs in neither place it is left over from a failed loadProgram |
| `Shards.LeftOverForGood` | runtime.go:99-107 | an instance is left over exactly by loadProgram failing on it, and is never stopped or used again |
| `Shards.InstanceMoves` | runtime.go:99-112 | what a step does to an instance, from where it was: nothing unless it is the step of the thread that has it, which aborts, leaves over, stops or installs it, or a swap at its shard, which hands it to the swapping thread |
| `Shards.CallsToldByTheRun` | runtime.go:93-123 | whatever runs beside it, LoadScript returns nil exactly after as many swaps as there are shards and an error exactly if getInstance or loadProgram gave it one, and Stop returns exactly after as many swaps |
| `Shards.StepKeeps` | runtime.go:79-196 | every step of every thread keeps pointers, threads and instances in agreement |
| `Shards.StopEmptiesExactly` | runtime.go:189-196 | for every state in which Stop is called: in every run after it without a new LoadScript every shard is nil from its return on, if and only if no LoadScript under way has a shard still to swap an instance into |
| `Shards.StopMissesALoad` | runtime.go:109-112 | an instance of the failing half: both return and an instance nobody will stop is left running in a shard |
| `Shards.Runtime.LoadScript` | runtime.go:79-123 | failing at shard k: shards below are new and their old instances stopped once, the others and their instances as before, and the instance that failed is left running or aborted according to where it failed |
| `Shards.Runtime.ReloadShard` | runtime.go:99-112 | one turn of the loop: on success one swap and one stop, of what was swapped out; on failure no pointer changes and the instance is aborted or left running according to where it failed |
| `Shards.Runtime.Stop` | runtime.go:189-196 | every shard is nil and every instance that was in one is stopped once, nothing else |
| `Shards.Runtime.ShardRun` | runtime.go:125-131 | the k-th call goes to the shard that RoundRobin gives request k, and loads what is in it |
| `Shards.Runtime.constructor` | runtime.go:37-73 | all shards nil, the counter one below zero |
| `KVMappers.KVMapper.WithIOContext` | extensions/kv/kv_mapper.go:42-46 | after the loop every proxy is bound to the context, whatever it was bound to before |
| `KVMappers.KVMapper.Reset` | extensions/kv/kv_mapper.go:48-52 | after the loop no proxy is bound |
| `KVMappers.KVMapper.Has` | extensions/kv/kv_mapper.go:65-72 | exactly the keys that have a proxy |

## Left out

- CompletableExactly: says that a run exists, not that every fair run ends; handlers, promises and clients are free not to settle or leave.
- EndsUnderAnySchedule: counts wait and release steps; that the scheduler takes them is not stated.
- IOContext: cleanup functions are logged when called; what each does to its object is proved in the joint system.
- Live: readers that return errors or stall for ever are not modelled, nor a write error during the copy.
- Pull: `respond` after `close` and the queue of the web stream are not modelled.
- Output: what the next handler itself writes is one `ServeNext`; an informational 1xx status counts as a commit like any other; `end(null)` depends on the engine and is taken to write no body.
- Runs that break the usage rule, beyond those in `Misuse` and `StaleCalls`.
- Order on the event loop: save for the callbacks of respondWith, a callback may run in the joint system while its request's handler is still in its synchronous call, which allows more interleavings than the loop does.
- Express requests in the joint system: they use the same contexts and pools; their own flags and channel are modelled request by request.
- A handler that throws in Express after detached code has used `res` past its end.
- Grain: the field assignments of one Get, Put or reset, the store and Add of ExtendContext, and an append to the cleanup slice are one step each; flags are read and written atomically.
- Contexts are told apart as extended or request context and by whether they are done; deadlines and values are not modelled.
- NativeFetcher, ResponseProxy, the FetchEvent request and the fetch goroutine are values and steps of the joint system, not classes: every field of theirs is shared between goroutines.
- Fields of the FetchEvent request that hold no pooled object (url, method, bodyConsumed), and `makeUrl`.
- The goja VM, the event loop's queue and the polyfills: the loop is a source of serialised callbacks, a promise settles once.
- http.Client, transports, the real ResponseWriter, response header copying.
- The queue of the pools, `sync.WaitGroup`, `semaphore.Weighted`, `sync/atomic` and `context`: their documented behaviour, as atomic steps.
- The goroutine of a `readInto` reads the reader's field in the joint system and its bytes in `Bodies`; a read that returns an error is in neither.
- KV storage and registry, `console`, logging, counters, GC, JSON and string formatting, compile errors of a script, the interrupt flag of stop.
- Requests still served by an instance that has been swapped out; the conversion of the ticket on a 32-bit platform.
- Go memory-model races on plain fields.
