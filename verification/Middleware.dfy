// One runtime instance serving FetchEvent requests: the request goroutines, the
// event loop's callbacks, the fetch goroutines, and the wait and release
// goroutines, interleaved step by step over the pooled objects.
module Middleware {
  import opened Base
  import opened Objects
  import opened Programs

  // Who keeps a request's script running: its handler, the promise given to
  // respondWith, or the promise given to one waitUntil call.
  datatype Owner = ByHandler | ByResponse | ByExtender(x: nat)

  // The goroutine of one fetch.  The contexts are the ones it captured: by the
  // call of AcquireFetchToken, and later by the deferred ReleaseFetchToken.
  datatype FetchPc =
    | Start
    | Acquiring(ctx: Id, deadline: ContextKind)
    | Admitted(ctx: Id)      // permit taken, fetchGroup.Add not yet called
    | Counted(ctx: Id)
    | Running(ctx: Id)       // release deferred, request in flight
    | Returning(ctx: Id)     // callback queued, deferred release about to run
    | Releasing(ctx: Id)     // fetchGroup.Done called, limiter.Release pending
    | Gone

  // The callback that settles the promise, on the event loop.
  datatype Callback = Unscheduled | Scheduled(ok: bool) | Settled(ok: bool)

  datatype Fetch = Fetch(fetcher: Id, response: Id, owner: Owner, pc: FetchPc, callback: Callback)

  // The script-side wrapper of one waitUntil promise: it awaits the promise, calls
  // the resolve callback, and calls the reject callback if the promise is rejected
  // or the resolve callback fails.  Both are the conclude callback.
  datatype Wrapper = AwaitingPromise | ResolveDue | RejectDue | WrapperDone

  // A goroutine that reads shared state some time after the call that spawned it:
  // readInto reads the stream's reader, a KV operation the proxy's context.
  datatype Late = ReadInto(stream: Id) | UseKV

  // Not yet read; callback queued, with the context a KV operation found; settled.
  datatype TaskPc = InFlight | Queued(found: Option<Id>) | TaskDone

  datatype Task = Task(owner: Owner, late: Late, pc: TaskPc)

  datatype HttpPc = GotContext | Prepared | Calling | Failing | Waiting | Returned
  datatype Handler = Uncalled | InCall | Pending | Finished(ok: bool) | Thrown
  datatype Respond = Unused | Awaiting | Fired(outcome: Outcome)
  datatype WaitPc = NoWait | Begin | OnExtenders | OnReqCtx | ToCancel | Ended
  datatype ReleasePc = NoRelease | OnCancelled | OnFetches | Cleaning | Putting | Closed

  // A spawned goroutine and the writer it captured.
  datatype Thread = Thread(w: Id, prog: Prog)

  const NoThread := Thread(0, End)

  // One request, from IOContextPool.Get until its IOContext is back in the pool.
  datatype Req = Req(
    ctx: Id,
    evt: Id,
    http: HttpPc,
    handler: Handler,
    respond: Respond,
    handlerThread: Thread,
    responseThread: Thread,
    exception: Prog,
    extenders: seq<bool>,    // per accepted waitUntil: is its count still outstanding? (history)
    wrappers: seq<Wrapper>,  // and how far its wrapper is
    fetches: seq<Fetch>,
    tasks: seq<Task>,
    kvRead: bool,            // the script has read the kv property (history)
    waiter: WaitPc,
    releaser: ReleasePc,
    gone: bool,              // the request context is done
    spared: bool,            // Exception found it done and wrote nothing
    trace: seq<Write>)
  {
    predicate Open() { releaser != Closed }
  }

  function NewReq(c: Id): Req {
    Req(c, 0, GotContext, Uncalled, Unused, NoThread, NoThread, End, [], [], [], [], false,
        NoWait, NoRelease, false, false, [])
  }

  datatype Home = Free | Owned(r: Id) | Dropped

  // `home` is history: where each object ever created is.  `crashed` records a
  // nil dereference, a negative counter or an over-released semaphore.
  datatype Sys = Sys(
    reqs: seq<Req>,
    ctxs: seq<Ctx>,
    evts: seq<Evt>,
    fetchers: seq<Fetcher>,
    responses: seq<Response>,
    streams: seq<Stream>,
    headers: seq<Headers>,
    pools: map<Kind, seq<Id>>,
    home: map<Obj, Home>,
    crashed: bool)
  {
    function Ctx(c: Id): Ctx { if c < |ctxs| then ctxs[c] else NewCtx }
    function Evt(e: Id): Evt { if e < |evts| then evts[e] else NewEvt }
    function Fetcher(f: Id): Fetcher { if f < |fetchers| then fetchers[f] else NewFetcher }
    function Response(p: Id): Response { if p < |responses| then responses[p] else NewResponse }
    function Stream(t: Id): Stream { if t < |streams| then streams[t] else NewStream }
    function Queue(k: Kind): seq<Id> { if k in pools then pools[k] else [] }
    predicate IsGone(r: Option<Id>) { r.Some? && r.value < |reqs| && reqs[r.value].gone }

    function SetReq(r: Id, q: Req): Sys { if r < |reqs| then this.(reqs := reqs[r := q]) else this }
    function SetCtx(c: Id, x: Ctx): Sys { if c < |ctxs| then this.(ctxs := ctxs[c := x]) else this }
    function SetEvt(e: Id, v: Evt): Sys { if e < |evts| then this.(evts := evts[e := v]) else this }
    function SetFetcher(f: Id, v: Fetcher): Sys { if f < |fetchers| then this.(fetchers := fetchers[f := v]) else this }
    function SetResponse(p: Id, v: Response): Sys {
      if p < |responses| then this.(responses := responses[p := v]) else this
    }
    function SetStream(t: Id, v: Stream): Sys { if t < |streams| then this.(streams := streams[t := v]) else this }
    function SetHeaders(h: Id, v: Headers): Sys { if h < |headers| then this.(headers := headers[h := v]) else this }

    function Crash(): Sys { this.(crashed := true) }

    // How many objects of a kind have been created.
    function Made(k: Kind): nat {
      match k
      case KContext => |ctxs|
      case KEvent => |evts|
      case KFetcher => |fetchers|
      case KResponse => |responses|
      case KStream => |streams|
      case KHeaders => |headers|
    }

    // The factory of a pool.
    function Make(k: Kind): Sys {
      match k
      case KContext => this.(ctxs := ctxs + [NewCtx])
      case KEvent => this.(evts := evts + [NewEvt])
      case KFetcher => this.(fetchers := fetchers + [NewFetcher])
      case KResponse => this.(responses := responses + [NewResponse])
      case KStream => this.(streams := streams + [NewStream])
      case KHeaders => this.(headers := headers + [NewHeaders])
    }

    // Pool.Get: the oldest pooled object, or a new one.
    function Pick(k: Kind): Id {
      if Queue(k) != [] then Queue(k)[0] else Made(k)
    }

    function Take(k: Kind, r: Id): Sys {
      if Queue(k) != [] then
        this.(pools := pools[k := Queue(k)[1..]], home := home[Obj(k, Queue(k)[0]) := Owned(r)])
      else
        Make(k).(home := home[Obj(k, Made(k)) := Owned(r)])
    }

    // Pool.Put: a full pool drops the object.
    function Give(o: Obj): Sys {
      if |Queue(o.kind)| < POOL_CAPACITY then
        this.(pools := pools[o.kind := Queue(o.kind) + [o.id]], home := home[o := Free])
      else
        this.(home := home[o := Dropped])
    }

    function Register(c: Id, entry: Cleanup): Sys {
      SetCtx(c, Ctx(c).RegisterCleanup(entry))
    }

    function Log(w: Id, out: seq<Write>): Sys {
      if w < |reqs| then SetReq(w, reqs[w].(trace := reqs[w].trace + out)) else this
    }
  }

  function Init(): Sys {
    Sys([], [], [], [], [], [], [],
        map[KContext := [], KEvent := [], KFetcher := [], KResponse := [], KStream := [], KHeaders := []],
        map[], false)
  }

  datatype FetchBody = EmptyBody | TextBody | StreamBody | UnsupportedBody
  datatype Which = OfHandler | OfResponse | OfException

  datatype Action =
    // the request goroutine
    | Arrive
    | TakeEvent(r: Id)
    | Invoke(r: Id)
    | EnterWait(r: Id)
    | EnterException(r: Id)
    | WaitReturn(r: Id)
    // the script, on the event loop
    | SyncReturn(r: Id)
    | Throw(r: Id)
    | RespondWith(r: Id)
    | WaitUntil(r: Id, o: Owner)
    | ReadFetch(r: Id, o: Owner)
    | DoFetch(r: Id, o: Owner, body: FetchBody)
    | Adopt(r: Id, i: nat, o: Owner)
    | ReadHeaders(r: Id, o: Owner)
    | ReadBody(r: Id, o: Owner)
    | ReadKV(r: Id, o: Owner)
    | ReadResponseHeaders(r: Id, o: Owner, i: nat)
    | Settle(r: Id, ok: bool)
    | SettleResponse(r: Id, outcome: Outcome, text: bool)
    | Fulfil(r: Id, x: nat, ok: bool) // the promise of a waitUntil settles
    | CallResolve(r: Id, x: nat)
    | CallReject(r: Id, x: nat)
    | StartTask(r: Id, o: Owner, late: Late)
    | EndTask(r: Id, i: nat)
    | RunCallback(r: Id, i: nat)
    // spawned goroutines
    | Run(r: Id, which: Which)
    | FetchStep(r: Id, i: nat)
    | FetchRefused(r: Id, i: nat)
    | FetchReturn(r: Id, i: nat, ok: bool)
    | RunTask(r: Id, i: nat)
    | WaitStep(r: Id)
    | ReleaseStep(r: Id)
    // the client or the server ends the request context
    | Cancel(r: Id)

  // An owner is live until its promise has settled and the Go callback has run.
  predicate Live(q: Req, o: Owner) {
    match o
    case ByHandler => q.handler.InCall? || q.handler.Pending?
    case ByResponse => q.respond.Awaiting?
    case ByExtender(x) => x < |q.extenders| && q.extenders[x]
  }

  // An owner is active until its promise has settled: it may use the event.
  predicate Active(q: Req, o: Owner) {
    Live(q, o) && (o.ByExtender? ==> o.x < |q.wrappers| && q.wrappers[o.x].AwaitingPromise?)
  }

  // All the fetches and other promises an owner awaits have settled.
  predicate SettledFor(q: Req, o: Owner) {
    && (forall i :: 0 <= i < |q.fetches| && q.fetches[i].owner == o ==> q.fetches[i].callback.Settled?)
    && (forall i :: 0 <= i < |q.tasks| && q.tasks[i].owner == o ==> q.tasks[i].pc.TaskDone?)
  }

  // The script has got hold of what the late read is about.
  predicate CanStart(s: Sys, r: Id, late: Late)
    requires r < |s.reqs|
  {
    var q := s.reqs[r];
    match late
    case UseKV => s.Evt(q.evt).kv.Some?
    case ReadInto(t) =>
      || s.Evt(q.evt).body == Some(t)
      || exists i :: 0 <= i < |q.fetches| && q.fetches[i].callback == Settled(true)
                     && s.Response(q.fetches[i].response).body == Some(t)
  }

  function ThreadOf(q: Req, which: Which): Prog {
    match which
    case OfHandler => q.handlerThread.prog
    case OfResponse => q.responseThread.prog
    case OfException => q.exception
  }

  // When a step can happen.
  predicate Enabled(s: Sys, a: Action) {
    && !s.crashed
    && (!a.Arrive? ==> a.r < |s.reqs|)
    && match a
       case Arrive => true
       case TakeEvent(r) => s.reqs[r].http.GotContext?
       case Invoke(r) => s.reqs[r].http.Prepared?
       case EnterWait(r) =>
         var q := s.reqs[r];
         || (q.http.Calling? && (q.handler.Pending? || q.handler.Finished?))
         || (q.http.Failing? && q.exception.End?)
       case EnterException(r) => s.reqs[r].http.Calling? && s.reqs[r].handler.Thrown?
       case WaitReturn(r) => s.reqs[r].http.Waiting? && s.Evt(s.reqs[r].evt).requestDone > 0
       case SyncReturn(r) => s.reqs[r].handler.InCall?
       case Throw(r) => s.reqs[r].handler.InCall?
       case RespondWith(r) => !s.reqs[r].handler.Uncalled?
       case WaitUntil(r, o) => !s.reqs[r].handler.Uncalled?
       case ReadFetch(r, o) => !s.reqs[r].handler.Uncalled?
       case DoFetch(r, o, body) => !s.reqs[r].handler.Uncalled? && s.Evt(s.reqs[r].evt).fetcher.Some?
       case Adopt(r, i, o) => i < |s.reqs[r].fetches|
       case ReadHeaders(r, o) => !s.reqs[r].handler.Uncalled?
       case ReadBody(r, o) => !s.reqs[r].handler.Uncalled?
       case ReadKV(r, o) => !s.reqs[r].handler.Uncalled?
       case ReadResponseHeaders(r, o, i) =>
         i < |s.reqs[r].fetches| && s.reqs[r].fetches[i].callback == Settled(true)
       case Settle(r, ok) => s.reqs[r].handler.Pending?
       case SettleResponse(r, outcome, text) =>
         // a callback waits until the handler's call on the loop has returned
         s.reqs[r].respond.Awaiting? && !s.reqs[r].handler.InCall? && (text ==> outcome.Copied?)
       case Fulfil(r, x, ok) => x < |s.reqs[r].wrappers| && s.reqs[r].wrappers[x].AwaitingPromise?
       case CallResolve(r, x) => x < |s.reqs[r].wrappers| && s.reqs[r].wrappers[x].ResolveDue?
       case CallReject(r, x) => x < |s.reqs[r].wrappers| && s.reqs[r].wrappers[x].RejectDue?
       case StartTask(r, o, late) => !s.reqs[r].handler.Uncalled? && CanStart(s, r, late)
       case EndTask(r, i) => i < |s.reqs[r].tasks| && s.reqs[r].tasks[i].pc.Queued?
       case RunTask(r, i) => i < |s.reqs[r].tasks| && s.reqs[r].tasks[i].pc.InFlight?
       case RunCallback(r, i) => i < |s.reqs[r].fetches| && s.reqs[r].fetches[i].callback.Scheduled?
       case Run(r, which) =>
         var q := s.reqs[r];
         Ready(ThreadOf(q, which), s.Evt(q.evt)) && (which.OfException? ==> q.http.Failing?)
       case FetchStep(r, i) =>
         && i < |s.reqs[r].fetches|
         && (match s.reqs[r].fetches[i].pc
             case Acquiring(c, _) => s.Ctx(c).held < CONCURRENCY
             case Running(_) => false
             case Gone => false
             case _ => true)
       case FetchRefused(r, i) =>
         && i < |s.reqs[r].fetches|
         && (match s.reqs[r].fetches[i].pc
             case Acquiring(c, OnExtended) => s.Ctx(c).extended.Cancelled?
             case Acquiring(c, OnRequest) => s.IsGone(s.Ctx(c).request)
             case _ => false)
       case FetchReturn(r, i, ok) => i < |s.reqs[r].fetches| && s.reqs[r].fetches[i].pc.Running?
       case WaitStep(r) =>
         var x := s.Ctx(s.reqs[r].ctx);
         (match s.reqs[r].waiter
          case NoWait => false
          case Begin => true
          case OnExtenders => x.extenders == 0
          case OnReqCtx => x.request.None? || s.IsGone(x.request)
          case ToCancel => true
          case Ended => false)
       case ReleaseStep(r) =>
         var x := s.Ctx(s.reqs[r].ctx);
         (match s.reqs[r].releaser
          case NoRelease => false
          case OnCancelled => x.extended != Uncancelled
          case OnFetches => x.fetches == 0
          case Cleaning => true
          case Putting => true
          case Closed => false)
       case Cancel(r) => !s.reqs[r].gone
  }

  // The documented usage rule: the event, and what hangs off it, is used only by an
  // active owner; a promise settles only after the promises it awaits; a handler
  // calls respondWith before it settles and does not throw synchronously once
  // respondWith has accepted an argument.
  predicate Obeys(s: Sys, a: Action)
    requires Enabled(s, a)
  {
    match a
    case RespondWith(r) => Active(s.reqs[r], ByHandler)
    case WaitUntil(r, o) => Active(s.reqs[r], o)
    case ReadFetch(r, o) => Active(s.reqs[r], o)
    case DoFetch(r, o, body) => Active(s.reqs[r], o)
    case Adopt(r, i, o) => Active(s.reqs[r], o)
    case ReadHeaders(r, o) => Active(s.reqs[r], o)
    case ReadBody(r, o) => Active(s.reqs[r], o)
    case ReadKV(r, o) => Active(s.reqs[r], o)
    case ReadResponseHeaders(r, o, i) => Active(s.reqs[r], o)
    case Settle(r, ok) => SettledFor(s.reqs[r], ByHandler)
    case Throw(r) => SettledFor(s.reqs[r], ByHandler) && s.reqs[r].respond.Unused?
    case SettleResponse(r, outcome, text) => SettledFor(s.reqs[r], ByResponse)
    case Fulfil(r, x, ok) => SettledFor(s.reqs[r], ByExtender(x))
    case StartTask(r, o, late) => Active(s.reqs[r], o)
    case _ => true
  }

  // The request goroutine: runtime_handler.go, the pools' Get, Wait and Put.

  function DoArrive(s: Sys): Sys {
    var r := |s.reqs|;
    var c := s.Pick(KContext);
    var t := s.Take(KContext, r);
    t.SetCtx(c, t.Ctx(c).Begin(r)).(reqs := s.reqs + [NewReq(c)])
  }

  function DoTakeEvent(s: Sys, r: Id): Sys
    requires r < |s.reqs|
  {
    var q := s.reqs[r];
    var e := s.Pick(KEvent);
    var t := s.Take(KEvent, r);
    t.SetEvt(e, t.Evt(e).(ioContext := Some(q.ctx), http := Some(r)))
     .Register(q.ctx, Return(Obj(KEvent, e)))
     .SetReq(r, q.(evt := e, http := Prepared))
  }

  function DoWaitReturn(s: Sys, r: Id): Sys
    requires r < |s.reqs|
  {
    var q := s.reqs[r];
    var e := s.Evt(q.evt);
    s.SetEvt(q.evt, if e.requestDone > 0 then e.(requestDone := e.requestDone - 1) else e)
     .SetReq(r, q.(http := Returned, waiter := Begin, releaser := OnCancelled))
  }

  // The script on the event loop.

  function DoRespondWith(s: Sys, r: Id): Sys
    requires r < |s.reqs|
  {
    var q := s.reqs[r];
    var e := s.Evt(q.evt);
    if e.useRespondWith then s // TypeError: already called
    else s.SetEvt(q.evt, e.(useRespondWith := true, skipNext := true)).SetReq(r, q.(respond := Awaiting))
  }

  function Extended(q: Req): Req {
    q.(extenders := q.extenders + [true], wrappers := q.wrappers + [AwaitingPromise])
  }

  function DoWaitUntil(s: Sys, r: Id): Sys
    requires r < |s.reqs|
  {
    var q := s.reqs[r];
    match s.Evt(q.evt).ioContext
    case None => s.Crash()
    case Some(c) =>
      s.SetCtx(c, s.Ctx(c).ExtendContext()).SetReq(r, Extended(q))
  }

  function SetWrapper(q: Req, x: nat, w: Wrapper): Req {
    q.(wrappers := if x < |q.wrappers| then q.wrappers[x := w] else q.wrappers)
  }

  // The conclude callback is cached per event and reads evt.ioContext when it runs;
  // it fails on a nil context or when the counter would go below zero.
  predicate ConcludeFails(s: Sys, r: Id)
    requires r < |s.reqs|
  {
    var c := s.Evt(s.reqs[r].evt).ioContext;
    c.None? || s.Ctx(c.value).extenders < 1
  }

  function Concluded(q: Req, x: nat): Req {
    SetWrapper(q, x, WrapperDone).(extenders := if x < |q.extenders| then q.extenders[x := false] else q.extenders)
  }

  function DoConclude(s: Sys, r: Id, x: nat): Sys
    requires r < |s.reqs| && !ConcludeFails(s, r)
  {
    var c := s.Evt(s.reqs[r].evt).ioContext.value;
    s.SetCtx(c, s.Ctx(c).ConcludeExtend()).SetReq(r, Concluded(s.reqs[r], x))
  }

  // A failed resolve call is answered by the reject call; nobody catches a failure
  // of that one.
  function DoCallResolve(s: Sys, r: Id, x: nat): Sys
    requires r < |s.reqs|
  {
    if ConcludeFails(s, r) then s.SetReq(r, SetWrapper(s.reqs[r], x, RejectDue)) else DoConclude(s, r, x)
  }

  function DoCallReject(s: Sys, r: Id, x: nat): Sys
    requires r < |s.reqs|
  {
    if ConcludeFails(s, r) then s.Crash() else DoConclude(s, r, x)
  }

  function SetTask(q: Req, i: nat, pc: TaskPc): Req
    requires i < |q.tasks|
  {
    q.(tasks := q.tasks[i := q.tasks[i].(pc := pc)])
  }

  // The goroutine reads s.reader, or kv.ioContext, now.
  function DoRunTask(s: Sys, r: Id, i: nat): Sys
    requires r < |s.reqs| && i < |s.reqs[r].tasks|
  {
    var q := s.reqs[r];
    match q.tasks[i].late
    case ReadInto(t) => if s.Stream(t).reader then s.SetReq(r, SetTask(q, i, Queued(None))) else s.Crash()
    case UseKV =>
      if s.Evt(q.evt).kv.Some? then s.SetReq(r, SetTask(q, i, Queued(s.Evt(q.evt).kv))) else s.Crash()
  }

  function DoReadFetch(s: Sys, r: Id): Sys
    requires r < |s.reqs|
  {
    var q := s.reqs[r];
    var e := s.Evt(q.evt);
    if e.fetcher.Some? then s
    else
      match e.ioContext
      case None => s.Crash()
      case Some(c) =>
        var f := s.Pick(KFetcher);
        s.Take(KFetcher, r)
         .SetFetcher(f, Fetcher(Some(c)))
         .Register(c, Return(Obj(KFetcher, f)))
         .SetEvt(q.evt, e.(fetcher := Some(f)))
  }

  function DoFetchCall(s: Sys, r: Id, o: Owner, body: FetchBody): Sys
    requires r < |s.reqs| && s.Evt(s.reqs[r].evt).fetcher.Some?
  {
    var q := s.reqs[r];
    var f := s.Evt(q.evt).fetcher.value;
    match s.Fetcher(f).ioContext
    case None => s.Crash()
    case Some(c) =>
      var p := s.Pick(KResponse);
      var t := s.Take(KResponse, r).Register(c, Return(Obj(KResponse, p)));
      var u := if body.TextBody? then t.Register(c, ResetBuffer) else t;
      var g := if body.UnsupportedBody? then Fetch(f, p, o, Gone, Scheduled(false))
               else Fetch(f, p, o, Start, Unscheduled);
      u.SetReq(r, q.(fetches := q.fetches + [g]))
  }

  function DoReadHeaders(s: Sys, r: Id): Sys
    requires r < |s.reqs|
  {
    var q := s.reqs[r];
    var e := s.Evt(q.evt);
    if e.headers.Some? then s
    else if e.ioContext.None? || e.http.None? then s.Crash()
    else
      var c := e.ioContext.value;
      if !s.Ctx(c).hdrPool then s.Crash()
      else
        var h := s.Pick(KHeaders);
        s.Take(KHeaders, r)
         .SetHeaders(h, Headers(true))
         .Register(c, Return(Obj(KHeaders, h)))
         .SetEvt(q.evt, e.(headers := Some(h)))
  }

  function DoReadBody(s: Sys, r: Id): Sys
    requires r < |s.reqs|
  {
    var q := s.reqs[r];
    var e := s.Evt(q.evt);
    if e.body.Some? then s
    else if e.ioContext.None? || e.http.None? then s.Crash()
    else
      var c := e.ioContext.value;
      var t := s.Pick(KStream);
      s.Take(KStream, r)
       .SetStream(t, Stream(true, true))
       .Register(c, Return(Obj(KStream, t)))
       .SetEvt(q.evt, e.(body := Some(t)))
  }

  function DoReadKV(s: Sys, r: Id): Sys
    requires r < |s.reqs|
  {
    var q := s.reqs[r];
    var e := s.Evt(q.evt);
    s.SetEvt(q.evt, e.(kv := e.ioContext)).SetReq(r, q.(kvRead := true))
  }

  function DoReadResponseHeaders(s: Sys, r: Id, i: nat): Sys
    requires r < |s.reqs| && i < |s.reqs[r].fetches|
  {
    var p := s.reqs[r].fetches[i].response;
    var v := s.Response(p);
    if v.headers.Some? then s
    else if v.ioContext.None? || !v.resp then s.Crash()
    else
      var c := v.ioContext.value;
      if !s.Ctx(c).hdrPool then s.Crash()
      else
        var h := s.Pick(KHeaders);
        s.Take(KHeaders, r)
         .SetHeaders(h, Headers(true))
         .Register(c, Return(Obj(KHeaders, h)))
         .SetResponse(p, v.(headers := Some(h)))
  }

  // The callbacks capture evt.httpResp and spawn a goroutine.
  function DoSettle(s: Sys, r: Id, ok: bool): Sys
    requires r < |s.reqs|
  {
    var q := s.reqs[r];
    match s.Evt(q.evt).http
    case None => s.Crash()
    case Some(w) =>
      s.SetReq(r, q.(handler := Finished(ok), handlerThread := Thread(w, if ok then Resolver else Rejector)))
  }

  function DoSettleResponse(s: Sys, r: Id, outcome: Outcome, text: bool): Sys
    requires r < |s.reqs|
  {
    var q := s.reqs[r];
    var e := s.Evt(q.evt);
    if e.http.None? || (text && e.ioContext.None?) then s.Crash()
    else
      var t := if text then s.Register(e.ioContext.value, ResetBuffer) else s;
      t.SetReq(r, q.(respond := Fired(outcome), responseThread := Thread(e.http.value, Responder(outcome))))
  }

  function DoRunCallback(s: Sys, r: Id, i: nat): Sys
    requires r < |s.reqs| && i < |s.reqs[r].fetches| && s.reqs[r].fetches[i].callback.Scheduled?
  {
    var q := s.reqs[r];
    var g := s.reqs[r].fetches[i];
    var q' := q.(fetches := q.fetches[i := g.(callback := Settled(g.callback.ok))]);
    if !g.callback.ok then s.SetReq(r, q')
    else
      match s.Fetcher(g.fetcher).ioContext
      case None => s.Crash()
      case Some(c) =>
        var t := s.Pick(KStream);
        s.Take(KStream, r)
         .SetStream(t, Stream(true, true))
         .Register(c, Return(Obj(KStream, t)))
         .SetResponse(g.response, s.Response(g.response).(ioContext := Some(c), resp := true, body := Some(t)))
         .Register(c, ResetResponse(g.response))
         .SetReq(r, q')
  }

  // Spawned goroutines.

  function DoRun(s: Sys, r: Id, which: Which): Sys
    requires r < |s.reqs|
  {
    var q := s.reqs[r];
    var e := s.Evt(q.evt);
    var p := ThreadOf(q, which);
    var w := match which
             case OfHandler => Some(q.handlerThread.w)
             case OfResponse => Some(q.responseThread.w)
             case OfException => e.http;
    if w.None? then s.Crash()
    else
      var n := Rest(p, e, s.IsGone(w));
      var q' := match which
                case OfHandler => q.(handlerThread := Thread(w.value, n))
                case OfResponse => q.(responseThread := Thread(w.value, n))
                case OfException => q.(exception := n, spared := q.spared || (p.IfGone? && s.IsGone(w)));
      s.SetEvt(q.evt, Effect(p, e)).SetReq(r, q').Log(w.value, Emits(p))
  }

  function SetFetch(q: Req, i: nat, g: Fetch): Req
    requires i < |q.fetches|
  {
    q.(fetches := q.fetches[i := g])
  }

  function DoFetchStep(s: Sys, r: Id, i: nat): Sys
    requires r < |s.reqs| && i < |s.reqs[r].fetches|
  {
    var q := s.reqs[r];
    var g := q.fetches[i];
    match g.pc
    case Start =>
      (match s.Fetcher(g.fetcher).ioContext
       case None => s.Crash()
       case Some(c) => s.SetReq(r, SetFetch(q, i, g.(pc := Acquiring(c, s.Ctx(c).Context())))))
    case Acquiring(c, _) =>
      s.SetCtx(c, s.Ctx(c).(held := s.Ctx(c).held + 1)).SetReq(r, SetFetch(q, i, g.(pc := Admitted(c))))
    case Admitted(c) =>
      s.SetCtx(c, s.Ctx(c).(fetches := s.Ctx(c).fetches + 1)).SetReq(r, SetFetch(q, i, g.(pc := Counted(c))))
    case Counted(_) =>
      (match s.Fetcher(g.fetcher).ioContext
       case None => s.Crash()
       case Some(c) => s.SetReq(r, SetFetch(q, i, g.(pc := Running(c)))))
    case Returning(c) =>
      if s.Ctx(c).fetches < 1 then s.Crash()
      else s.SetCtx(c, s.Ctx(c).(fetches := s.Ctx(c).fetches - 1)).SetReq(r, SetFetch(q, i, g.(pc := Releasing(c))))
    case Releasing(c) =>
      if s.Ctx(c).held < 1 then s.Crash()
      else s.SetCtx(c, s.Ctx(c).(held := s.Ctx(c).held - 1)).SetReq(r, SetFetch(q, i, g.(pc := Gone)))
    case _ => s
  }

  function DoFetchRefused(s: Sys, r: Id, i: nat): Sys
    requires r < |s.reqs| && i < |s.reqs[r].fetches|
  {
    var q := s.reqs[r];
    s.SetReq(r, SetFetch(q, i, q.fetches[i].(pc := Gone, callback := Scheduled(false))))
  }

  function DoFetchReturn(s: Sys, r: Id, i: nat, ok: bool): Sys
    requires r < |s.reqs| && i < |s.reqs[r].fetches| && s.reqs[r].fetches[i].pc.Running?
  {
    var q := s.reqs[r];
    var g := q.fetches[i];
    s.SetReq(r, SetFetch(q, i, g.(pc := Returning(g.pc.ctx), callback := Scheduled(ok))))
  }

  function DoWaitStep(s: Sys, r: Id): Sys
    requires r < |s.reqs|
  {
    var q := s.reqs[r];
    var x := s.Ctx(q.ctx);
    match q.waiter
    case Begin => s.SetReq(r, q.(waiter := if x.shouldExtend then OnExtenders else OnReqCtx))
    case OnExtenders => s.SetReq(r, q.(waiter := ToCancel))
    case OnReqCtx => if x.request.None? then s.Crash() else s.SetReq(r, q.(waiter := ToCancel))
    case ToCancel =>
      if x.extended.Nil? then s.Crash()
      else s.SetCtx(q.ctx, x.(extended := Cancelled)).SetReq(r, q.(waiter := Ended))
    case _ => s
  }

  // One cleanup function, called with its closure's captured context c.
  function Clean(s: Sys, c: Id, entry: Cleanup): Sys {
    match entry
    case ResetBuffer => s
    case ResetResponse(p) => s.SetResponse(p, NewResponse)
    case Return(o) =>
      match o.kind
      case KContext => s
      case KEvent => s.SetEvt(o.id, s.Evt(o.id).Reset()).Give(o)
      case KFetcher => s.SetFetcher(o.id, NewFetcher).Give(o)
      case KResponse => s.Give(o)
      case KStream => if s.Stream(o.id).reader then s.SetStream(o.id, NewStream).Give(o) else s.Crash()
      case KHeaders => if s.Ctx(c).hdrPool then s.SetHeaders(o.id, NewHeaders).Give(o) else s.Crash()
  }

  function DoReleaseStep(s: Sys, r: Id): Sys
    requires r < |s.reqs|
  {
    var q := s.reqs[r];
    var x := s.Ctx(q.ctx);
    match q.releaser
    case OnCancelled => if x.extended.Nil? then s.Crash() else s.SetReq(r, q.(releaser := OnFetches))
    case OnFetches => s.SetReq(r, q.(releaser := Cleaning))
    case Cleaning =>
      if x.cleanups != [] then
        Clean(s.SetCtx(q.ctx, x.PopCleanup()), q.ctx, x.cleanups[|x.cleanups| - 1])
      else
        s.SetCtx(q.ctx, x.Retire()).SetReq(r, q.(releaser := Putting))
    case Putting => s.SetReq(r, q.(releaser := Closed)).Give(Obj(KContext, q.ctx))
    case _ => s
  }

  function Apply(s: Sys, a: Action): Sys
    requires Enabled(s, a)
  {
    match a
    case Arrive => DoArrive(s)
    case TakeEvent(r) => DoTakeEvent(s, r)
    case Invoke(r) => s.SetReq(r, s.reqs[r].(http := Calling, handler := InCall))
    case EnterWait(r) => s.SetReq(r, s.reqs[r].(http := Waiting))
    case EnterException(r) => s.SetReq(r, s.reqs[r].(http := Failing))
    case WaitReturn(r) => DoWaitReturn(s, r)
    case SyncReturn(r) => s.SetReq(r, s.reqs[r].(handler := Pending))
    case Throw(r) => s.SetReq(r, s.reqs[r].(handler := Thrown, exception := Exception))
    case RespondWith(r) => DoRespondWith(s, r)
    case WaitUntil(r, o) => DoWaitUntil(s, r)
    case ReadFetch(r, o) => DoReadFetch(s, r)
    case DoFetch(r, o, body) => DoFetchCall(s, r, o, body)
    case Adopt(r, i, o) => s.SetReq(r, SetFetch(s.reqs[r], i, s.reqs[r].fetches[i].(owner := o)))
    case ReadHeaders(r, o) => DoReadHeaders(s, r)
    case ReadBody(r, o) => DoReadBody(s, r)
    case ReadKV(r, o) => DoReadKV(s, r)
    case ReadResponseHeaders(r, o, i) => DoReadResponseHeaders(s, r, i)
    case Settle(r, ok) => DoSettle(s, r, ok)
    case SettleResponse(r, outcome, text) => DoSettleResponse(s, r, outcome, text)
    case Fulfil(r, x, ok) => s.SetReq(r, SetWrapper(s.reqs[r], x, if ok then ResolveDue else RejectDue))
    case CallResolve(r, x) => DoCallResolve(s, r, x)
    case CallReject(r, x) => DoCallReject(s, r, x)
    case StartTask(r, o, late) => s.SetReq(r, s.reqs[r].(tasks := s.reqs[r].tasks + [Task(o, late, InFlight)]))
    case EndTask(r, i) => s.SetReq(r, SetTask(s.reqs[r], i, TaskDone))
    case RunTask(r, i) => DoRunTask(s, r, i)
    case RunCallback(r, i) => DoRunCallback(s, r, i)
    case Run(r, which) => DoRun(s, r, which)
    case FetchStep(r, i) => DoFetchStep(s, r, i)
    case FetchRefused(r, i) => DoFetchRefused(s, r, i)
    case FetchReturn(r, i, ok) => DoFetchReturn(s, r, i, ok)
    case WaitStep(r) => DoWaitStep(s, r)
    case ReleaseStep(r) => DoReleaseStep(s, r)
    case Cancel(r) => s.SetReq(r, s.reqs[r].(gone := true))
  }

  // Runs that obey the rule.
  predicate Runs(s: Sys, actions: seq<Action>)
    decreases |actions|
  {
    actions == [] ||
    (Enabled(s, actions[0]) && Obeys(s, actions[0]) && Runs(Apply(s, actions[0]), actions[1..]))
  }

  function After(s: Sys, actions: seq<Action>): Sys
    requires Runs(s, actions)
    decreases |actions|
  {
    if actions == [] then s else After(Apply(s, actions[0]), actions[1..])
  }

  ghost predicate Reachable(s: Sys) {
    exists actions: seq<Action> :: Runs(Init(), actions) && After(Init(), actions) == s
  }
}
