// One request by itself.  What a step of the joint system does to the record of its
// request is told from that record alone: no pool, context, event or other request is
// looked at, whatever they have been through.
module Alone {
  import opened Base
  import opened Objects
  import opened Programs
  import opened Middleware
  import opened Invariants
  import opened EventSteps
  import opened LocalSteps
  import opened RequestSteps
  import opened FetchSteps
  import opened ScriptSteps
  import opened SettleSteps
  import opened TaskSteps
  import opened EndSteps
  import opened Safety

  // All that the rest of the instance decides: which objects the pools hand out, and
  // whether a cleanup was the last one.
  datatype Names = Names(evt: Id, fetcher: Id, response: Id, emptied: bool)

  const NoNames := Names(0, 0, 0, false)

  function WithFetch(q: Req, i: nat, g: Fetch): Req { if i < |q.fetches| then q.(fetches := q.fetches[i := g]) else q }

  function WithTask(q: Req, i: nat, pc: TaskPc): Req {
    if i < |q.tasks| then q.(tasks := q.tasks[i := q.tasks[i].(pc := pc)]) else q
  }

  function WithWrapper(q: Req, k: nat, w: Wrapper): Req {
    if k < |q.wrappers| then q.(wrappers := q.wrappers[k := w]) else q
  }

  function FetchAt(q: Req, i: nat): Fetch {
    if i < |q.fetches| then q.fetches[i] else Fetch(0, 0, ByHandler, Gone, Unscheduled)
  }

  // The next stage of a fetch goroutine that is not refused and does not fail.
  function NextStage(q: Req, pc: FetchPc): FetchPc {
    match pc
    case Start => Acquiring(q.ctx, if q.extenders == [] then OnRequest else OnExtended)
    case Acquiring(_, _) => Admitted(q.ctx)
    case Admitted(_) => Counted(q.ctx)
    case Counted(_) => Running(q.ctx)
    case Returning(_) => Releasing(q.ctx)
    case Releasing(_) => Gone
    case _ => pc
  }

  // The flags that a goroutine tests: both say whether respondWith was used.
  function Onward(q: Req, p: Prog): Prog {
    match p
    case End => End
    case IfSkip(yes, no) => if q.respond.Unused? then no else yes
    case IfSent(yes, no) => if q.respond.Unused? then no else yes
    case IfGone(yes, no) => if q.gone then yes else no
    case _ => p.rest
  }

  function OwnRun(q: Req, which: Which): Req {
    var p := ThreadOf(q, which);
    var t := q.(trace := q.trace + Emits(p));
    match which
    case OfHandler => t.(handlerThread := q.handlerThread.(prog := Onward(q, p)))
    case OfResponse => t.(responseThread := q.responseThread.(prog := Onward(q, p)))
    case OfException => t.(exception := Onward(q, p), spared := q.spared || (p.IfGone? && q.gone))
  }

  function OwnWait(q: Req): Req {
    match q.waiter
    case Begin => q.(waiter := if q.extenders == [] then OnReqCtx else OnExtenders)
    case OnExtenders => q.(waiter := ToCancel)
    case OnReqCtx => q.(waiter := ToCancel)
    case ToCancel => q.(waiter := Ended)
    case _ => q
  }

  function OwnRelease(q: Req, emptied: bool): Req {
    match q.releaser
    case OnCancelled => q.(releaser := OnFetches)
    case OnFetches => q.(releaser := Cleaning)
    case Cleaning => if emptied then q.(releaser := Putting) else q
    case Putting => q.(releaser := Closed)
    case _ => q
  }

  // The record of a request after one of its own steps.
  function Own(q: Req, a: Action, n: Names): Req {
    match a
    case Arrive => q
    case TakeEvent(_) => q.(evt := n.evt, http := Prepared)
    case Invoke(_) => q.(http := Calling, handler := InCall)
    case EnterWait(_) => q.(http := Waiting)
    case EnterException(_) => q.(http := Failing)
    case WaitReturn(_) => q.(http := Returned, waiter := Begin, releaser := OnCancelled)
    case SyncReturn(_) => q.(handler := Pending)
    case Throw(_) => q.(handler := Thrown, exception := Exception)
    case RespondWith(_) => if q.respond.Unused? then q.(respond := Awaiting) else q
    case WaitUntil(_, _) => q.(extenders := q.extenders + [true], wrappers := q.wrappers + [AwaitingPromise])
    case ReadFetch(_, _) => q
    case DoFetch(_, o, UnsupportedBody) =>
      q.(fetches := q.fetches + [Fetch(n.fetcher, n.response, o, Gone, Scheduled(false))])
    case DoFetch(_, o, _) => q.(fetches := q.fetches + [Fetch(n.fetcher, n.response, o, Start, Unscheduled)])
    case Adopt(_, i, o) => WithFetch(q, i, FetchAt(q, i).(owner := o))
    case ReadHeaders(_, _) => q
    case ReadBody(_, _) => q
    case ReadKV(_, _) => q.(kvRead := true)
    case ReadResponseHeaders(_, _, _) => q
    case Settle(r, ok) => q.(handler := Finished(ok), handlerThread := Thread(r, if ok then Resolver else Rejector))
    case SettleResponse(r, o, _) => q.(respond := Fired(o), responseThread := Thread(r, Responder(o)))
    case Fulfil(_, k, ok) => WithWrapper(q, k, if ok then ResolveDue else RejectDue)
    case CallResolve(_, k) => OwnCall(q, k)
    case CallReject(_, k) => OwnCall(q, k)
    case StartTask(_, o, late) => q.(tasks := q.tasks + [Task(o, late, InFlight)])
    case EndTask(_, i) => WithTask(q, i, TaskDone)
    case RunTask(_, i) => WithTask(q, i, Queued(if i < |q.tasks| && q.tasks[i].late.UseKV? then Some(q.ctx) else None))
    case RunCallback(_, i) =>
      var g := FetchAt(q, i);
      if g.callback.Scheduled? then WithFetch(q, i, g.(callback := Settled(g.callback.ok))) else q
    case Run(_, which) => OwnRun(q, which)
    case FetchStep(_, i) => WithFetch(q, i, FetchAt(q, i).(pc := NextStage(q, FetchAt(q, i).pc)))
    case FetchRefused(_, i) => WithFetch(q, i, FetchAt(q, i).(pc := Gone, callback := Scheduled(false)))
    case FetchReturn(_, i, ok) => WithFetch(q, i, FetchAt(q, i).(pc := Returning(q.ctx), callback := Scheduled(ok)))
    case WaitStep(_) => OwnWait(q)
    case ReleaseStep(_) => OwnRelease(q, n.emptied)
    case Cancel(_) => q.(gone := true)
  }

  // Both wrapper calls conclude; neither fails.
  function OwnCall(q: Req, k: nat): Req {
    if k < |q.wrappers| && k < |q.extenders| then
      q.(wrappers := q.wrappers[k := WrapperDone], extenders := q.extenders[k := false])
    else q
  }

  // s' differs from s, among the requests, in r, which is now q'.
  predicate Becomes(s: Sys, s': Sys, r: Id, q': Req) { r < |s.reqs| && s'.reqs == s.reqs[r := q'] }

  // The steps, one by one.

  lemma Unread(s: Sys, s': Sys, r: Id)
    requires r < |s.reqs| && s'.reqs == s.reqs
    ensures Becomes(s, s', r, s.reqs[r])
  {
    assert s.reqs == s.reqs[r := s.reqs[r]];
  }

  lemma OwnTakeEvent(s: Sys, r: Id)
    requires r < |s.reqs|
    ensures Becomes(s, DoTakeEvent(s, r), r, Own(s.reqs[r], TakeEvent(r), Names(s.Pick(KEvent), 0, 0, false)))
  {}

  lemma OwnRespondWith(s: Sys, r: Id)
    requires Inv(s) && r < |s.reqs| && Live(s.reqs[r], ByHandler)
    ensures Becomes(s, DoRespondWith(s, r), r, Own(s.reqs[r], RespondWith(r), NoNames))
  {
    LiveInUse(s, r, ByHandler);
    InPlace(s, r);
    Unread(s, s, r);
  }

  lemma OwnWaitUntil(s: Sys, r: Id, o: Owner)
    requires Inv(s) && r < |s.reqs| && Live(s.reqs[r], o)
    ensures Becomes(s, DoWaitUntil(s, r), r, Own(s.reqs[r], WaitUntil(r, o), NoNames))
  {
    LiveInUse(s, r, o);
    InPlace(s, r);
  }

  lemma ReadsTouchNone(s: Sys, a: Action)
    requires Enabled(s, a) && (a.ReadFetch? || a.ReadHeaders? || a.ReadBody? || a.ReadResponseHeaders?)
    ensures Apply(s, a).reqs == s.reqs
  {
    match a {
      case ReadFetch(r, _) => FetchReadTouchesNone(s, r);
      case ReadHeaders(r, _) => HeadersReadTouchesNone(s, r);
      case ReadBody(r, _) => BodyReadTouchesNone(s, r);
      case ReadResponseHeaders(r, _, i) => ResponseReadTouchesNone(s, r, i);
    }
  }

  lemma FetchReadTouchesNone(s: Sys, r: Id)
    requires r < |s.reqs|
    ensures DoReadFetch(s, r).reqs == s.reqs
  {
    TakeReqs(s, KFetcher, r);
  }

  lemma HeadersReadTouchesNone(s: Sys, r: Id)
    requires r < |s.reqs|
    ensures DoReadHeaders(s, r).reqs == s.reqs
  {
    TakeReqs(s, KHeaders, r);
  }

  lemma BodyReadTouchesNone(s: Sys, r: Id)
    requires r < |s.reqs|
    ensures DoReadBody(s, r).reqs == s.reqs
  {
    TakeReqs(s, KStream, r);
  }

  lemma ResponseReadTouchesNone(s: Sys, r: Id, i: nat)
    requires r < |s.reqs| && i < |s.reqs[r].fetches|
    ensures DoReadResponseHeaders(s, r, i).reqs == s.reqs
  {
    TakeReqs(s, KHeaders, r);
  }

  lemma TakeReqs(s: Sys, k: Kind, r: Id)
    ensures s.Take(k, r).reqs == s.reqs
  {}

  lemma OwnFetchCall(s: Sys, r: Id, o: Owner, body: FetchBody) returns (n: Names)
    requires Inv(s) && r < |s.reqs| && Live(s.reqs[r], o) && s.Evt(s.reqs[r].evt).fetcher.Some?
    ensures Becomes(s, DoFetchCall(s, r, o, body), r, Own(s.reqs[r], DoFetch(r, o, body), n))
  {
    n := Names(0, s.Evt(s.reqs[r].evt).fetcher.value, s.Pick(KResponse), false);
    LiveInUse(s, r, o);
    EventFetcherBound(s, r);
    TakeReqs(s, KResponse, r);
    FetchCalled(s, r, o, body);
  }

  lemma FetchCalled(s: Sys, r: Id, o: Owner, body: FetchBody)
    requires r < |s.reqs| && s.Evt(s.reqs[r].evt).fetcher.Some?
    requires s.Fetcher(s.Evt(s.reqs[r].evt).fetcher.value).ioContext.Some? && s.Take(KResponse, r).reqs == s.reqs
    ensures var n := Names(0, s.Evt(s.reqs[r].evt).fetcher.value, s.Pick(KResponse), false);
      Becomes(s, DoFetchCall(s, r, o, body), r, Own(s.reqs[r], DoFetch(r, o, body), n))
  {}

  lemma OwnReadKV(s: Sys, r: Id, o: Owner)
    requires r < |s.reqs|
    ensures Becomes(s, DoReadKV(s, r), r, Own(s.reqs[r], ReadKV(r, o), NoNames))
  {}

  lemma OwnSettle(s: Sys, r: Id, ok: bool)
    requires Inv(s) && r < |s.reqs| && s.reqs[r].handler.Pending?
    ensures Becomes(s, DoSettle(s, r, ok), r, Own(s.reqs[r], Settle(r, ok), NoNames))
  {
    LiveInUse(s, r, ByHandler);
    InPlace(s, r);
  }

  lemma OwnSettleResponse(s: Sys, r: Id, o: Outcome, text: bool)
    requires Inv(s) && r < |s.reqs| && s.reqs[r].respond.Awaiting?
    ensures Becomes(s, DoSettleResponse(s, r, o, text), r, Own(s.reqs[r], SettleResponse(r, o, text), NoNames))
  {
    LiveInUse(s, r, ByResponse);
    InPlace(s, r);
  }

  lemma OwnConclude(s: Sys, r: Id, k: nat)
    requires Inv(s) && r < |s.reqs| && k < |s.reqs[r].wrappers|
    requires s.reqs[r].wrappers[k].ResolveDue? || s.reqs[r].wrappers[k].RejectDue?
    ensures Becomes(s, DoCallResolve(s, r, k), r, Own(s.reqs[r], CallResolve(r, k), NoNames))
    ensures Becomes(s, DoCallReject(s, r, k), r, Own(s.reqs[r], CallReject(r, k), NoNames))
  {
    ConcludesAlone(s, r, k);
    CallsConclude(s, r, k);
  }

  lemma ConcludesAlone(s: Sys, r: Id, k: nat)
    requires Inv(s) && r < |s.reqs| && k < |s.reqs[r].wrappers|
    requires s.reqs[r].wrappers[k].ResolveDue? || s.reqs[r].wrappers[k].RejectDue?
    ensures !ConcludeFails(s, r) && DoConclude(s, r, k).reqs == s.reqs[r := OwnCall(s.reqs[r], k)]
  {
    KeepsConclude(s, r, k);
    assert Concluded(s.reqs[r], k) == OwnCall(s.reqs[r], k) by { ConcludeGoes(s, r, k); }
  }

  lemma CallsConclude(s: Sys, r: Id, k: nat)
    requires r < |s.reqs| && !ConcludeFails(s, r)
    ensures DoCallResolve(s, r, k) == DoConclude(s, r, k) == DoCallReject(s, r, k)
  {}

  lemma OwnRunTask(s: Sys, r: Id, i: nat)
    requires Inv(s) && r < |s.reqs| && i < |s.reqs[r].tasks| && s.reqs[r].tasks[i].pc.InFlight?
    ensures Becomes(s, DoRunTask(s, r, i), r, Own(s.reqs[r], RunTask(r, i), NoNames))
  {
    TaskFinds(s, r, i);
  }

  lemma OwnRunCallback(s: Sys, r: Id, i: nat)
    requires Inv(s) && r < |s.reqs| && i < |s.reqs[r].fetches| && s.reqs[r].fetches[i].callback.Scheduled?
    ensures Becomes(s, DoRunCallback(s, r, i), r, Own(s.reqs[r], RunCallback(r, i), NoNames))
  {
    if s.reqs[r].fetches[i].callback.ok { OwnGoodCallback(s, r, i); }
  }

  lemma OwnGoodCallback(s: Sys, r: Id, i: nat)
    requires Inv(s) && r < |s.reqs| && i < |s.reqs[r].fetches| && s.reqs[r].fetches[i].callback == Scheduled(true)
    ensures DoRunCallback(s, r, i).reqs
         == s.reqs[r := SetFetch(s.reqs[r], i, s.reqs[r].fetches[i].(callback := Settled(true)))]
  {
    CallbackInUse(s, r, i);
    CallbackReads(s, r, i);
    GoodCallbackReqs(s, r, i);
  }

  lemma GoodCallbackReqs(s: Sys, r: Id, i: nat)
    requires Reads(s, r) && i < |s.reqs[r].fetches| && s.reqs[r].fetches[i].callback == Scheduled(true)
    requires s.Fetcher(s.reqs[r].fetches[i].fetcher) == Fetcher(Some(s.reqs[r].ctx))
    ensures DoRunCallback(s, r, i).reqs
         == s.reqs[r := SetFetch(s.reqs[r], i, s.reqs[r].fetches[i].(callback := Settled(true)))]
  {
    var g, c, t := s.reqs[r].fetches[i], s.reqs[r].ctx, s.Pick(KStream);
    var u := s.Take(KStream, r).SetStream(t, Stream(true, true)).Register(c, Return(Obj(KStream, t)))
      .SetResponse(g.response, s.Response(g.response).(ioContext := Some(c), resp := true, body := Some(t)))
      .Register(c, ResetResponse(g.response));
    TakeReqs(s, KStream, r);
    assert u.reqs == s.reqs;
    assert DoRunCallback(s, r, i) == u.SetReq(r, SetFetch(s.reqs[r], i, g.(callback := Settled(true))));
  }

  lemma OwnRuns(s: Sys, r: Id, which: Which)
    requires Inv(s) && r < |s.reqs| && Ready(ThreadOf(s.reqs[r], which), s.Evt(s.reqs[r].evt))
    ensures Becomes(s, DoRun(s, r, which), r, Own(s.reqs[r], Run(r, which), NoNames))
  {
    RunnerFacts(s, r, which);
    RanReqs(s, r, which);
    RanAlone(r, s.reqs[r], s.evts[s.reqs[r].evt], which);
  }

  lemma RunnerFacts(s: Sys, r: Id, which: Which)
    requires Inv(s) && r < |s.reqs| && ThreadOf(s.reqs[r], which) != End
    ensures s.reqs[r].evt < |s.evts| && EventInv(r, s.reqs[r], s.evts[s.reqs[r].evt])
  {
    RunnerInUse(s, r, which);
    InPlace(s, r);
  }

  lemma RanReqs(s: Sys, r: Id, which: Which)
    requires r < |s.reqs| && s.reqs[r].evt < |s.evts| && ThreadOf(s.reqs[r], which) != End
    requires EventInv(r, s.reqs[r], s.evts[s.reqs[r].evt])
    ensures DoRun(s, r, which).reqs == s.reqs[r := Ran(r, s.reqs[r], s.evts[s.reqs[r].evt], which, s.reqs[r].gone)]
  {
    RunShape(s, r, which);
  }

  // What the goroutine reads of the event says what its own record says.
  lemma RanAlone(r: Id, q: Req, e: Evt, which: Which)
    requires EventInv(r, q, e) && ThreadOf(q, which) != End
    ensures Ran(r, q, e, which, q.gone) == OwnRun(q, which)
  {
    var p := ThreadOf(q, which);
    if p.IfSent? {
      assert !which.OfResponse?;
      SentIffSkip(r, q, e);
    }
    assert Rest(p, e, q.gone) == Onward(q, p);
  }

  lemma OwnFetchStep(s: Sys, r: Id, i: nat)
    requires Step(s, FetchStep(r, i))
    ensures Becomes(s, DoFetchStep(s, r, i), r, Own(s.reqs[r], FetchStep(r, i), NoNames))
  {
    var pc := s.reqs[r].fetches[i].pc;
    assert FetchInv(s.reqs[r], s.reqs[r].fetches[i]) by { assert ReqInv(s, r) && RequestInv(s.reqs[r]); }
    if pc.Releasing? {
      KeepsLateRelease(s, r, i);
    } else {
      FetchInUse(s, r, i);
      FetchFacts(s, r, i);
      FetchGoesOn(s, r, i);
    }
  }

  lemma FetchGoesOn(s: Sys, r: Id, i: nat)
    requires FetchFinds(s, r, i) && !s.reqs[r].fetches[i].pc.Releasing? && !s.reqs[r].fetches[i].pc.Running?
    requires !s.reqs[r].fetches[i].pc.Gone?
    ensures Becomes(s, DoFetchStep(s, r, i), r, Own(s.reqs[r], FetchStep(r, i), NoNames))
  {
    var q, g := s.reqs[r], s.reqs[r].fetches[i];
    assert DoFetchStep(s, r, i).reqs == s.reqs[r := SetFetch(q, i, g.(pc := NextStage(q, g.pc)))];
  }

  lemma OwnFetchReturn(s: Sys, r: Id, i: nat, ok: bool)
    requires Inv(s) && r < |s.reqs| && i < |s.reqs[r].fetches| && s.reqs[r].fetches[i].pc.Running?
    ensures Becomes(s, DoFetchReturn(s, r, i, ok), r, Own(s.reqs[r], FetchReturn(r, i, ok), NoNames))
  {
    var q, g := s.reqs[r], s.reqs[r].fetches[i];
    assert g.pc.ctx == q.ctx by { assert ReqInv(s, r) && RequestInv(q) && FetchInv(q, g); }
  }

  lemma OwnWaitStep(s: Sys, r: Id)
    requires Inv(s) && r < |s.reqs| && !s.reqs[r].waiter.NoWait? && !s.reqs[r].waiter.Ended?
    ensures Becomes(s, DoWaitStep(s, r), r, Own(s.reqs[r], WaitStep(r), NoNames))
  {
    assert s.Ctx(s.reqs[r].ctx).request.Some? && !s.Ctx(s.reqs[r].ctx).extended.Nil?
        && s.Ctx(s.reqs[r].ctx).shouldExtend == (s.reqs[r].extenders != []) by {
      WaitRuns(s, r);
      InPlace(s, r);
    }
    Waits(s, r);
  }

  lemma Waits(s: Sys, r: Id)
    requires r < |s.reqs| && !s.reqs[r].waiter.NoWait? && !s.reqs[r].waiter.Ended?
    requires s.Ctx(s.reqs[r].ctx).request.Some? && !s.Ctx(s.reqs[r].ctx).extended.Nil?
    requires s.Ctx(s.reqs[r].ctx).shouldExtend == (s.reqs[r].extenders != [])
    ensures Becomes(s, DoWaitStep(s, r), r, Own(s.reqs[r], WaitStep(r), NoNames))
  {}

  // Returning or resetting an object touches no request and no context.
  lemma GiveKeeps(s: Sys, o: Obj)
    ensures s.Give(o).reqs == s.reqs && s.Give(o).ctxs == s.ctxs
  {}

  lemma CleanReturns(s: Sys, c: Id, o: Obj)
    ensures Clean(s, c, Return(o)).reqs == s.reqs && Clean(s, c, Return(o)).ctxs == s.ctxs
  {
    match o.kind {
      case KContext =>
      case KEvent => GiveKeeps(s.SetEvt(o.id, s.Evt(o.id).Reset()), o);
      case KFetcher => GiveKeeps(s.SetFetcher(o.id, NewFetcher), o);
      case KResponse => GiveKeeps(s, o);
      case KStream => GiveKeeps(s.SetStream(o.id, NewStream), o);
      case KHeaders => GiveKeeps(s.SetHeaders(o.id, NewHeaders), o);
    }
  }

  lemma CleanReqs(s: Sys, c: Id, entry: Cleanup)
    ensures Clean(s, c, entry).reqs == s.reqs && Clean(s, c, entry).ctxs == s.ctxs
  {
    if entry.Return? { CleanReturns(s, c, entry.obj); }
  }

  lemma OwnReleaseStep(s: Sys, r: Id)
    requires Step(s, ReleaseStep(r))
    ensures Becomes(s, DoReleaseStep(s, r), r, Own(s.reqs[r], ReleaseStep(r), Names(0, 0, 0, Stack(s, r) == [])))
  {
    var q, x := s.reqs[r], s.Ctx(s.reqs[r].ctx);
    if q.releaser.Cleaning? && x.cleanups != [] {
      CleanReqs(s.SetCtx(q.ctx, x.PopCleanup()), q.ctx, x.cleanups[|x.cleanups| - 1]);
      Unread(s, DoReleaseStep(s, r), r);
    } else if q.releaser.Putting? {
      GiveKeeps(s.SetReq(r, q.(releaser := Closed)), Obj(KContext, q.ctx));
    } else if q.releaser.OnCancelled? {
      assert !x.extended.Nil? by { assert ReqInv(s, r) && OpenInv(s, r); }
    }
  }

  // A late read's step changes nothing but its request's list of them.
  lemma TaskShape(s: Sys, a: Action) returns (tasks: seq<Task>)
    requires Step(s, a) && (a.StartTask? || a.RunTask? || a.EndTask?)
    ensures Apply(s, a) == s.(reqs := s.reqs[a.r := s.reqs[a.r].(tasks := tasks)])
    ensures |s.reqs[a.r].tasks| <= |tasks|
  {
    var q := s.reqs[a.r];
    match a {
      case StartTask(r, o, late) => tasks := q.tasks + [Task(o, late, InFlight)];
      case EndTask(r, i) => tasks := q.tasks[i := q.tasks[i].(pc := TaskDone)];
      case RunTask(r, i) =>
        TaskFinds(s, r, i);
        tasks := q.tasks[i := q.tasks[i].(pc := Queued(if q.tasks[i].late.UseKV? then Some(q.ctx) else None))];
    }
  }

  // A step of wait moves its own counter, if it moves anything.
  lemma WaitOnly(s: Sys, r: Id)
    requires r < |s.reqs|
    ensures DoWaitStep(s, r).reqs == s.reqs || exists w :: DoWaitStep(s, r).reqs == s.reqs[r := s.reqs[r].(waiter := w)]
  {
    var q, x := s.reqs[r], s.Ctx(s.reqs[r].ctx);
    match q.waiter {
      case Begin =>
        assert DoWaitStep(s, r).reqs == s.reqs[r := q.(waiter := if x.shouldExtend then OnExtenders else OnReqCtx)];
      case OnExtenders => assert DoWaitStep(s, r).reqs == s.reqs[r := q.(waiter := ToCancel)];
      case OnReqCtx => if x.request.Some? { assert DoWaitStep(s, r).reqs == s.reqs[r := q.(waiter := ToCancel)]; }
      case ToCancel => if !x.extended.Nil? { assert DoWaitStep(s, r).reqs == s.reqs[r := q.(waiter := Ended)]; }
      case _ =>
    }
  }

  // Together.

  lemma RequestOwn(s: Sys, a: Action) returns (n: Names)
    requires Step(s, a)
    requires a.TakeEvent? || a.Invoke? || a.EnterWait? || a.EnterException? || a.WaitReturn? || a.SyncReturn?
          || a.Throw? || a.Cancel?
    ensures Becomes(s, Apply(s, a), a.r, Own(s.reqs[a.r], a, n))
  {
    n := NoNames;
    if a.TakeEvent? {
      n := Names(s.Pick(KEvent), 0, 0, false);
      OwnTakeEvent(s, a.r);
    } else {
      FieldsOwn(s, a);
    }
  }

  lemma FieldsOwn(s: Sys, a: Action)
    requires a.Invoke? || a.EnterWait? || a.EnterException? || a.WaitReturn? || a.SyncReturn? || a.Throw? || a.Cancel?
    requires Enabled(s, a)
    ensures Becomes(s, Apply(s, a), a.r, Own(s.reqs[a.r], a, NoNames))
  {}

  lemma ReadOwn(s: Sys, a: Action)
    requires Step(s, a) && (a.ReadFetch? || a.ReadHeaders? || a.ReadBody? || a.ReadResponseHeaders?)
    ensures Becomes(s, Apply(s, a), a.r, Own(s.reqs[a.r], a, NoNames))
  {
    ReadsTouchNone(s, a);
    Unread(s, Apply(s, a), a.r);
  }

  lemma EventOwn(s: Sys, a: Action) returns (n: Names)
    requires Step(s, a) && (a.RespondWith? || a.WaitUntil? || a.DoFetch? || a.Adopt? || a.ReadKV?)
    ensures Becomes(s, Apply(s, a), a.r, Own(s.reqs[a.r], a, n))
  {
    n := NoNames;
    match a {
      case RespondWith(r) => OwnRespondWith(s, r);
      case WaitUntil(r, o) => OwnWaitUntil(s, r, o);
      case DoFetch(r, o, body) => n := OwnFetchCall(s, r, o, body);
      case ReadKV(r, o) => OwnReadKV(s, r, o);
      case Adopt(_, _, _) =>
    }
  }

  lemma PromiseOwn(s: Sys, a: Action)
    requires Step(s, a) && (a.Settle? || a.SettleResponse? || a.Fulfil? || a.CallResolve? || a.CallReject?)
    ensures Becomes(s, Apply(s, a), a.r, Own(s.reqs[a.r], a, NoNames))
  {
    match a {
      case Settle(r, ok) => OwnSettle(s, r, ok);
      case SettleResponse(r, o, text) => OwnSettleResponse(s, r, o, text);
      case CallResolve(r, k) => OwnConclude(s, r, k);
      case CallReject(r, k) => OwnConclude(s, r, k);
      case Fulfil(_, _, _) =>
    }
  }

  lemma TaskOwn(s: Sys, a: Action)
    requires Step(s, a) && (a.StartTask? || a.RunTask? || a.EndTask?)
    ensures Becomes(s, Apply(s, a), a.r, Own(s.reqs[a.r], a, NoNames))
  {
    if a.RunTask? { OwnRunTask(s, a.r, a.i); }
  }

  lemma FetchOwn(s: Sys, a: Action)
    requires Step(s, a) && (a.FetchStep? || a.FetchRefused? || a.FetchReturn? || a.RunCallback?)
    ensures Becomes(s, Apply(s, a), a.r, Own(s.reqs[a.r], a, NoNames))
  {
    match a {
      case FetchStep(r, i) => OwnFetchStep(s, r, i);
      case FetchReturn(r, i, ok) => OwnFetchReturn(s, r, i, ok);
      case RunCallback(r, i) => OwnRunCallback(s, r, i);
      case FetchRefused(_, _) =>
    }
  }

  lemma GoroutineOwn(s: Sys, a: Action) returns (n: Names)
    requires Step(s, a) && (a.Run? || a.WaitStep? || a.ReleaseStep?)
    ensures Becomes(s, Apply(s, a), a.r, Own(s.reqs[a.r], a, n))
  {
    n := NoNames;
    match a {
      case Run(r, which) => OwnRuns(s, r, which);
      case WaitStep(r) => OwnWaitStep(s, r);
      case ReleaseStep(r) =>
        n := Names(0, 0, 0, Stack(s, r) == []);
        OwnReleaseStep(s, r);
    }
  }

  // A step changes the record of its own request, and no other; how, the record tells.
  lemma StepOwn(s: Sys, a: Action) returns (n: Names)
    requires Step(s, a) && !a.Arrive?
    ensures Becomes(s, Apply(s, a), a.r, Own(s.reqs[a.r], a, n))
  {
    n := NoNames;
    if a.ReadFetch? || a.ReadHeaders? || a.ReadBody? || a.ReadResponseHeaders? { ReadOwn(s, a); }
    else if a.RespondWith? || a.WaitUntil? || a.DoFetch? || a.Adopt? || a.ReadKV? { n := EventOwn(s, a); }
    else if a.Settle? || a.SettleResponse? || a.Fulfil? || a.CallResolve? || a.CallReject? { PromiseOwn(s, a); }
    else if a.StartTask? || a.RunTask? || a.EndTask? { TaskOwn(s, a); }
    else if a.FetchStep? || a.FetchRefused? || a.FetchReturn? || a.RunCallback? { FetchOwn(s, a); }
    else if a.Run? || a.WaitStep? || a.ReleaseStep? { n := GoroutineOwn(s, a); }
    else { n := RequestOwn(s, a); }
  }
}
