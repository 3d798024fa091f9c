// Once a returned request has nothing left running, its wait and release goroutines
// bring its IOContext home, whatever the other requests do in the meantime.
module Ending {
  import opened Base
  import opened Objects
  import opened Programs
  import opened Middleware
  import opened Invariants
  import opened Frames
  import opened LocalSteps
  import opened RequestSteps
  import opened FetchSteps
  import opened ScriptSteps
  import opened SettleSteps
  import opened TakeSteps
  import opened EndSteps
  import opened Safety
  import opened Alone
  import opened History
  import opened Completion

  // The handler has returned, every waitUntil has concluded, the request context is done
  // unless there was a waitUntil, and every fetch has passed fetchGroup.Done.
  ghost predicate Over(s: Sys, r: Id) {
    && r < |s.reqs| && s.reqs[r].http.Returned? && (s.reqs[r].gone || s.reqs[r].extenders != []) && Quiet(s.reqs[r])
    && (forall i :: 0 <= i < |s.reqs[r].fetches| ==>
          s.reqs[r].fetches[i].pc.Releasing? || s.reqs[r].fetches[i].pc.Gone?)
  }

  // Phases and cleanups still to come.
  function Remaining(s: Sys, r: Id): nat
    requires r < |s.reqs|
  {
    WaitWork(s.reqs[r].waiter) + ReleaseWork(s.reqs[r].releaser) + |Stack(s, r)|
  }

  // What is left of such a request.
  lemma OverFacts(s: Sys, r: Id)
    requires Inv(s) && Over(s, r)
    ensures var q := s.reqs[r];
      && (q.handler.Finished? || q.handler.Thrown?) && !q.respond.Awaiting?
      && (forall k :: 0 <= k < |q.extenders| ==> !q.extenders[k])
      && (forall k :: 0 <= k < |q.wrappers| ==> q.wrappers[k].WrapperDone?)
      && (forall i :: 0 <= i < |q.fetches| ==> q.fetches[i].callback.Settled?)
      && (forall i :: 0 <= i < |q.tasks| ==> q.tasks[i].pc.TaskDone?)
      && (forall which :: ThreadOf(q, which) == End)
      && !q.waiter.NoWait? && !q.releaser.NoRelease? && q.ctx < |s.ctxs|
      && (q.waiter.OnReqCtx? ==> q.gone)
      && (q.releaser.Cleaning? || q.releaser.Putting? || q.releaser.Closed? ==> q.waiter.Ended?)
  {
    var q := s.reqs[r];
    assert RequestInv(q) && q.ctx < |s.ctxs| by { assert ReqInv(s, r); }
    assert !Live(q, ByResponse);
    forall k | 0 <= k < |q.extenders| ensures !q.extenders[k] { assert !Live(q, ByExtender(k)); }
    forall k | 0 <= k < |q.wrappers| ensures q.wrappers[k].WrapperDone? { assert !q.extenders[k]; }
    forall i | 0 <= i < |q.fetches| ensures q.fetches[i].callback.Settled? { assert FetchInv(q, q.fetches[i]); }
    forall i | 0 <= i < |q.tasks| ensures q.tasks[i].pc.TaskDone? { assert TaskInv(q, q.tasks[i]); }
  }

  // One of the two goroutines can go on.
  lemma NeverStuck(s: Sys, r: Id)
    requires Inv(s) && Over(s, r) && s.reqs[r].Open()
    ensures Enabled(s, WaitStep(r)) || Enabled(s, ReleaseStep(r))
  {
    var q := s.reqs[r];
    OverFacts(s, r);
    if !q.releaser.Cleaning? && !q.releaser.Putting? {
      ReturnedFacts(s, r);
      CountedNone(q.fetches);
      TruesZero(q.extenders);
      CanGo(s, r);
    }
  }

  lemma CanGo(s: Sys, r: Id)
    requires !s.crashed && r < |s.reqs| && (s.reqs[r].waiter.OnReqCtx? ==> s.reqs[r].gone)
    requires !s.reqs[r].waiter.NoWait? && s.reqs[r].Open()
    requires !s.reqs[r].releaser.NoRelease?
    requires var q, x := s.reqs[r], s.Ctx(s.reqs[r].ctx);
      && x.extenders == 0 && x.fetches == 0 && x.request == Some(r) && (q.waiter.Ended? ==> x.extended.Cancelled?)
    ensures Enabled(s, WaitStep(r)) || Enabled(s, ReleaseStep(r))
  {}

  // A step of request a.r pushes onto and pops from its own cleanup stack only.

  ghost predicate Elsewhere(s: Sys, s': Sys, c: Id) {
    c < |s.ctxs| <= |s'.ctxs| && s'.ctxs[c].cleanups == s.ctxs[c].cleanups
  }

  lemma RequestElsewhere(s: Sys, a: Action, c: Id)
    requires Step(s, a) && c < |s.ctxs|
    requires a.Invoke? || a.EnterWait? || a.EnterException? || a.WaitReturn? || a.SyncReturn? || a.Throw? || a.Cancel?
    ensures Elsewhere(s, Apply(s, a), c)
  {}

  lemma ScriptElsewhere(s: Sys, a: Action, c: Id)
    requires Step(s, a) && c < |s.ctxs| && (a.RespondWith? || a.ReadKV? || a.Settle? || a.Fulfil?)
    ensures Elsewhere(s, Apply(s, a), c)
  {}

  lemma ProgressElsewhere(s: Sys, a: Action, c: Id)
    requires Step(s, a) && c < |s.ctxs| && (a.Adopt? || a.FetchRefused? || a.FetchReturn?)
    ensures Elsewhere(s, Apply(s, a), c)
  {}

  lemma PlainElsewhere(s: Sys, a: Action, c: Id)
    requires Step(s, a) && c < |s.ctxs|
    requires a.Invoke? || a.EnterWait? || a.EnterException? || a.WaitReturn? || a.SyncReturn? || a.Throw?
          || a.RespondWith? || a.Adopt? || a.ReadKV? || a.Settle? || a.Fulfil? || a.FetchRefused?
          || a.FetchReturn? || a.Cancel?
    ensures Elsewhere(s, Apply(s, a), c)
  {
    if a.RespondWith? || a.ReadKV? || a.Settle? || a.Fulfil? { ScriptElsewhere(s, a, c); }
    else if a.Adopt? || a.FetchRefused? || a.FetchReturn? { ProgressElsewhere(s, a, c); }
    else { RequestElsewhere(s, a, c); }
  }

  lemma ExtenderElsewhere(s: Sys, r: Id, c: Id)
    requires r < |s.reqs| && c < |s.ctxs|
    ensures Elsewhere(s, DoWaitUntil(s, r), c)
  {}

  lemma CallElsewhere(s: Sys, r: Id, k: nat, c: Id)
    requires r < |s.reqs| && c < |s.ctxs|
    ensures Elsewhere(s, DoCallResolve(s, r, k), c) && Elsewhere(s, DoCallReject(s, r, k), c)
  {}

  lemma TaskElsewhere(s: Sys, a: Action, c: Id)
    requires Step(s, a) && c < |s.ctxs| && (a.StartTask? || a.RunTask? || a.EndTask?)
    ensures Elsewhere(s, Apply(s, a), c)
  {
    var tasks := TaskShape(s, a);
  }

  lemma FetchElsewhere(s: Sys, r: Id, i: nat, c: Id)
    requires Step(s, FetchStep(r, i)) && c < |s.ctxs|
    ensures Elsewhere(s, DoFetchStep(s, r, i), c)
  {
    StepGoes(s, r, i);
    var pc := s.reqs[r].fetches[i].pc;
    var g;
    if pc.Start? || pc.Counted? { g := ReadShape(s, r, i); } else { g := CountShape(s, r, i); }
  }

  lemma WaitElsewhere(s: Sys, r: Id, c: Id)
    requires r < |s.reqs| && c < |s.ctxs|
    ensures Elsewhere(s, DoWaitStep(s, r), c)
  {}

  lemma CountElsewhere(s: Sys, a: Action, c: Id)
    requires Step(s, a) && c < |s.ctxs|
    requires a.WaitUntil? || a.CallResolve? || a.CallReject? || a.FetchStep? || a.WaitStep?
    ensures Elsewhere(s, Apply(s, a), c)
  {
    if a.FetchStep? { FetchElsewhere(s, a.r, a.i, c); }
    else if a.WaitStep? { WaitElsewhere(s, a.r, c); }
    else { GroupElsewhere(s, a, c); }
  }

  lemma GroupElsewhere(s: Sys, a: Action, c: Id)
    requires Step(s, a) && c < |s.ctxs| && (a.WaitUntil? || a.CallResolve? || a.CallReject?)
    ensures Elsewhere(s, Apply(s, a), c)
  {
    if a.WaitUntil? { ExtenderElsewhere(s, a.r, c); } else { CallElsewhere(s, a.r, a.x, c); }
  }

  lemma RunElsewhere(s: Sys, r: Id, which: Which, c: Id)
    requires Step(s, Run(r, which)) && c < |s.ctxs|
    ensures Elsewhere(s, DoRun(s, r, which), c)
  {}

  // Pushes by the script.
  predicate Bound(s: Sys, r: Id) { r < |s.reqs| && s.Evt(s.reqs[r].evt).ioContext == Some(s.reqs[r].ctx) }

  lemma LiveBound(s: Sys, r: Id, o: Owner)
    requires Inv(s) && r < |s.reqs| && Live(s.reqs[r], o)
    ensures Bound(s, r)
  {
    LiveInUse(s, r, o);
    InPlace(s, r);
  }

  lemma FetcherElsewhere(s: Sys, r: Id, c: Id)
    requires Bound(s, r) && c < |s.ctxs| && c != s.reqs[r].ctx
    ensures Elsewhere(s, DoReadFetch(s, r), c)
  {}

  lemma HeadersElsewhere(s: Sys, r: Id, c: Id)
    requires Bound(s, r) && c < |s.ctxs| && c != s.reqs[r].ctx
    ensures Elsewhere(s, DoReadHeaders(s, r), c)
  {}

  lemma BodyElsewhere(s: Sys, r: Id, c: Id)
    requires Bound(s, r) && c < |s.ctxs| && c != s.reqs[r].ctx
    ensures Elsewhere(s, DoReadBody(s, r), c)
  {}

  lemma ProxyElsewhere(s: Sys, r: Id, i: nat, c: Id)
    requires r < |s.reqs| && i < |s.reqs[r].fetches| && c < |s.ctxs| && c != s.reqs[r].ctx
    requires s.Response(s.reqs[r].fetches[i].response).ioContext == Some(s.reqs[r].ctx)
    ensures Elsewhere(s, DoReadResponseHeaders(s, r, i), c)
  {}

  lemma ResponseElsewhere(s: Sys, r: Id, o: Owner, i: nat, c: Id)
    requires Step(s, ReadResponseHeaders(r, o, i)) && c < |s.ctxs| && c != s.reqs[r].ctx
    ensures Elsewhere(s, DoReadResponseHeaders(s, r, i), c)
  {
    LiveInUse(s, r, o);
    ResponseBound(s, r, i);
    ProxyElsewhere(s, r, i, c);
  }

  lemma FetchCallElsewhere(s: Sys, r: Id, o: Owner, body: FetchBody, c: Id)
    requires Step(s, DoFetch(r, o, body)) && c < |s.ctxs| && c != s.reqs[r].ctx
    ensures Elsewhere(s, DoFetchCall(s, r, o, body), c)
  {
    LiveInUse(s, r, o);
    EventFetcherBound(s, r);
  }

  lemma SettleElsewhere(s: Sys, r: Id, o: Outcome, text: bool, c: Id)
    requires Step(s, SettleResponse(r, o, text)) && c < |s.ctxs| && c != s.reqs[r].ctx
    ensures Elsewhere(s, DoSettleResponse(s, r, o, text), c)
  {
    assert s.Evt(s.reqs[r].evt).ioContext == Some(s.reqs[r].ctx) by { LiveInUse(s, r, ByResponse); InPlace(s, r); }
  }

  lemma CallbackElsewhere(s: Sys, r: Id, i: nat, c: Id)
    requires Step(s, RunCallback(r, i)) && c < |s.ctxs| && c != s.reqs[r].ctx
    ensures Elsewhere(s, DoRunCallback(s, r, i), c)
  {
    CallbackInUse(s, r, i);
    CallbackReads(s, r, i);
    if s.reqs[r].fetches[i].callback.ok { CallbackState(s, r, i); }
  }

  lemma ReleaseElsewhere(s: Sys, r: Id, c: Id)
    requires r < |s.reqs| && c < |s.ctxs| && (c != s.reqs[r].ctx || !s.reqs[r].Open())
    ensures Elsewhere(s, DoReleaseStep(s, r), c)
  {
    var x := s.Ctx(s.reqs[r].ctx);
    if s.reqs[r].releaser.Cleaning? && x.cleanups != [] {
      CleanReqs(s.SetCtx(s.reqs[r].ctx, x.PopCleanup()), s.reqs[r].ctx, x.cleanups[|x.cleanups| - 1]);
    }
  }

  lemma TakeElsewhere(s: Sys, r: Id, c: Id)
    requires r < |s.reqs| && c < |s.ctxs| && c != s.reqs[r].ctx
    ensures Elsewhere(s, DoTakeEvent(s, r), c)
  {}

  lemma OthersElsewhere(s: Sys, a: Action, c: Id)
    requires Step(s, a) && !a.Arrive? && c < |s.ctxs|
    requires c != s.reqs[a.r].ctx || !s.reqs[a.r].Open()
    ensures Elsewhere(s, Apply(s, a), c)
  {
    if a.ReleaseStep? {
      ReleaseElsewhere(s, a.r, c);
    } else if a.Run? {
      RunElsewhere(s, a.r, a.which, c);
    } else if a.StartTask? || a.RunTask? || a.EndTask? {
      TaskElsewhere(s, a, c);
    } else if a.WaitUntil? || a.CallResolve? || a.CallReject? || a.FetchStep? || a.WaitStep? {
      CountElsewhere(s, a, c);
    } else if a.TakeEvent? || a.ReadFetch? || a.ReadHeaders? || a.ReadBody? || a.ReadResponseHeaders? || a.DoFetch?
           || a.SettleResponse? || a.RunCallback? {
      PushElsewhere(s, a, c);
    } else {
      PlainElsewhere(s, a, c);
    }
  }

  // The steps that push are steps of open requests.
  lemma PushElsewhere(s: Sys, a: Action, c: Id)
    requires Step(s, a) && c < |s.ctxs| && (a.Arrive? || c != s.reqs[a.r].ctx || !s.reqs[a.r].Open())
    requires a.TakeEvent? || a.ReadFetch? || a.ReadHeaders? || a.ReadBody? || a.ReadResponseHeaders? || a.DoFetch?
          || a.SettleResponse? || a.RunCallback?
    ensures Elsewhere(s, Apply(s, a), c)
  {
    match a {
      case TakeEvent(r) => GotFacts(s, r); TakeElsewhere(s, r, c);
      case ReadFetch(r, o) => LiveInUse(s, r, o); LiveBound(s, r, o); FetcherElsewhere(s, r, c);
      case ReadHeaders(r, o) => LiveInUse(s, r, o); LiveBound(s, r, o); HeadersElsewhere(s, r, c);
      case ReadBody(r, o) => LiveInUse(s, r, o); LiveBound(s, r, o); BodyElsewhere(s, r, c);
      case ReadResponseHeaders(r, o, i) => LiveInUse(s, r, o); ResponseElsewhere(s, r, o, i, c);
      case DoFetch(r, o, body) => LiveInUse(s, r, o); FetchCallElsewhere(s, r, o, body, c);
      case SettleResponse(r, o, text) => LiveInUse(s, r, ByResponse); SettleElsewhere(s, r, o, text, c);
      case RunCallback(r, i) => CallbackInUse(s, r, i); CallbackElsewhere(s, r, i, c);
    }
  }

  // Ticks: the steps of request r's own two goroutines.

  function Tick(a: Action, r: Id): nat { if a == WaitStep(r) || a == ReleaseStep(r) then 1 else 0 }

  function Ticks(actions: seq<Action>, r: Id): nat {
    if actions == [] then 0 else Tick(actions[0], r) + Ticks(actions[1..], r)
  }

  // The steps left to a request that is over.
  lemma OwnStep(s: Sys, r: Id, a: Action)
    requires Step(s, a) && Over(s, r) && !a.Arrive? && a.r == r
    ensures a.WaitStep? || a.ReleaseStep? || a.Cancel? || (a.FetchStep? && s.reqs[r].fetches[a.i].pc.Releasing?)
  {
    OverFacts(s, r);
    NoScriptLeft(s, r, a);
  }

  // Its script is done.
  lemma NoScriptLeft(s: Sys, r: Id, a: Action)
    requires Step(s, a) && Over(s, r) && !a.Arrive? && a.r == r
    ensures !a.RespondWith? && !a.WaitUntil? && !a.ReadFetch? && !a.DoFetch? && !a.Adopt? && !a.ReadHeaders?
    ensures !a.ReadBody? && !a.ReadKV? && !a.ReadResponseHeaders? && !a.StartTask?
  {
    forall o ensures !Active(s.reqs[r], o) {}
  }

  lemma ReleasingStep(s: Sys, r: Id, i: nat)
    requires Step(s, FetchStep(r, i)) && Over(s, r) && s.reqs[r].fetches[i].pc.Releasing?
    ensures Over(DoFetchStep(s, r, i), r) && Remaining(DoFetchStep(s, r, i), r) == Remaining(s, r)
  {
    StepGoes(s, r, i);
    var g := CountShape(s, r, i);
    FetchGone(s, DoFetchStep(s, r, i), r, i);
  }

  lemma FetchGone(s: Sys, s': Sys, r: Id, i: nat)
    requires Over(s, r) && i < |s.reqs[r].fetches| && SameStacks(s, s')
    requires s'.reqs == s.reqs[r := SetFetch(s.reqs[r], i, s.reqs[r].fetches[i].(pc := Gone))]
    ensures Over(s', r) && Remaining(s', r) == Remaining(s, r)
  {
    assert forall o :: Live(s'.reqs[r], o) == Live(s.reqs[r], o);
    assert Stack(s', r) == Stack(s, r);
  }

  lemma WaitTick(s: Sys, r: Id)
    requires Step(s, WaitStep(r)) && Over(s, r)
    ensures Over(DoWaitStep(s, r), r) && Remaining(DoWaitStep(s, r), r) < Remaining(s, r)
  {
    var q := s.reqs[r];
    OverFacts(s, r);
    assert InUse(q);
    ReturnedFacts(s, r);
    CountElsewhere(s, WaitStep(r), q.ctx);
    WaitMoves(s, r);
    assert forall o :: Live(DoWaitStep(s, r).reqs[r], o) == Live(q, o);
  }

  lemma WaitMoves(s: Sys, r: Id)
    requires r < |s.reqs| && !s.reqs[r].waiter.NoWait? && !s.reqs[r].waiter.Ended?
    requires s.Ctx(s.reqs[r].ctx).request.Some? && !s.Ctx(s.reqs[r].ctx).extended.Nil?
    ensures var s', q := DoWaitStep(s, r), s.reqs[r];
      && |s'.reqs| == |s.reqs| && s'.reqs[r] == q.(waiter := s'.reqs[r].waiter)
      && WaitWork(s'.reqs[r].waiter) < WaitWork(q.waiter)
  {}

  lemma ReleaseTick(s: Sys, r: Id)
    requires Step(s, ReleaseStep(r)) && Over(s, r)
    ensures Over(DoReleaseStep(s, r), r) && Remaining(DoReleaseStep(s, r), r) < Remaining(s, r)
  {
    OverFacts(s, r);
    if s.reqs[r].releaser.Cleaning? && Stack(s, r) != [] {
      TopFacts(s, r);
      CleanShrinks(s, r, Stack(s, r)[|Stack(s, r)| - 1]);
    } else {
      if s.reqs[r].releaser.OnCancelled? { ReturnedFacts(s, r); }
      PhaseTick(s, r);
    }
  }

  lemma PhaseTick(s: Sys, r: Id)
    requires Over(s, r) && s.reqs[r].Open() && !s.reqs[r].releaser.NoRelease? && s.reqs[r].ctx < |s.ctxs|
    requires s.reqs[r].releaser.Cleaning? ==> Stack(s, r) == []
    requires s.reqs[r].releaser.OnCancelled? ==> !s.Ctx(s.reqs[r].ctx).extended.Nil?
    ensures Over(DoReleaseStep(s, r), r) && Remaining(DoReleaseStep(s, r), r) < Remaining(s, r)
  {
    var s', q := DoReleaseStep(s, r), s.reqs[r];
    assert s'.reqs == s.reqs[r := q.(releaser := s'.reqs[r].releaser)] &&
        ReleaseWork(s'.reqs[r].releaser) < ReleaseWork(q.releaser);
    assert |Stack(s', r)| <= |Stack(s, r)|;
    assert forall o :: Live(s'.reqs[r], o) == Live(q, o);
  }

  // The request stays over, and what remains to it falls by at least `n`.
  ghost predicate EndsBy(s: Sys, s': Sys, r: Id, n: nat) {
    r < |s.reqs| && Over(s', r) && Remaining(s', r) + n <= Remaining(s, r)
  }

  lemma OwnEnds(s: Sys, r: Id, a: Action)
    requires Step(s, a) && Over(s, r) && !a.Arrive? && a.r == r
    ensures EndsBy(s, Apply(s, a), r, Tick(a, r))
  {
    OwnStep(s, r, a);
    if a.WaitStep? {
      WaitEnds(s, r);
    } else if a.ReleaseStep? {
      ReleaseEnds(s, r);
    } else if a.Cancel? {
      CancelEnds(s, r);
    } else {
      FetchEnds(s, r, a.i);
    }
  }

  lemma WaitEnds(s: Sys, r: Id)
    requires Step(s, WaitStep(r)) && Over(s, r)
    ensures EndsBy(s, Apply(s, WaitStep(r)), r, 1)
  {
    WaitTick(s, r);
  }

  lemma ReleaseEnds(s: Sys, r: Id)
    requires Step(s, ReleaseStep(r)) && Over(s, r)
    ensures EndsBy(s, Apply(s, ReleaseStep(r)), r, 1)
  {
    ReleaseTick(s, r);
  }

  lemma CancelEnds(s: Sys, r: Id)
    requires Step(s, Cancel(r)) && Over(s, r)
    ensures EndsBy(s, Apply(s, Cancel(r)), r, 0)
  {
    var s' := s.(reqs := s.reqs[r := s.reqs[r].(gone := true)]);
    assert Apply(s, Cancel(r)) == s' && Stack(s', r) == Stack(s, r);
    assert forall o :: Live(s'.reqs[r], o) == Live(s.reqs[r], o);
  }

  lemma FetchEnds(s: Sys, r: Id, i: nat)
    requires Step(s, FetchStep(r, i)) && Over(s, r) && s.reqs[r].fetches[i].pc.Releasing?
    ensures EndsBy(s, Apply(s, FetchStep(r, i)), r, 0)
  {
    ReleasingStep(s, r, i);
  }

  // What one step does to a request that is over: it stays over, and what remains
  // never grows, and falls with every step of its own two goroutines.
  lemma StepEnds(s: Sys, r: Id, a: Action)
    requires Step(s, a) && Over(s, r)
    ensures EndsBy(s, Apply(s, a), r, Tick(a, r))
  {
    if !a.Arrive? && a.r == r {
      OwnEnds(s, r, a);
    } else {
      OtherEnds(s, r, a);
    }
  }

  lemma OtherEnds(s: Sys, r: Id, a: Action)
    requires Step(s, a) && Over(s, r) && (a.Arrive? || a.r != r)
    ensures EndsBy(s, Apply(s, a), r, 0)
  {
    OthersStep(s, r, a);
    OtherRemains(s, r, a);
  }

  lemma OthersStep(s: Sys, r: Id, a: Action)
    requires Step(s, a) && r < |s.reqs| && (a.Arrive? || a.r != r)
    ensures r < |Apply(s, a).reqs| && Apply(s, a).reqs[r] == s.reqs[r]
  {
    if !a.Arrive? { var n := StepOwn(s, a); }
  }

  lemma OtherRemains(s: Sys, r: Id, a: Action)
    requires Step(s, a) && r < |s.reqs| && (a.Arrive? || a.r != r)
    requires r < |Apply(s, a).reqs| && Apply(s, a).reqs[r] == s.reqs[r]
    ensures Stack(Apply(s, a), r) == Stack(s, r)
  {
    if a.Arrive? {
      ArriveRemains(s, r);
    } else if s.reqs[r].Open() {
      var c := s.reqs[r].ctx;
      assert c < |s.ctxs| && (c != s.reqs[a.r].ctx || !s.reqs[a.r].Open()) by {
        assert ReqInv(s, r);
        Mine(s, r);
        if s.reqs[a.r].Open() { Mine(s, a.r); }
      }
      OthersElsewhere(s, a, c);
    }
  }

  lemma ArriveRemains(s: Sys, r: Id)
    requires Inv(s) && r < |s.reqs|
    ensures Stack(DoArrive(s), r) == Stack(s, r)
  {
    PickBounds(s, KContext);
    ArriveUntouched(s);
    OtherStack(s, DoArrive(s), |s.reqs|, r);
  }

  lemma {:induction false} RunEnds(s: Sys, r: Id, actions: seq<Action>)
    requires Inv(s) && Over(s, r) && Runs(s, actions)
    ensures Over(After(s, actions), r) && Remaining(After(s, actions), r) + Ticks(actions, r) <= Remaining(s, r)
    decreases |actions|
  {
    if actions != [] {
      StepEnds(s, r, actions[0]);
      StepKeeps(s, actions[0]);
      RunEnds(Apply(s, actions[0]), r, actions[1..]);
    }
  }

  lemma EndsFrom(s: Sys, r: Id, actions: seq<Action>)
    requires Inv(s) && Over(s, r) && Runs(s, actions)
    ensures var t := After(s, actions);
      && Inv(t) && Over(t, r) && Remaining(t, r) + Ticks(actions, r) <= Remaining(s, r)
  {
    RunEnds(s, r, actions);
    RunKeeps(s, actions);
  }

  // Progress: while the context of a request that is over is not yet back, one of
  // its two goroutines can take a step; and no run, however the other requests are
  // interleaved, takes more than Remaining(s, r) of those steps before it is back.
  lemma EndsUnderAnySchedule(s: Sys, r: Id, actions: seq<Action>)
    requires Reachable(s) && Over(s, r) && Runs(s, actions)
    ensures var t := After(s, actions);
      && Over(t, r) && Ticks(actions, r) <= Remaining(s, r)
      && (t.reqs[r].Open() ==> Enabled(t, WaitStep(r)) || Enabled(t, ReleaseStep(r)))
      && (Ticks(actions, r) == Remaining(s, r) ==> !t.reqs[r].Open())
  {
    ReachableInv(s);
    EndsFrom(s, r, actions);
    StuckOnlyAtTheEnd(After(s, actions), r);
  }

  lemma StuckOnlyAtTheEnd(t: Sys, r: Id)
    requires Inv(t) && Over(t, r)
    ensures t.reqs[r].Open() ==> Remaining(t, r) > 0 && (Enabled(t, WaitStep(r)) || Enabled(t, ReleaseStep(r)))
  {
    if t.reqs[r].Open() { NeverStuck(t, r); }
  }
}
