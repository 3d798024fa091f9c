// What happens when a script breaks the usage rule, and exactly when: a handler that
// throws after its respondWith was accepted, and a waitUntil that comes too late.
module Misuse {
  import opened Base
  import opened Objects
  import opened Programs
  import opened Potentials
  import opened Middleware
  import opened Invariants
  import opened EventSteps
  import opened LocalSteps
  import opened RequestSteps
  import opened Safety
  import opened Theorems

  // t follows from s by a run that obeys the rule.
  ghost predicate Leads(s: Sys, t: Sys) {
    exists actions :: Runs(s, actions) && After(s, actions) == t
  }

  lemma LeadsSelf(s: Sys)
    ensures Leads(s, s)
  {
    assert Runs(s, []) && After(s, []) == s;
  }

  lemma LeadsOn(s: Sys, t: Sys, a: Action)
    requires Leads(s, t) && Enabled(t, a) && Obeys(t, a)
    ensures Leads(s, Apply(t, a))
  {
    var actions :| Runs(s, actions) && After(s, actions) == t;
    Extend(s, actions, a);
  }

  // A synchronous throw.

  // The request has gone wrong: it has two statuses; or it waits and nobody is left
  // to wake it; or it has returned while its response is still being made.
  predicate GoneWrong(s: Sys, r: Id) {
    r < |s.reqs| &&
    var q := s.reqs[r];
    || Statuses(q.trace) > 1
    || (q.http.Waiting? && s.Evt(q.evt).requestDone == 0 && q.handler.Thrown?
        && q.handlerThread.prog == End && q.exception == End)
    || (q.http.Returned? && (q.respond.Awaiting? || q.responseThread.prog != End))
  }

  ghost predicate CanGoWrong(s: Sys, r: Id) { exists t :: Leads(s, t) && GoneWrong(t, r) }

  lemma NothingGoesWrong(t: Sys, r: Id)
    requires Reachable(t)
    ensures !GoneWrong(t, r)
  {
    if r < |t.reqs| {
      StatusAtMostOnce(t, r);
      ReachableInv(t);
      var q := t.reqs[r];
      assert RequestInv(q) by { assert ReqInv(t, r); }
      if q.http.Waiting? { assert WakesInv(q, t.Evt(q.evt)) by { InPlace(t, r); } }
    }
  }

  // s with request r and its event in given states.
  function With(s: Sys, r: Id, q: Req, e: Evt): Sys
    requires r < |s.reqs| && q.evt < |s.evts|
  {
    s.(reqs := s.reqs[r := q], evts := s.evts[q.evt := e])
  }

  // From s0 a run leads to s with request r in state q and its event in state e.
  ghost predicate At(s0: Sys, s: Sys, r: Id, q: Req, e: Evt) {
    && r < |s.reqs| && q.evt < |s.evts| && !s.crashed && e.http == Some(r)
    && Leads(s0, With(s, r, q, e))
  }

  lemma ExceptionOn(s0: Sys, s: Sys, r: Id, q: Req, e: Evt)
    requires At(s0, s, r, q, e) && q.http.Failing? && Ready(q.exception, e)
    ensures At(s0, s, r, Ran(r, q, e, OfException, q.gone), Effect(q.exception, e))
  {
    LeadsOn(s0, With(s, r, q, e), Run(r, OfException));
    ExceptionRan(s, r, q, e);
  }

  lemma ExceptionRan(s: Sys, r: Id, q: Req, e: Evt)
    requires r < |s.reqs| && q.evt < |s.evts| && e.http == Some(r)
    ensures DoRun(With(s, r, q, e), r, OfException)
         == With(s, r, Ran(r, q, e, OfException, q.gone), Effect(q.exception, e))
  {}

  lemma RequestOn(s0: Sys, s: Sys, r: Id, q: Req, e: Evt, a: Action, q': Req)
    requires At(s0, s, r, q, e) && q'.evt == q.evt
    requires (a == EnterException(r) && q.http.Calling? && q.handler.Thrown? && q' == q.(http := Failing))
          || (a == EnterWait(r) && q.http.Failing? && q.exception == End && q' == q.(http := Waiting))
    ensures At(s0, s, r, q', e)
  {
    var t := With(s, r, q, e);
    LeadsOn(s0, t, a);
    assert Apply(t, a) == With(s, r, q', e);
  }

  lemma ReturnOn(s0: Sys, s: Sys, r: Id, q: Req, e: Evt)
    requires At(s0, s, r, q, e) && q.http.Waiting? && e.requestDone > 0
    ensures At(s0, s, r, q.(http := Returned, waiter := Begin, releaser := OnCancelled),
      e.(requestDone := e.requestDone - 1))
  {
    var t := With(s, r, q, e);
    LeadsOn(s0, t, WaitReturn(r));
    assert DoWaitReturn(t, r)
        == With(s, r, q.(http := Returned, waiter := Begin, releaser := OnCancelled),
            e.(requestDone := e.requestDone - 1));
  }

  // The state just after the throw.
  function Thrown(q: Req): Req { q.(handler := Handler.Thrown, exception := Exception) }

  lemma ThrowFacts(s: Sys, r: Id)
    requires Inv(s) && r < |s.reqs| && s.reqs[r].handler.InCall?
    ensures var q := s.reqs[r];
      && q.evt < |s.evts| && q.http.Calling? && q.exception == End && q.handlerThread.prog == End
      && EventInv(r, q, s.evts[q.evt])
      && Apply(s, Throw(r)) == With(s, r, Thrown(q), s.evts[q.evt])
      && At(Apply(s, Throw(r)), s, r, Thrown(q), s.evts[q.evt])
  {
    LiveInUse(s, r, ByHandler);
    InPlace(s, r);
    assert RequestInv(s.reqs[r]) by { assert ReqInv(s, r); }
    LeadsSelf(Apply(s, Throw(r)));
    assert s.evts[s.reqs[r].evt := s.evts[s.reqs[r].evt]] == s.evts;
  }

  // What Exception writes when the response is not sent.
  function Written(gone: bool): seq<Write> { if gone then [] else [Status(500), Body] }

  // Otherwise Exception answers and wakes.
  lemma ExceptionAnswers(s0: Sys, s: Sys, r: Id, q: Req, e: Evt)
    requires At(s0, s, r, q, e) && q.http.Failing? && q.exception == Exception && !e.responseSent && e.requestDone == 0
    ensures At(s0, s, r, q.(exception := End, spared := q.spared || q.gone, trace := q.trace + Written(q.gone)),
               e.(responseSent := true, requestDone := 1))
  {
    ExceptionOn(s0, s, r, q, e);
    var p := IfGone(Mark(Wake(End)), WriteStatus(500, WriteBody(Mark(Wake(End)))));
    var q1 := q.(exception := p);
    assert q.trace + [] == q.trace;
    assert Ran(r, q, e, OfException, q.gone) == q1;
    ExceptionOn(s0, s, r, q1, e);
    if q.gone {
      var q2 := q.(exception := Mark(Wake(End)), spared := true);
      assert Ran(r, q1, e, OfException, true) == q2;
      MarkAndWake(s0, s, r, q2, e);
    } else {
      var q2 := q.(exception := WriteStatus(500, WriteBody(Mark(Wake(End)))));
      assert Ran(r, q1, e, OfException, false) == q2;
      ExceptionOn(s0, s, r, q2, e);
      var q3 := q.(exception := WriteBody(Mark(Wake(End))), trace := q.trace + [Status(500)]);
      assert Ran(r, q2, e, OfException, false) == q3;
      ExceptionOn(s0, s, r, q3, e);
      var q4 := q.(exception := Mark(Wake(End)), trace := q.trace + [Status(500), Body]);
      assert q.trace + [Status(500)] + [Body] == q.trace + [Status(500), Body];
      assert Ran(r, q3, e, OfException, false) == q4;
      MarkAndWake(s0, s, r, q4, e);
    }
  }

  lemma MarkAndWake(s0: Sys, s: Sys, r: Id, q: Req, e: Evt)
    requires At(s0, s, r, q, e) && q.http.Failing? && q.exception == Mark(Wake(End)) && e.requestDone == 0
    ensures At(s0, s, r, q.(exception := End), e.(responseSent := true, requestDone := 1))
  {
    assert q.trace + [] == q.trace;
    ExceptionOn(s0, s, r, q, e);
    assert Ran(r, q, e, OfException, q.gone) == q.(exception := Wake(End));
    ExceptionOn(s0, s, r, q.(exception := Wake(End)), e.(responseSent := true));
  }

  // The request returns before its response has been made.
  lemma ThrowAnswersEarly(s: Sys, r: Id)
    requires Inv(s) && r < |s.reqs| && s.reqs[r].handler.InCall? && s.reqs[r].respond.Awaiting?
    ensures CanGoWrong(Apply(s, Throw(r)), r)
  {
    ThrowFacts(s, r);
    var s0, q, e := Apply(s, Throw(r)), s.reqs[r], s.evts[s.reqs[r].evt];
    assert e.requestDone == 0 && !e.responseSent by { assert WakesInv(q, e) && MarksInv(q, e); }
    var q1 := Thrown(q).(http := Failing);
    RequestOn(s0, s, r, Thrown(q), e, EnterException(r), q1);
    ExceptionAnswers(s0, s, r, q1, e);
    var q2 := q1.(exception := End, spared := q.spared || q.gone, trace := q.trace + Written(q.gone));
    var e2 := e.(responseSent := true, requestDone := 1);
    RequestOn(s0, s, r, q2, e2, EnterWait(r), q2.(http := Waiting));
    ReturnOn(s0, s, r, q2.(http := Waiting), e2);
    var q3 := q2.(http := Returned, waiter := Begin, releaser := OnCancelled);
    assert GoneWrong(With(s, r, q3, e2.(requestDone := 0)), r);
  }

  // A handler that throws synchronously can make its request go wrong exactly when
  // its respondWith has been accepted.
  lemma ThrowExactly(s: Sys, r: Id)
    requires Reachable(s) && Enabled(s, Throw(r)) && SettledFor(s.reqs[r], ByHandler)
    ensures CanGoWrong(Apply(s, Throw(r)), r) <==> !s.reqs[r].respond.Unused?
  {
    ReachableInv(s);
    if !s.reqs[r].respond.Unused? {
      assert s.reqs[r].respond.Awaiting? by { assert ReqInv(s, r) && RequestInv(s.reqs[r]); }
      ThrowAnswersEarly(s, r);
    } else {
      NeverCrashes(s, Throw(r));
      forall t | Leads(Apply(s, Throw(r)), t) ensures !GoneWrong(t, r) {
        ReachesFurther(Apply(s, Throw(r)), t);
        NothingGoesWrong(t, r);
      }
    }
  }

  lemma ReachesFurther(s: Sys, t: Sys)
    requires Reachable(s) && Leads(s, t)
    ensures Reachable(t)
  {
    var actions :| Runs(s, actions) && After(s, actions) == t;
    RunReaches(s, actions);
  }

  lemma {:induction false} RunReaches(s: Sys, actions: seq<Action>)
    requires Reachable(s) && Runs(s, actions)
    ensures Reachable(After(s, actions))
    decreases |actions|
  {
    if actions != [] {
      NeverCrashes(s, actions[0]);
      RunReaches(Apply(s, actions[0]), actions[1..]);
    }
  }

  // A late waitUntil.

  // The extended context is cancelled under an outstanding waitUntil.
  predicate CancelledUnder(s: Sys, r: Id, k: nat) {
    && r < |s.reqs| && k < |s.reqs[r].extenders| && s.reqs[r].extenders[k]
    && s.Ctx(s.reqs[r].ctx).extended.Cancelled?
  }

  ghost predicate CanCancelUnder(s: Sys, r: Id, k: nat) { exists t :: Leads(s, t) && CancelledUnder(t, r, k) }

  lemma NotCancelledUnder(s: Sys, r: Id, k: nat)
    requires Inv(s)
    ensures !CancelledUnder(s, r, k)
  {
    if r < |s.reqs| && Live(s.reqs[r], ByExtender(k)) {
      LiveInUse(s, r, ByExtender(k));
      InPlace(s, r);
    }
  }

  // From the moment wait looks at the request context, the extender is not waited for.
  lemma LateIsCancelled(s: Sys, r: Id)
    requires Inv(s) && r < |s.reqs| && InUse(s.reqs[r])
    requires s.reqs[r].waiter.OnReqCtx? || s.reqs[r].waiter.ToCancel? || s.reqs[r].waiter.Ended?
    ensures CanCancelUnder(DoWaitUntil(s, r), r, |s.reqs[r].extenders|)
  {
    var q, s0, k := s.reqs[r], DoWaitUntil(s, r), |s.reqs[r].extenders|;
    var x := s.Ctx(q.ctx).ExtendContext();
    LateShape(s, r);
    LeadsSelf(s0);
    if q.waiter.Ended? {
      assert CancelledUnder(s0, r, k);
    } else if q.waiter.ToCancel? {
      CancelsUnder(s0, s0, r, k);
    } else if q.gone {
      LooksAway(s0, s0, r, k);
    } else {
      LeadsOn(s0, s0, Cancel(r));
      LooksAway(s0, s0.(reqs := s0.reqs[r := s0.reqs[r].(gone := true)]), r, k);
    }
  }

  lemma LateShape(s: Sys, r: Id)
    requires Inv(s) && r < |s.reqs| && InUse(s.reqs[r])
    ensures var q, s0, k := s.reqs[r], DoWaitUntil(s, r), |s.reqs[r].extenders|;
      && !s0.crashed && |s0.reqs| == |s.reqs| && s0.reqs[r] == Extended(q) && q.ctx < |s0.ctxs|
      && Live(s0.reqs[r], ByExtender(k)) && s0.Ctx(q.ctx).request == Some(r)
      && s0.Ctx(q.ctx).extended == (if q.waiter.Ended? then Cancelled else Uncancelled)
  {
    var q := s.reqs[r];
    InPlace(s, r);
    var x := s.Ctx(q.ctx).ExtendContext();
    assert DoWaitUntil(s, r)
        == s.(ctxs := s.ctxs[q.ctx := x], reqs := s.reqs[r := Extended(q)]);
  }

  lemma LooksAway(s0: Sys, s: Sys, r: Id, k: nat)
    requires Leads(s0, s) && !s.crashed && r < |s.reqs| && s.reqs[r].waiter.OnReqCtx?
    requires Live(s.reqs[r], ByExtender(k)) && s.reqs[r].gone
    requires s.reqs[r].ctx < |s.ctxs| && s.Ctx(s.reqs[r].ctx).extended.Uncancelled?
    requires s.Ctx(s.reqs[r].ctx).request == Some(r)
    ensures CanCancelUnder(s0, r, k)
  {
    var t := s.(reqs := s.reqs[r := s.reqs[r].(waiter := ToCancel)]);
    LeadsOn(s0, s, WaitStep(r));
    assert DoWaitStep(s, r) == t;
    CancelsUnder(s0, t, r, k);
  }

  lemma CancelsUnder(s0: Sys, s: Sys, r: Id, k: nat)
    requires Leads(s0, s) && !s.crashed && r < |s.reqs| && s.reqs[r].waiter.ToCancel? && Live(s.reqs[r], ByExtender(k))
    requires s.reqs[r].ctx < |s.ctxs| && s.Ctx(s.reqs[r].ctx).extended.Uncancelled?
    ensures CanCancelUnder(s0, r, k)
  {
    LeadsOn(s0, s, WaitStep(r));
    assert CancelledUnder(DoWaitStep(s, r), r, k);
  }

  // Whoever calls waitUntil while the event is in place: the context can be cancelled
  // under it exactly when the wait goroutine has already decided what to wait for and
  // it was not the extenders.
  lemma LateWaitUntilExactly(s: Sys, r: Id)
    requires Reachable(s) && r < |s.reqs| && InUse(s.reqs[r]) && !s.reqs[r].handler.Uncalled?
    ensures CanCancelUnder(DoWaitUntil(s, r), r, |s.reqs[r].extenders|)
       <==> s.reqs[r].waiter.OnReqCtx? || s.reqs[r].waiter.ToCancel? || s.reqs[r].waiter.Ended?
  {
    ReachableInv(s);
    if s.reqs[r].waiter.OnReqCtx? || s.reqs[r].waiter.ToCancel? || s.reqs[r].waiter.Ended? {
      LateIsCancelled(s, r);
    } else {
      var s0 := DoWaitUntil(s, r);
      KeepsWaitUntil(s, r);
      forall t | Leads(s0, t) ensures !CancelledUnder(t, r, |s.reqs[r].extenders|) {
        var actions :| Runs(s0, actions) && After(s0, actions) == t;
        RunKeeps(s0, actions);
        NotCancelledUnder(t, r, |s.reqs[r].extenders|);
      }
    }
  }
}
