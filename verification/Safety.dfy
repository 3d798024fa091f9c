// Every step that obeys the usage rule keeps the invariant, so every reachable
// state satisfies it.
module Safety {
  import opened Base
  import opened Objects
  import opened Programs
  import opened Middleware
  import opened Invariants
  import opened LocalSteps
  import opened RequestSteps
  import opened FetchSteps
  import opened ScriptSteps
  import opened SettleSteps
  import opened TaskSteps
  import opened EndSteps

  ghost predicate Step(s: Sys, a: Action) { Inv(s) && Enabled(s, a) && Obeys(s, a) }

  lemma RequestStep(s: Sys, a: Action)
    requires Step(s, a)
    requires a.Arrive? || a.TakeEvent? || a.Invoke? || a.EnterWait? || a.EnterException? || a.WaitReturn? ||
      a.SyncReturn? || a.Throw?
    ensures Inv(Apply(s, a))
  {
    match a {
      case Arrive => KeepsArrive(s);
      case TakeEvent(r) => KeepsTakeEvent(s, r);
      case Invoke(r) => KeepsInvoke(s, r);
      case EnterWait(r) => KeepsEnterWait(s, r);
      case EnterException(r) => KeepsEnterException(s, r);
      case WaitReturn(r) => KeepsWaitReturn(s, r);
      case SyncReturn(r) => KeepsSyncReturn(s, r);
      case Throw(r) => KeepsThrow(s, r);
    }
  }

  lemma EventStep(s: Sys, a: Action)
    requires Step(s, a) && (a.RespondWith? || a.WaitUntil? || a.ReadKV? || a.Adopt? || a.DoFetch?)
    ensures Inv(Apply(s, a))
  {
    match a {
      case RespondWith(r) => KeepsRespondWith(s, r);
      case WaitUntil(r, o) => LiveInUse(s, r, o); KeepsWaitUntil(s, r);
      case ReadKV(r, o) => LiveInUse(s, r, o); KeepsReadKV(s, r);
      case Adopt(r, i, o) => KeepsAdopt(s, r, i, o);
      case DoFetch(r, o, body) => KeepsFetchCall(s, r, o, body);
    }
  }

  lemma ReadStep(s: Sys, a: Action)
    requires Step(s, a) && (a.ReadFetch? || a.ReadHeaders? || a.ReadBody? || a.ReadResponseHeaders?)
    ensures Inv(Apply(s, a))
  {
    LiveInUse(s, a.r, a.o);
    match a {
      case ReadFetch(r, o) => KeepsReadFetch(s, r);
      case ReadHeaders(r, o) => KeepsReadHeaders(s, r);
      case ReadBody(r, o) => KeepsReadBody(s, r);
      case ReadResponseHeaders(r, o, i) => KeepsReadResponseHeaders(s, r, i);
    }
  }

  lemma SettleStep(s: Sys, a: Action)
    requires Step(s, a)
    requires a.Settle? || a.SettleResponse? || a.RunCallback?
    ensures Inv(Apply(s, a))
  {
    match a {
      case Settle(r, ok) => KeepsSettle(s, r, ok);
      case SettleResponse(r, outcome, text) => KeepsSettleResponse(s, r, outcome, text);
      case RunCallback(r, i) =>
        if s.reqs[r].fetches[i].callback.ok { KeepsGoodCallback(s, r, i); } else { KeepsFailedCallback(s, r, i); }
    }
  }

  lemma WrapperStep(s: Sys, a: Action)
    requires Step(s, a) && (a.Fulfil? || a.CallResolve? || a.CallReject?)
    ensures Inv(Apply(s, a))
  {
    match a {
      case Fulfil(r, x, ok) => KeepsFulfil(s, r, x, if ok then ResolveDue else RejectDue);
      case CallResolve(r, x) => KeepsConclude(s, r, x);
      case CallReject(r, x) => KeepsConclude(s, r, x);
    }
  }

  lemma TaskStep(s: Sys, a: Action)
    requires Step(s, a) && (a.StartTask? || a.RunTask? || a.EndTask?)
    ensures Inv(Apply(s, a))
  {
    match a {
      case StartTask(r, o, late) => KeepsStartTask(s, r, o, late);
      case RunTask(r, i) => KeepsRunTask(s, r, i);
      case EndTask(r, i) => KeepsEndTask(s, r, i);
    }
  }

  lemma FetchKeepsAll(s: Sys, r: Id, i: nat)
    requires Step(s, FetchStep(r, i))
    ensures Inv(DoFetchStep(s, r, i))
  {
    var pc := s.reqs[r].fetches[i].pc;
    if pc.Releasing? { KeepsLateRelease(s, r, i); }
    else if pc.Start? || pc.Counted? { KeepsFetchRead(s, r, i); }
    else { KeepsFetchCount(s, r, i); }
  }

  lemma FetchKeepsStep(s: Sys, a: Action)
    requires Step(s, a) && (a.FetchStep? || a.FetchRefused? || a.FetchReturn?)
    ensures Inv(Apply(s, a))
  {
    match a {
      case FetchStep(r, i) => FetchKeepsAll(s, r, i);
      case FetchRefused(r, i) => KeepsFetchRefused(s, r, i);
      case FetchReturn(r, i, ok) => KeepsFetchReturn(s, r, i, ok);
    }
  }

  lemma GoroutineStep(s: Sys, a: Action)
    requires Step(s, a) && (a.Run? || a.WaitStep? || a.Cancel?)
    ensures Inv(Apply(s, a))
  {
    match a {
      case Run(r, which) => KeepsRun(s, r, which);
      case WaitStep(r) => KeepsWaitStep(s, r);
      case Cancel(r) => KeepsCancel(s, r);
    }
  }

  lemma ReleaseKeeps(s: Sys, r: Id)
    requires Step(s, ReleaseStep(r))
    ensures Inv(Apply(s, ReleaseStep(r)))
  {
    match s.reqs[r].releaser {
      case OnCancelled => KeepsReleaseCancelled(s, r);
      case OnFetches => KeepsReleaseFetches(s, r);
      case Cleaning => if Stack(s, r) != [] { KeepsCleanup(s, r); } else { KeepsRetire(s, r); }
      case Putting => KeepsPut(s, r);
      case _ =>
    }
  }

  // Every step that obeys the rule, from any state that satisfies the invariant.
  lemma StepKeeps(s: Sys, a: Action)
    requires Inv(s) && Enabled(s, a) && Obeys(s, a)
    ensures Inv(Apply(s, a))
  {
    if a.ReleaseStep? { ReleaseKeeps(s, a.r); }
    else if a.Fulfil? || a.CallResolve? || a.CallReject? { WrapperStep(s, a); }
    else if a.StartTask? || a.RunTask? || a.EndTask? { TaskStep(s, a); }
    else if a.Settle? || a.SettleResponse? || a.RunCallback? { SettleStep(s, a); }
    else if a.FetchStep? || a.FetchRefused? || a.FetchReturn? { FetchKeepsStep(s, a); }
    else if a.Run? || a.WaitStep? || a.Cancel? { GoroutineStep(s, a); }
    else if a.RespondWith? || a.WaitUntil? || a.ReadKV? || a.Adopt? || a.DoFetch? { EventStep(s, a); }
    else if a.ReadFetch? || a.ReadHeaders? || a.ReadBody? || a.ReadResponseHeaders? { ReadStep(s, a); }
    else { RequestStep(s, a); }
  }

  lemma InitInv()
    ensures Inv(Init())
  {
    var s := Init();
    forall k ensures k in s.pools && QueueInv(s, k) && s.Made(k) == 0 {
      match k {
        case KContext => case KEvent => case KFetcher => case KResponse => case KStream => case KHeaders =>
      }
    }
  }

  lemma {:induction false} RunKeeps(s: Sys, actions: seq<Action>)
    requires Inv(s) && Runs(s, actions)
    ensures Inv(After(s, actions))
    decreases |actions|
  {
    if actions != [] {
      StepKeeps(s, actions[0]);
      RunKeeps(Apply(s, actions[0]), actions[1..]);
    }
  }

  lemma ReachableInv(s: Sys)
    requires Reachable(s)
    ensures Inv(s)
  {
    var actions :| Runs(Init(), actions) && After(Init(), actions) == s;
    InitInv();
    RunKeeps(Init(), actions);
  }
}
