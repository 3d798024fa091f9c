// How a run moves the history of a request: what it has written, what has settled and
// what has been concluded; and how all of that is told by the run's actions.
module History {
  import opened Base
  import opened Objects
  import opened Programs
  import opened Middleware
  import opened Invariants
  import opened LocalSteps
  import opened Safety
  import opened Alone

  // What a request that takes a step is found to be.
  predicate Takes(q: Req, a: Action) {
    && |q.wrappers| == |q.extenders|
    && match a
       case Arrive => false
       case TakeEvent(_) => q.http.GotContext?
       case Invoke(_) => q.http.Prepared? && q.handler.Uncalled?
       case EnterWait(_) => !q.http.Returned?
       case EnterException(_) => q.http.Calling?
       case WaitReturn(_) => q.http.Waiting? && q.releaser.NoRelease?
       case SyncReturn(_) => q.handler.InCall?
       case Throw(_) => q.handler.InCall?
       case Settle(_, _) => q.handler.Pending?
       case SettleResponse(_, _, _) => q.respond.Awaiting?
       case Fulfil(_, k, _) => k < |q.wrappers| && q.wrappers[k].AwaitingPromise?
       case CallResolve(_, k) => k < |q.wrappers| && q.wrappers[k].ResolveDue?
       case CallReject(_, k) => k < |q.wrappers| && q.wrappers[k].RejectDue?
       case EndTask(_, i) => i < |q.tasks| && q.tasks[i].pc.Queued?
       case RunTask(_, i) => i < |q.tasks| && q.tasks[i].pc.InFlight?
       case RunCallback(_, i) => i < |q.fetches| && q.fetches[i].callback.Scheduled?
       case Run(_, which) => ThreadOf(q, which) != End && !q.http.Returned?
       case Adopt(_, i, _) => i < |q.fetches|
       case FetchStep(_, i) => i < |q.fetches| && !q.fetches[i].pc.Running? && !q.fetches[i].pc.Gone?
       case FetchRefused(_, i) => i < |q.fetches| && q.fetches[i].callback.Unscheduled?
       case FetchReturn(_, i, _) => i < |q.fetches| && q.fetches[i].callback.Unscheduled?
       case ReleaseStep(_) => q.Open()
       case _ => true
  }

  lemma StepTakes(s: Sys, a: Action)
    requires Step(s, a) && !a.Arrive?
    ensures Takes(s.reqs[a.r], a)
  {
    var q := s.reqs[a.r];
    assert RequestInv(q) by { assert ReqInv(s, a.r); }
    TakesIt(s, a);
  }

  lemma TakesIt(s: Sys, a: Action)
    requires Enabled(s, a) && !a.Arrive? && RequestInv(s.reqs[a.r])
    ensures Takes(s.reqs[a.r], a)
  {
    var q := s.reqs[a.r];
    if a.FetchRefused? || a.FetchReturn? { assert FetchInv(q, q.fetches[a.i]); }
  }

  // A fetch's promise settles once, as it was scheduled.
  predicate CallbackOn(c: Callback, c': Callback) { c' == c || c.Unscheduled? || (c.Scheduled? && c' == Settled(c.ok)) }

  predicate WrapperOn(w: Wrapper, w': Wrapper) { w' == w || w.AwaitingPromise? || w'.WrapperDone? }

  // How a step, or a run, moves one request's history: writes are only added, and only
  // before the request returns; a promise settles once, and a waitUntil concludes once.
  ghost predicate Advances(q: Req, q': Req) {
    && q.trace <= q'.trace && (q.http.Returned? ==> q'.http.Returned? && q'.trace == q.trace)
    && q'.ctx == q.ctx && (q.gone ==> q'.gone) && (q.spared ==> q'.spared) && (q.kvRead ==> q'.kvRead)
    && (q.handler.Finished? || q.handler.Thrown? ==> q'.handler == q.handler)
    && (!q.respond.Unused? ==> !q'.respond.Unused?) && (q.respond.Fired? ==> q'.respond == q.respond)
    && (!q.Open() ==> !q'.Open())
    && |q.extenders| <= |q'.extenders| && |q.wrappers| <= |q'.wrappers|
    && (forall k :: 0 <= k < |q.extenders| && !q.extenders[k] ==> !q'.extenders[k])
    && (forall k :: 0 <= k < |q.wrappers| ==> WrapperOn(q.wrappers[k], q'.wrappers[k]))
    && |q.fetches| <= |q'.fetches| && |q.tasks| <= |q'.tasks|
    && (forall i :: 0 <= i < |q.fetches| ==> CallbackOn(q.fetches[i].callback, q'.fetches[i].callback))
    && (forall i :: 0 <= i < |q.tasks| && q.tasks[i].pc.TaskDone? ==> q'.tasks[i].pc.TaskDone?)
  }

  ghost predicate AllAdvance(s: Sys, s': Sys) {
    |s.reqs| <= |s'.reqs| && forall i :: 0 <= i < |s.reqs| ==> Advances(s.reqs[i], s'.reqs[i])
  }

  lemma RunAdvances(q: Req, which: Which)
    requires !q.http.Returned?
    ensures Advances(q, OwnRun(q, which))
  {}

  lemma FetchAdvances(q: Req, a: Action)
    requires Takes(q, a) && (a.FetchStep? || a.FetchRefused? || a.FetchReturn? || a.RunCallback? || a.Adopt?)
    ensures Advances(q, Own(q, a, NoNames))
  {
    var q', i := Own(q, a, NoNames), a.i;
    assert q' == q.(fetches := q.fetches[i := q'.fetches[i]]);
    assert CallbackOn(q.fetches[i].callback, q'.fetches[i].callback);
  }

  lemma OwnAdvances(q: Req, a: Action, n: Names)
    requires Takes(q, a)
    ensures Advances(q, Own(q, a, n))
  {
    if a.Run? { RunAdvances(q, a.which); }
    else if a.FetchStep? || a.FetchRefused? || a.FetchReturn? || a.RunCallback? || a.Adopt? { FetchAdvances(q, a); }
    else if a.WaitUntil? || a.Fulfil? || a.CallResolve? || a.CallReject? { ExtenderAdvances(q, a); }
    else if a.DoFetch? || a.StartTask? || a.EndTask? || a.RunTask? { ListAdvances(q, a, n); }
    else { PlainAdvances(q, a, n); }
  }

  lemma ExtenderAdvances(q: Req, a: Action)
    requires Takes(q, a) && (a.WaitUntil? || a.Fulfil? || a.CallResolve? || a.CallReject?)
    ensures Advances(q, Own(q, a, NoNames))
  {
    match a {
      case WaitUntil(_, _) =>
      case Fulfil(_, k, ok) => WrapperAdvances(q, k, if ok then ResolveDue else RejectDue);
      case CallResolve(_, k) => CallAdvances(q, k);
      case CallReject(_, k) => CallAdvances(q, k);
    }
  }

  lemma WrapperAdvances(q: Req, k: nat, w: Wrapper)
    requires k < |q.wrappers| && q.wrappers[k].AwaitingPromise?
    ensures Advances(q, WithWrapper(q, k, w))
  {}

  lemma CallAdvances(q: Req, k: nat)
    requires k < |q.wrappers| == |q.extenders|
    ensures Advances(q, OwnCall(q, k))
  {}

  lemma ListAdvances(q: Req, a: Action, n: Names)
    requires Takes(q, a) && (a.DoFetch? || a.StartTask? || a.EndTask? || a.RunTask?)
    ensures Advances(q, Own(q, a, n))
  {
    match a {
      case DoFetch(_, _, _) =>
      case StartTask(_, _, _) =>
      case EndTask(_, i) => TaskAdvances(q, i, TaskDone);
      case RunTask(_, i) => TaskAdvances(q, i, Queued(if q.tasks[i].late.UseKV? then Some(q.ctx) else None));
    }
  }

  lemma TaskAdvances(q: Req, i: nat, pc: TaskPc)
    requires i < |q.tasks| && (q.tasks[i].pc.TaskDone? ==> pc.TaskDone?)
    ensures Advances(q, WithTask(q, i, pc))
  {}

  lemma PlainAdvances(q: Req, a: Action, n: Names)
    requires Takes(q, a) && !a.Run? && !a.Adopt?
    requires !a.FetchStep? && !a.FetchRefused? && !a.FetchReturn? && !a.RunCallback?
    requires !a.WaitUntil? && !a.Fulfil? && !a.CallResolve? && !a.CallReject?
    requires !a.DoFetch? && !a.StartTask? && !a.EndTask? && !a.RunTask?
    ensures Advances(q, Own(q, a, n))
  {
    if a.WaitStep? || a.ReleaseStep? { EndAdvances(q, a, n); }
    else if a.Settle? || a.SettleResponse? || a.Throw? || a.RespondWith? || a.SyncReturn? { HandlerAdvances(q, a); }
  }

  lemma EndAdvances(q: Req, a: Action, n: Names)
    requires Takes(q, a) && (a.WaitStep? || a.ReleaseStep?)
    ensures Advances(q, Own(q, a, n))
  {
    if a.WaitStep? { WaitAdvances(q); } else { ReleaseAdvances(q, n.emptied); }
  }

  lemma WaitAdvances(q: Req)
    ensures Advances(q, OwnWait(q))
  {}

  lemma ReleaseAdvances(q: Req, emptied: bool)
    requires q.Open()
    ensures Advances(q, OwnRelease(q, emptied))
  {}

  lemma HandlerAdvances(q: Req, a: Action)
    requires Takes(q, a) && (a.Settle? || a.SettleResponse? || a.Throw? || a.RespondWith? || a.SyncReturn?)
    ensures Advances(q, Own(q, a, NoNames))
  {}

  lemma StepAdvances(s: Sys, a: Action)
    requires Step(s, a)
    ensures AllAdvance(s, Apply(s, a))
  {
    if a.Arrive? {
      ArriveAdvances(s);
    } else {
      OtherwiseAdvances(s, a);
    }
  }

  lemma OtherwiseAdvances(s: Sys, a: Action)
    requires Step(s, a) && !a.Arrive?
    ensures AllAdvance(s, Apply(s, a))
  {
    var n := StepOwn(s, a);
    StepTakes(s, a);
    BecomesAdvances(s, Apply(s, a), a, n);
  }

  lemma BecomesAdvances(s: Sys, s': Sys, a: Action, n: Names)
    requires !a.Arrive? && a.r < |s.reqs| && Becomes(s, s', a.r, Own(s.reqs[a.r], a, n)) && Takes(s.reqs[a.r], a)
    ensures AllAdvance(s, s')
  {
    OwnAdvances(s.reqs[a.r], a, n);
    OneAdvances(s, s', a.r);
  }

  lemma ArriveAdds(s: Sys)
    ensures DoArrive(s).reqs == s.reqs + [NewReq(s.Pick(KContext))]
  {}

  lemma ArriveAdvances(s: Sys)
    ensures AllAdvance(s, DoArrive(s))
  {
    forall i | 0 <= i < |s.reqs| ensures Advances(s.reqs[i], DoArrive(s).reqs[i]) {}
  }

  lemma OneAdvances(s: Sys, s': Sys, r: Id)
    requires r < |s.reqs| && |s'.reqs| == |s.reqs| && s'.reqs == s.reqs[r := s'.reqs[r]]
    requires Advances(s.reqs[r], s'.reqs[r])
    ensures AllAdvance(s, s')
  {
    forall i | 0 <= i < |s.reqs| ensures Advances(s.reqs[i], s'.reqs[i]) {}
  }

  lemma AdvancesTrans(p: Req, q: Req, t: Req)
    requires Advances(p, q) && Advances(q, t)
    ensures Advances(p, t)
  {
    forall i | 0 <= i < |p.fetches| ensures CallbackOn(p.fetches[i].callback, t.fetches[i].callback) {
      assert CallbackOn(p.fetches[i].callback, q.fetches[i].callback);
    }
    forall k | 0 <= k < |p.wrappers| ensures WrapperOn(p.wrappers[k], t.wrappers[k]) {
      assert WrapperOn(p.wrappers[k], q.wrappers[k]);
    }
  }

  // Along every run: what has been written stays, nothing is written after the
  // request has returned, what has settled stays settled as it did, and no waitUntil
  // that has concluded is ever outstanding again.
  lemma {:induction false} RunAdvancesAll(s: Sys, actions: seq<Action>)
    requires Inv(s) && Runs(s, actions)
    ensures AllAdvance(s, After(s, actions))
    decreases |actions|
  {
    if actions != [] {
      var t := Apply(s, actions[0]);
      StepAdvances(s, actions[0]);
      StepKeeps(s, actions[0]);
      RunAdvancesAll(t, actions[1..]);
      forall i | 0 <= i < |s.reqs| ensures Advances(s.reqs[i], After(s, actions).reqs[i]) {
        AdvancesTrans(s.reqs[i], t.reqs[i], After(s, actions).reqs[i]);
      }
    }
  }

  // Only the callbacks made for it end a waitUntil.

  // The callback of the k-th waitUntil of request r is called.
  predicate IsCall(a: Action, r: Id, k: nat) { a == CallResolve(r, k) || a == CallReject(r, k) }

  predicate HasCalled(q: Req, k: nat) { k < |q.wrappers| && q.wrappers[k].WrapperDone? }

  // A call is made for it once.
  predicate Moved(q: Req, q': Req, a: Action, r: Id, k: nat) {
    && k < |q'.wrappers| && (IsCall(a, r, k) ==> !HasCalled(q, k))
    && HasCalled(q', k) == (HasCalled(q, k) || IsCall(a, r, k))
  }

  lemma OwnCalls(q: Req, a: Action, n: Names, k: nat)
    requires Takes(q, a) && k < |q.wrappers|
    ensures Moved(q, Own(q, a, n), a, a.r, k)
  {
    if !a.WaitUntil? && !a.Fulfil? && !a.CallResolve? && !a.CallReject? { OwnKeepsWrappers(q, a, n); }
  }

  lemma OwnKeepsWrappers(q: Req, a: Action, n: Names)
    requires !a.WaitUntil? && !a.Fulfil? && !a.CallResolve? && !a.CallReject?
    ensures Own(q, a, n).wrappers == q.wrappers
  {}

  lemma WrapperMoves(s: Sys, a: Action, r: Id, k: nat)
    requires Step(s, a) && r < |s.reqs| && k < |s.reqs[r].wrappers|
    ensures r < |Apply(s, a).reqs| && Moved(s.reqs[r], Apply(s, a).reqs[r], a, r, k)
  {
    if a.Arrive? { ArriveAdds(s); } else { CallMoves(s, a, r, k); }
  }

  lemma CallMoves(s: Sys, a: Action, r: Id, k: nat)
    requires Step(s, a) && !a.Arrive? && r < |s.reqs| && k < |s.reqs[r].wrappers|
    ensures r < |Apply(s, a).reqs| && Moved(s.reqs[r], Apply(s, a).reqs[r], a, r, k)
  {
    var n := StepOwn(s, a);
    StepTakes(s, a);
    BecomesMoved(s, Apply(s, a), a, n, r, k);
  }

  lemma BecomesMoved(s: Sys, s': Sys, a: Action, n: Names, r: Id, k: nat)
    requires !a.Arrive? && a.r < |s.reqs| && Becomes(s, s', a.r, Own(s.reqs[a.r], a, n)) && Takes(s.reqs[a.r], a)
    requires r < |s.reqs| && k < |s.reqs[r].wrappers|
    ensures Moved(s.reqs[r], s'.reqs[r], a, r, k)
  {
    if a.r == r { OwnCalls(s.reqs[r], a, n, k); }
  }

  // How often the conclude callback is called for it in a run.
  function Calls(actions: seq<Action>, r: Id, k: nat): nat {
    if actions == [] then 0 else (if IsCall(actions[0], r, k) then 1 else 0) + Calls(actions[1..], r, k)
  }

  // Along every run: the conclude callback given to the wrapper as both its resolve
  // and its reject callback is called at most once for an accepted waitUntil, and
  // exactly once when the wrapper has finished.
  lemma {:induction false} ConcludesExactlyOnce(s: Sys, actions: seq<Action>, r: Id, k: nat)
    requires Inv(s) && Runs(s, actions) && r < |s.reqs| && k < |s.reqs[r].wrappers|
    ensures r < |After(s, actions).reqs| && k < |After(s, actions).reqs[r].wrappers|
    ensures Calls(actions, r, k)
         == (if HasCalled(After(s, actions).reqs[r], k) && !HasCalled(s.reqs[r], k) then 1 else 0)
    ensures HasCalled(s.reqs[r], k) ==> HasCalled(After(s, actions).reqs[r], k)
    decreases |actions|
  {
    if actions != [] {
      WrapperMoves(s, actions[0], r, k);
      StepKeeps(s, actions[0]);
      ConcludesExactlyOnce(Apply(s, actions[0]), actions[1..], r, k);
    }
  }

  // What the actions of a run leave for good.

  predicate Delivered(q: Req, i: nat, ok: bool) {
    i < |q.fetches| && (q.fetches[i].callback == Scheduled(ok) || q.fetches[i].callback == Settled(ok))
  }

  predicate Lasting(a: Action, q: Req) {
    match a
    case Settle(_, ok) => q.handler == Finished(ok)
    case Throw(_) => q.handler.Thrown?
    case RespondWith(_) => !q.respond.Unused?
    case SettleResponse(_, o, _) => q.respond == Fired(o)
    case WaitReturn(_) => q.http.Returned?
    case Cancel(_) => q.gone
    case FetchReturn(_, i, ok) => Delivered(q, i, ok)
    case FetchRefused(_, i) => Delivered(q, i, false)
    case RunCallback(_, i) => i < |q.fetches| && q.fetches[i].callback.Settled?
    case Fulfil(_, k, ok) =>
      k < |q.wrappers| && (q.wrappers[k] == (if ok then ResolveDue else RejectDue) || q.wrappers[k].WrapperDone?)
    case EndTask(_, i) => i < |q.tasks| && q.tasks[i].pc.TaskDone?
    case ReadKV(_, _) => q.kvRead
    case _ => true
  }

  lemma OwnLasts(q: Req, a: Action, n: Names)
    requires Takes(q, a)
    ensures Lasting(a, Own(q, a, n))
  {}

  lemma LastingAdvances(a: Action, q: Req, q': Req)
    requires Lasting(a, q) && Advances(q, q')
    ensures Lasting(a, q')
  {
    if a.FetchReturn? || a.FetchRefused? || a.RunCallback? {
      assert CallbackOn(q.fetches[a.i].callback, q'.fetches[a.i].callback);
    }
    if a.Fulfil? { assert WrapperOn(q.wrappers[a.x], q'.wrappers[a.x]); }
  }

  // If a run contains the return of a fetch, the settling of a promise, and so on, then
  // ever after the request shows it: with what was delivered, and no other way.
  lemma {:induction false} WhatWasDoneLasts(s: Sys, actions: seq<Action>, a: Action)
    requires Inv(s) && Runs(s, actions) && a in actions && !a.Arrive?
    ensures a.r < |After(s, actions).reqs| && Lasting(a, After(s, actions).reqs[a.r])
    decreases |actions|
  {
    var b, t := actions[0], Apply(s, actions[0]);
    StepKeeps(s, b);
    if a in actions[1..] {
      WhatWasDoneLasts(t, actions[1..], a);
    } else {
      assert a == b;
      StepLasts(s, a);
      RunAdvancesAll(t, actions[1..]);
      LastingAdvances(a, t.reqs[a.r], After(t, actions[1..]).reqs[a.r]);
    }
  }

  lemma StepLasts(s: Sys, a: Action)
    requires Step(s, a) && !a.Arrive?
    ensures a.r < |Apply(s, a).reqs| && Lasting(a, Apply(s, a).reqs[a.r])
  {
    var n := StepOwn(s, a);
    StepTakes(s, a);
    OwnLasts(s.reqs[a.r], a, n);
  }

  // And conversely: what it shows was done.

  datatype Mark =
    | Resolved(ok: bool)
    | HasThrown
    | Responding
    | Responded(o: Outcome)
    | HasLeft
    | Fetched(i: nat)
    | Rejecting(k: nat)

  predicate Shows(q: Req, m: Mark) {
    match m
    case Resolved(ok) => q.handler == Finished(ok)
    case HasThrown => q.handler.Thrown?
    case Responding => !q.respond.Unused?
    case Responded(o) => q.respond == Fired(o)
    case HasLeft => q.gone
    case Fetched(i) => Delivered(q, i, true)
    case Rejecting(k) => k < |q.wrappers| && q.wrappers[k].RejectDue?
  }

  // The action that leaves a mark on request r.
  predicate Leaves(a: Action, r: Id, m: Mark) {
    match m
    case Resolved(ok) => a == Settle(r, ok)
    case HasThrown => a == Throw(r)
    case Responding => a == RespondWith(r)
    case Responded(o) => a.SettleResponse? && a.r == r && a.outcome == o
    case HasLeft => a == Cancel(r)
    case Fetched(i) => a == FetchReturn(r, i, true)
    case Rejecting(k) => a == Fulfil(r, k, false)
  }

  lemma OwnShows(q: Req, a: Action, n: Names, m: Mark)
    requires Takes(q, a) && Shows(Own(q, a, n), m) && !Shows(q, m)
    ensures Leaves(a, a.r, m)
  {
    match m {
      case Fetched(i) => OwnFetched(q, a, n, i);
      case Rejecting(k) => OwnRejecting(q, a, n, k);
      case _ => OwnFields(q, a, n, m);
    }
  }

  lemma OwnFetched(q: Req, a: Action, n: Names, i: nat)
    requires Takes(q, a) && Delivered(Own(q, a, n), i, true) && !Delivered(q, i, true)
    ensures a.FetchReturn? && a.i == i && a.ok
  {}

  lemma OwnRejecting(q: Req, a: Action, n: Names, k: nat)
    requires Takes(q, a) && Shows(Own(q, a, n), Rejecting(k)) && !Shows(q, Rejecting(k))
    ensures a.Fulfil? && a.x == k && !a.ok
  {}

  lemma OwnFields(q: Req, a: Action, n: Names, m: Mark)
    requires Takes(q, a) && Shows(Own(q, a, n), m) && !Shows(q, m) && !m.Fetched? && !m.Rejecting?
    ensures Leaves(a, a.r, m)
  {
    if m.Resolved? || m.HasThrown? { OwnHandler(q, a, n, m); } else { OwnKeepsFields(q, a, n); }
  }

  lemma OwnHandler(q: Req, a: Action, n: Names, m: Mark)
    requires Shows(Own(q, a, n), m) && !Shows(q, m) && !a.Arrive? && (m.Resolved? || m.HasThrown?)
    ensures Leaves(a, a.r, m)
  {
    if !a.Settle? && !a.Throw? { OwnKeepsOutcome(q, a, n); }
  }

  lemma OwnKeepsOutcome(q: Req, a: Action, n: Names)
    requires !a.Settle? && !a.Throw?
    ensures var h, h' := q.handler, Own(q, a, n).handler; h' == h || h'.InCall? || h'.Pending?
  {}

  lemma OwnKeepsFields(q: Req, a: Action, n: Names)
    ensures !a.RespondWith? && !a.SettleResponse? ==> Own(q, a, n).respond == q.respond
    ensures !a.Cancel? ==> Own(q, a, n).gone == q.gone
  {}

  lemma StepShows(s: Sys, a: Action, r: Id, m: Mark)
    requires Step(s, a) && r < |Apply(s, a).reqs| && Shows(Apply(s, a).reqs[r], m)
    ensures Leaves(a, r, m) || (r < |s.reqs| && Shows(s.reqs[r], m))
  {
    if a.Arrive? {
      ArriveAdds(s);
    } else {
      var n := StepOwn(s, a);
      StepTakes(s, a);
      if a.r == r && !Shows(s.reqs[r], m) { OwnShows(s.reqs[r], a, n, m); }
    }
  }

  lemma {:induction false} WhatShowsWasDone(s: Sys, actions: seq<Action>, r: Id, m: Mark)
    requires Inv(s) && Runs(s, actions) && r < |After(s, actions).reqs| && Shows(After(s, actions).reqs[r], m)
    ensures (r < |s.reqs| && Shows(s.reqs[r], m)) || exists a :: a in actions && Leaves(a, r, m)
    decreases |actions|
  {
    if actions != [] {
      var t := Apply(s, actions[0]);
      StepKeeps(s, actions[0]);
      WhatShowsWasDone(t, actions[1..], r, m);
      if r < |t.reqs| && Shows(t.reqs[r], m) {
        StepShows(s, actions[0], r, m);
        assert actions[0] in actions;
      } else {
        var a :| a in actions[1..] && Leaves(a, r, m);
        assert a in actions;
      }
    }
  }

  // From the start: the settling of the handler, its throw, its respondWith and how that
  // settled, the client's leaving and the fetches that came back with a response can be
  // read off the request exactly as the run had them.
  lemma ToldByTheRun(actions: seq<Action>, r: Id, m: Mark)
    requires Runs(Init(), actions) && r < |After(Init(), actions).reqs| && !m.Rejecting?
    ensures Shows(After(Init(), actions).reqs[r], m) <==> exists a :: a in actions && Leaves(a, r, m)
  {
    InitInv();
    if Shows(After(Init(), actions).reqs[r], m) {
      WhatShowsWasDone(Init(), actions, r, m);
    } else if a :| a in actions && Leaves(a, r, m) {
      WhatWasDoneLasts(Init(), actions, a);
    }
  }
}
