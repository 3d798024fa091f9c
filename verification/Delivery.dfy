// What can still happen: a handler may use all that the rule allows it, and a fetch that
// has been called can come back with its response, whatever else is under way.
module Delivery {
  import opened Base
  import opened Objects
  import opened Programs
  import opened Middleware
  import opened Invariants
  import opened LocalSteps
  import opened FetchSteps
  import opened SettleSteps
  import opened ScriptSteps
  import opened TaskSteps
  import opened EndSteps
  import opened Safety
  import opened Alone
  import opened History
  import opened Completion
  import opened Effects

  // What an active owner may do at once: everything but call fetch before it has read it,
  // and start a read of what it has not got.
  predicate Offered(s: Sys, r: Id, o: Owner, a: Action)
    requires r < |s.reqs|
  {
    match a
    case WaitUntil(_, _) => a == WaitUntil(r, o)
    case ReadFetch(_, _) => a == ReadFetch(r, o)
    case ReadHeaders(_, _) => a == ReadHeaders(r, o)
    case ReadBody(_, _) => a == ReadBody(r, o)
    case ReadKV(_, _) => a == ReadKV(r, o)
    case DoFetch(_, _, body) => a == DoFetch(r, o, body) && s.Evt(s.reqs[r].evt).fetcher.Some?
    case StartTask(_, _, late) =>
      a == StartTask(r, o, late) && (
        match late
        case UseKV => s.reqs[r].kvRead
        case ReadInto(t) =>
          || s.Evt(s.reqs[r].evt).body == Some(t)
          || exists i :: 0 <= i < |s.reqs[r].fetches| && s.reqs[r].fetches[i].callback == Settled(true)
                         && s.Response(s.reqs[r].fetches[i].response).body == Some(t))
    case Adopt(_, i, _) => a == Adopt(r, i, o) && i < |s.reqs[r].fetches|
    case ReadResponseHeaders(_, _, i) =>
      a == ReadResponseHeaders(r, o, i) && i < |s.reqs[r].fetches| && s.reqs[r].fetches[i].callback == Settled(true)
    case _ => false
  }

  lemma ScriptIsFree(s: Sys, r: Id, o: Owner, a: Action)
    requires Reachable(s) && r < |s.reqs| && Offered(s, r, o, a)
    requires match o
      case ByHandler => s.reqs[r].handler.InCall? || s.reqs[r].handler.Pending?
      case ByResponse => s.reqs[r].respond.Awaiting?
      case ByExtender(k) => k < |s.reqs[r].wrappers| && s.reqs[r].wrappers[k].AwaitingPromise?
    ensures Enabled(s, a) && Obeys(s, a)
  {
    assert Active(s.reqs[r], o) && !s.crashed && !s.reqs[r].handler.Uncalled?
        && (s.reqs[r].kvRead ==> CanStart(s, r, UseKV)) by {
      ReachableInv(s);
      assert WrappersInv(s.reqs[r]) by { assert ReqInv(s, r) && RequestInv(s.reqs[r]); }
      ActiveFacts(s, r, o);
    }
  }

  lemma ActiveFacts(s: Sys, r: Id, o: Owner)
    requires Inv(s) && r < |s.reqs| && Active(s.reqs[r], o)
    ensures !s.crashed && !s.reqs[r].handler.Uncalled? && (s.reqs[r].kvRead ==> CanStart(s, r, UseKV))
  {
    LiveInUse(s, r, o);
    InPlace(s, r);
  }

  // Nor of the handler and its promises.
  lemma HandlerIsFree(s: Sys, r: Id, ok: bool)
    requires Reachable(s) && r < |s.reqs|
    ensures var q := s.reqs[r];
      && (q.handler.InCall? ==> Enabled(s, SyncReturn(r)) && Obeys(s, SyncReturn(r)))
      && (q.handler.InCall? && SettledFor(q, ByHandler) && q.respond.Unused? ==>
            Enabled(s, Throw(r)) && Obeys(s, Throw(r)))
      && (q.handler.InCall? || q.handler.Pending? ==> Enabled(s, RespondWith(r)) && Obeys(s, RespondWith(r)))
      && (q.handler.Pending? && SettledFor(q, ByHandler) ==> Enabled(s, Settle(r, ok)) && Obeys(s, Settle(r, ok)))
  {
    assert !s.crashed by { ReachableInv(s); }
    HandlerGuards(s, r, ok);
  }

  // The response's promise settles in any of its ways, once the handler's call is back.
  lemma ResponseIsFree(s: Sys, r: Id, outcome: Outcome, text: bool)
    requires Reachable(s) && r < |s.reqs| && s.reqs[r].respond.Awaiting? && !s.reqs[r].handler.InCall?
    requires SettledFor(s.reqs[r], ByResponse) && (text ==> outcome.Copied?)
    ensures Enabled(s, SettleResponse(r, outcome, text)) && Obeys(s, SettleResponse(r, outcome, text))
  {
    assert !s.crashed by { ReachableInv(s); }
  }

  lemma HandlerGuards(s: Sys, r: Id, ok: bool)
    requires !s.crashed && r < |s.reqs|
    ensures var q := s.reqs[r];
      && (q.handler.InCall? ==> Enabled(s, SyncReturn(r)) && Enabled(s, Throw(r)))
      && (q.handler.InCall? || q.handler.Pending? ==> Enabled(s, RespondWith(r)))
      && (q.handler.Pending? ==> Enabled(s, Settle(r, ok)))
  {}

  // A promise given to waitUntil settles either way, a request in flight comes back
  // either way, and the client can leave.
  lemma OthersAreFree(s: Sys, r: Id, k: nat, ok: bool)
    requires Reachable(s) && r < |s.reqs|
    ensures var q := s.reqs[r];
      && (k < |q.wrappers| && q.wrappers[k].AwaitingPromise? && SettledFor(q, ByExtender(k)) ==>
            Enabled(s, Fulfil(r, k, ok)) && Obeys(s, Fulfil(r, k, ok)))
      && (k < |q.fetches| && q.fetches[k].pc.Running? ==>
            Enabled(s, FetchReturn(r, k, ok)) && Obeys(s, FetchReturn(r, k, ok)))
      && (!q.gone ==> Enabled(s, Cancel(r)) && Obeys(s, Cancel(r)))
  {
    assert !s.crashed by { ReachableInv(s); }
  }

  // Whoever awaits a fetch or a late read does not settle before it.
  lemma AwaitedFirst(s: Sys, a: Action)
    requires Reachable(s) && Enabled(s, a) && Obeys(s, a)
    requires a.DoFetch? || a.StartTask? || (a.Adopt? && !s.reqs[a.r].fetches[a.i].callback.Settled?)
    ensures a.r < |Apply(s, a).reqs| && !SettledFor(Apply(s, a).reqs[a.r], a.o)
  {
    ReachableInv(s);
    var n := StepOwn(s, a);
    OwnAwaits(s.reqs[a.r], a, n);
  }

  lemma OwnAwaits(q: Req, a: Action, n: Names)
    requires a.DoFetch? || a.StartTask? || (a.Adopt? && a.i < |q.fetches| && !q.fetches[a.i].callback.Settled?)
    ensures !SettledFor(Own(q, a, n), a.o)
  {
    var q' := Own(q, a, n);
    match a {
      case DoFetch(_, o, _) => assert q'.fetches[|q.fetches|].owner == o && !q'.fetches[|q.fetches|].callback.Settled?;
      case StartTask(_, o, _) => assert q'.tasks[|q.tasks|].owner == o && !q'.tasks[|q.tasks|].pc.TaskDone?;
      case Adopt(_, i, o) => assert q'.fetches[i].owner == o && !q'.fetches[i].callback.Settled?;
    }
  }

  lemma OneMore(s: Sys, a: Action, rest: seq<Action>)
    requires Enabled(s, a) && Obeys(s, a) && Runs(Apply(s, a), rest)
    ensures Runs(s, [a] + rest) && After(s, [a] + rest) == After(Apply(s, a), rest)
  {
    assert ([a] + rest)[0] == a && ([a] + rest)[1..] == rest;
  }

  // A fetch that is neither refused nor back yet.
  predicate UnderWay(s: Sys, r: Id, i: nat) {
    r < |s.reqs| && i < |s.reqs[r].fetches| && s.reqs[r].fetches[i].callback.Unscheduled?
  }

  lemma ReturnThenCallback(s: Sys, r: Id, i: nat) returns (actions: seq<Action>)
    requires Inv(s) && UnderWay(s, r, i) && s.reqs[r].fetches[i].pc.Running?
    ensures Runs(s, actions) && Fulfilled(After(s, actions), r, i)
  {
    var t := Apply(s, FetchReturn(r, i, true));
    StepKeeps(s, FetchReturn(r, i, true));
    StepLasts(s, FetchReturn(r, i, true));
    ReturnSchedules(s, r, i);
    CallbackRuns(t, r, i);
    OneMore(s, FetchReturn(r, i, true), [RunCallback(r, i)]);
    actions := [FetchReturn(r, i, true)] + [RunCallback(r, i)];
  }

  lemma ReturnSchedules(s: Sys, r: Id, i: nat)
    requires Step(s, FetchReturn(r, i, true))
    ensures var t := Apply(s, FetchReturn(r, i, true));
      r < |t.reqs| && i < |t.reqs[r].fetches| && t.reqs[r].fetches[i].callback == Scheduled(true)
  {
    OwnFetchReturn(s, r, i, true);
  }

  lemma CallbackRuns(s: Sys, r: Id, i: nat)
    requires Inv(s) && r < |s.reqs| && i < |s.reqs[r].fetches| && s.reqs[r].fetches[i].callback == Scheduled(true)
    ensures Runs(s, [RunCallback(r, i)]) && Fulfilled(After(s, [RunCallback(r, i)]), r, i)
  {
    CallbackFulfils(s, r, i);
    assert [RunCallback(r, i)][1..] == [];
    assert Runs(Apply(s, RunCallback(r, i)), []);
  }

  // The next step towards it: its own, or, when every permit is out, a permit holder's.
  lemma NextTowards(s: Sys, r: Id, i: nat) returns (a: Action)
    requires Inv(s) && UnderWay(s, r, i) && !s.reqs[r].fetches[i].pc.Running?
    ensures Helps(s, r, a) && (a.FetchStep? || (a.FetchReturn? && (a.r != r || a.i != i)))
  {
    var g := s.reqs[r].fetches[i];
    assert FetchInv(s.reqs[r], g) && s.reqs[r].ctx < |s.ctxs| by { assert ReqInv(s, r) && RequestInv(s.reqs[r]); }
    if g.pc.Acquiring? && s.Ctx(g.pc.ctx).held >= CONCURRENCY {
      a := HolderHelps(s, r, g.pc.ctx);
    } else {
      a := FetchStep(r, i);
      StepLess(s, r, r, i);
    }
  }

  // Neither ends it.
  lemma StillUnderWay(s: Sys, r: Id, i: nat, a: Action)
    requires Step(s, a) && UnderWay(s, r, i)
    requires a.FetchStep? || (a.FetchReturn? && (a.r != r || a.i != i))
    ensures UnderWay(Apply(s, a), r, i)
  {
    var n := StepOwn(s, a);
    if a.r == r { OwnStillUnderWay(s.reqs[r], i, a, n); }
  }

  lemma OwnStillUnderWay(q: Req, i: nat, a: Action, n: Names)
    requires i < |q.fetches| && (a.FetchStep? || (a.FetchReturn? && a.i != i))
    ensures var q' := Own(q, a, n); i < |q'.fetches| && q'.fetches[i].callback == q.fetches[i].callback
  {}

  // From every state in which a fetch is under way, a run that obeys the rule brings its
  // promise to be fulfilled, with its response.
  lemma {:induction false} Comes(s: Sys, r: Id, i: nat) returns (actions: seq<Action>)
    requires Inv(s) && UnderWay(s, r, i)
    ensures Runs(s, actions) && Fulfilled(After(s, actions), r, i)
    decreases Work(s, r)
  {
    if s.reqs[r].fetches[i].pc.Running? {
      actions := ReturnThenCallback(s, r, i);
    } else {
      var a := NextTowards(s, r, i);
      StepKeeps(s, a);
      StillUnderWay(s, r, i, a);
      var rest := Comes(Apply(s, a), r, i);
      OneMore(s, a, rest);
      actions := [a] + rest;
    }
  }

  ghost predicate LeadsToFulfilled(s: Sys, r: Id, i: nat) {
    exists actions :: Runs(s, actions) && Fulfilled(After(s, actions), r, i)
  }

  lemma FetchCanComeBack(s: Sys, r: Id, i: nat)
    requires Reachable(s) && UnderWay(s, r, i)
    ensures LeadsToFulfilled(s, r, i)
  {
    ReachableInv(s);
    var actions := Comes(s, r, i);
  }

  // A new request whose handler is called.
  lemma Arrives(s: Sys) returns (t: Sys, actions: seq<Action>)
    requires Inv(s)
    ensures Runs(s, actions) && After(s, actions) == t && Inv(t) && |t.reqs| == |s.reqs| + 1
    ensures var q := t.reqs[|s.reqs|]; q.handler.InCall? && q.fetches == []
  {
    var s1 := Apply(s, Arrive);
    StepKeeps(s, Arrive);
    ArriveAdds(s);
    t, actions := IsCalled(s1, |s.reqs|);
    OneMore(s, Arrive, actions);
    actions := [Arrive] + actions;
  }

  lemma IsCalled(s: Sys, r: Id) returns (t: Sys, actions: seq<Action>)
    requires Inv(s) && r < |s.reqs| && s.reqs[r].http.GotContext? && s.reqs[r].fetches == []
    ensures Runs(s, actions) && After(s, actions) == t && Inv(t) && |t.reqs| == |s.reqs|
    ensures t.reqs[r].handler.InCall? && t.reqs[r].fetches == []
  {
    var s1 := Apply(s, TakeEvent(r));
    StepKeeps(s, TakeEvent(r));
    OwnTakeEvent(s, r);
    t := Apply(s1, Invoke(r));
    StepKeeps(s1, Invoke(r));
    assert Runs(t, []) && After(t, []) == t;
    OneMore(s1, Invoke(r), []);
    OneMore(s, TakeEvent(r), [Invoke(r)] + []);
    actions := [TakeEvent(r)] + ([Invoke(r)] + []);
  }

  lemma CallsFetch(s: Sys, r: Id) returns (t: Sys, actions: seq<Action>)
    requires Inv(s) && r < |s.reqs| && s.reqs[r].handler.InCall?
    ensures Runs(s, actions) && After(s, actions) == t && Inv(t) && UnderWay(t, r, |s.reqs[r].fetches|)
  {
    var a, b := ReadFetch(r, ByHandler), DoFetch(r, ByHandler, EmptyBody);
    var s1 := Apply(s, a);
    StepKeeps(s, a);
    FetcherMade(s, r, ByHandler);
    FetchReadTouchesNone(s, r);
    t := Apply(s1, b);
    StepKeeps(s1, b);
    FetchCalls(s1, r, ByHandler, EmptyBody);
    var n := OwnFetchCall(s1, r, ByHandler, EmptyBody);
    assert Runs(t, []) && After(t, []) == t;
    OneMore(s1, b, []);
    OneMore(s, a, [b] + []);
    actions := [a] + ([b] + []);
  }

  lemma FirstOf(s: Sys, before: seq<Action>, rest: seq<Action>)
    requires before != [] && Enabled(s, before[0]) && Obeys(s, before[0])
    requires Runs(Apply(s, before[0]), before[1..] + rest)
    ensures Runs(s, before + rest) && After(s, before + rest) == After(Apply(s, before[0]), before[1..] + rest)
  {
    OneMore(s, before[0], before[1..] + rest);
    Regroup(before, rest);
  }

  lemma Regroup(before: seq<Action>, rest: seq<Action>)
    requires before != []
    ensures before + rest == [before[0]] + (before[1..] + rest)
  {}

  lemma {:induction false} Joined(s: Sys, before: seq<Action>, rest: seq<Action>)
    requires Runs(s, before) && Runs(After(s, before), rest)
    ensures Runs(s, before + rest) && After(s, before + rest) == After(After(s, before), rest)
    decreases |before|
  {
    if before == [] {
      assert before + rest == rest;
    } else {
      Joined(Apply(s, before[0]), before[1..], rest);
      FirstOf(s, before, rest);
    }
  }

  // In every state of the instance a new request can come, call fetch and be given the
  // response, with its stream and its reset on the stack.
  lemma FetchCanSucceed(s: Sys)
    requires Reachable(s)
    ensures LeadsToFulfilled(s, |s.reqs|, 0)
  {
    ReachableInv(s);
    var t, first := Arrives(s);
    var u, second := CallsFetch(t, |s.reqs|);
    var third := Comes(u, |s.reqs|, 0);
    Joined(t, second, third);
    Joined(s, first, second + third);
  }
}
