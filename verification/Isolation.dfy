// Requests share contexts, events and pools, and still each is told by its own steps:
// what it answers, what settles, what its goroutines have still to do.
module Isolation {
  import opened Base
  import opened Objects
  import opened Programs
  import opened Middleware
  import opened Invariants
  import opened RequestSteps
  import opened Safety
  import opened Alone
  import opened History
  import opened Theorems

  // The response of a request that has returned, told by the run that led there.
  lemma AnswerToldByTheRun(actions: seq<Action>, r: Id)
    requires Runs(Init(), actions) && r < |After(Init(), actions).reqs| && After(Init(), actions).reqs[r].http.Returned?
    ensures var trace := After(Init(), actions).reqs[r].trace;
      && (forall o, text :: SettleResponse(r, o, text) in actions ==>
            match o
            case Copied(code) => trace == [Status(code), Body]
            case NoContent => trace == [Status(204)]
            case Errored => trace == [Status(500), Body]
            case ErroredUndefined => false)
      && (RespondWith(r) in actions ==> exists o, text :: SettleResponse(r, o, text) in actions)
      && (RespondWith(r) !in actions ==>
            || (Settle(r, true) in actions && trace == [Next])
            || (Settle(r, false) in actions && trace == [Status(500), Body])
            || (Throw(r) in actions && trace == [Status(500), Body])
            || (Throw(r) in actions && Cancel(r) in actions && trace == []))
  {
    InitInv();
    var t := After(Init(), actions);
    RunKeeps(Init(), actions);
    assert RequestInv(t.reqs[r]) by { assert ReqInv(t, r); }
    ExactlyOneOutcome(t, r);
    forall o, text | SettleResponse(r, o, text) in actions ensures t.reqs[r].respond == Fired(o) {
      WhatWasDoneLasts(Init(), actions, SettleResponse(r, o, text));
    }
    MarksTold(actions, r);
  }

  lemma MarksTold(actions: seq<Action>, r: Id)
    requires Runs(Init(), actions) && r < |After(Init(), actions).reqs|
    ensures var q := After(Init(), actions).reqs[r];
      && (!q.respond.Unused? <==> RespondWith(r) in actions)
      && (q.respond.Fired? ==> exists o, text :: SettleResponse(r, o, text) in actions)
      && (q.handler.Finished? ==> Settle(r, q.handler.ok) in actions)
      && (q.handler.Thrown? ==> Throw(r) in actions) && (q.gone ==> Cancel(r) in actions)
  {
    var q := After(Init(), actions).reqs[r];
    OneMark(actions, r, Responding, RespondWith(r));
    OneMark(actions, r, HasThrown, Throw(r));
    OneMark(actions, r, HasLeft, Cancel(r));
    if q.handler.Finished? { OneMark(actions, r, Resolved(q.handler.ok), Settle(r, q.handler.ok)); }
    if q.respond.Fired? { ResponseTold(actions, r); }
  }

  // A mark that one action leaves.
  lemma OneMark(actions: seq<Action>, r: Id, m: Mark, a: Action)
    requires Runs(Init(), actions) && r < |After(Init(), actions).reqs|
    requires m.Responding? || m.HasThrown? || m.HasLeft? || m.Resolved?
    requires Leaves(a, r, m)
    ensures Shows(After(Init(), actions).reqs[r], m) <==> a in actions
  {
    ToldByTheRun(actions, r, m);
    assert forall b :: Leaves(b, r, m) ==> b == a;
  }

  lemma ResponseTold(actions: seq<Action>, r: Id)
    requires Runs(Init(), actions) && r < |After(Init(), actions).reqs| && After(Init(), actions).reqs[r].respond.Fired?
    ensures exists o, text :: SettleResponse(r, o, text) in actions
  {
    var o := After(Init(), actions).reqs[r].respond.outcome;
    ToldByTheRun(actions, r, Responded(o));
    var a :| a in actions && Leaves(a, r, Responded(o));
    assert SettleResponse(r, a.outcome, a.text) in actions;
  }

  // A handler that throws when the client has already left answers nothing; one whose
  // client is still there at the end answers 500.

  ghost predicate Spares(q: Req) {
    q.gone && q.handler.Thrown? && (q.exception == Exception || q.exception == Exception.no || q.spared)
  }

  lemma OwnSpares(q: Req, a: Action, n: Names)
    requires Takes(q, a) && Spares(q) && q.respond.Unused?
    ensures Spares(Own(q, a, n))
  {
    if !a.Run? { OwnKeepsEnd(q, a, n); }
  }

  lemma OwnKeepsEnd(q: Req, a: Action, n: Names)
    requires Takes(q, a) && q.handler.Thrown? && !a.Run?
    ensures var q' := Own(q, a, n); q'.handler == q.handler && q'.exception == q.exception && q'.spared == q.spared
    ensures q.gone ==> Own(q, a, n).gone
  {
    KeepsException(q, a, n);
    KeepsHandler(q, a, n);
    if !a.Cancel? { OwnKeepsFields(q, a, n); }
  }

  lemma KeepsException(q: Req, a: Action, n: Names)
    requires !a.Run? && !a.Throw?
    ensures Own(q, a, n).exception == q.exception && Own(q, a, n).spared == q.spared
  {}

  lemma KeepsHandler(q: Req, a: Action, n: Names)
    requires !a.Invoke? && !a.SyncReturn? && !a.Throw? && !a.Settle?
    ensures Own(q, a, n).handler == q.handler
  {}

  lemma {:induction false} StaysSpared(s: Sys, r: Id, actions: seq<Action>)
    requires Inv(s) && Runs(s, actions) && r < |s.reqs| && Spares(s.reqs[r])
    ensures r < |After(s, actions).reqs| && Spares(After(s, actions).reqs[r])
    decreases |actions|
  {
    if actions != [] {
      StepKeeps(s, actions[0]);
      StepSpares(s, r, actions[0]);
      StaysSpared(Apply(s, actions[0]), r, actions[1..]);
    }
  }

  lemma StepSpares(s: Sys, r: Id, a: Action)
    requires Step(s, a) && r < |s.reqs| && Spares(s.reqs[r])
    ensures r < |Apply(s, a).reqs| && Spares(Apply(s, a).reqs[r])
  {
    if a.Arrive? {
      ArriveAdds(s);
    } else {
      var n := StepOwn(s, a);
      StepTakes(s, a);
      assert s.reqs[r].respond.Unused? by { assert ReqInv(s, r) && RequestInv(s.reqs[r]); }
      BecomesSpared(s, Apply(s, a), a, n, r);
    }
  }

  lemma BecomesSpared(s: Sys, s': Sys, a: Action, n: Names, r: Id)
    requires !a.Arrive? && a.r < |s.reqs| && Becomes(s, s', a.r, Own(s.reqs[a.r], a, n)) && Takes(s.reqs[a.r], a)
    requires r < |s.reqs| && Spares(s.reqs[r]) && s.reqs[r].respond.Unused?
    ensures Spares(s'.reqs[r])
  {
    if a.r == r { OwnSpares(s.reqs[r], a, n); }
  }

  lemma ThrowAnswer(s: Sys, r: Id, actions: seq<Action>)
    requires Reachable(s) && Enabled(s, Throw(r)) && Obeys(s, Throw(r)) && Runs(Apply(s, Throw(r)), actions)
    requires r < |After(Apply(s, Throw(r)), actions).reqs| && After(Apply(s, Throw(r)), actions).reqs[r].http.Returned?
    ensures var q := After(Apply(s, Throw(r)), actions).reqs[r];
      && (s.reqs[r].gone ==> q.trace == [])
      && (!q.gone ==> q.trace == [Status(500), Body])
  {
    ReachableInv(s);
    StepKeeps(s, Throw(r));
    ThrownAnswer(Apply(s, Throw(r)), r, actions);
  }

  lemma ThrownAnswer(s: Sys, r: Id, actions: seq<Action>)
    requires Inv(s) && r < |s.reqs| && s.reqs[r].handler.Thrown? && s.reqs[r].exception == Exception
    requires Runs(s, actions) && r < |After(s, actions).reqs| && After(s, actions).reqs[r].http.Returned?
    ensures var q := After(s, actions).reqs[r];
      (s.reqs[r].gone ==> q.trace == []) && (!q.gone ==> q.trace == [Status(500), Body])
  {
    var q := After(s, actions).reqs[r];
    if s.reqs[r].gone { StaysSpared(s, r, actions); }
    assert q.handler.Thrown? && (s.reqs[r].gone ==> q.gone) by { RunAdvancesAll(s, actions); }
    assert RequestInv(q) by {
      RunKeeps(s, actions);
      assert ReqInv(After(s, actions), r);
    }
  }

  // The record without the names of what it uses, and without saying how far its
  // cleanups are.

  function Stage(pc: FetchPc): FetchPc {
    match pc
    case Start => Start
    case Acquiring(_, d) => Acquiring(0, d)
    case Admitted(_) => Admitted(0)
    case Counted(_) => Counted(0)
    case Running(_) => Running(0)
    case Returning(_) => Returning(0)
    case Releasing(_) => Releasing(0)
    case Gone => Gone
  }

  function BareFetch(g: Fetch): Fetch { Fetch(0, 0, g.owner, Stage(g.pc), g.callback) }

  function BareLate(late: Late): Late { if late.ReadInto? then ReadInto(0) else late }

  function BarePc(pc: TaskPc): TaskPc { if pc.Queued? && pc.found.Some? then Queued(Some(0)) else pc }

  function BareTask(t: Task): Task { Task(t.owner, BareLate(t.late), BarePc(t.pc)) }

  function Bare(q: Req): Req {
    q.(ctx := 0, evt := 0, handlerThread := Thread(0, q.handlerThread.prog),
       responseThread := Thread(0, q.responseThread.prog),
       fetches := Map(q.fetches, BareFetch), tasks := Map(q.tasks, BareTask),
       releaser := if q.releaser.Putting? || q.releaser.Closed? then Cleaning else q.releaser)
  }

  function BareAction(a: Action): Action
    requires !a.Arrive?
  {
    if a.StartTask? then StartTask(0, a.o, BareLate(a.late)) else a.(r := 0)
  }

  // One of its steps, on the bare record.
  function BareStep(q: Req, a: Action): Req { Bare(Own(q, a, NoNames)) }

  function Told(q: Req, own: seq<Action>): Req
    decreases |own|
  {
    if own == [] then q else Told(BareStep(q, own[0]), own[1..])
  }

  // The steps of request r in a run.
  function OwnSteps(actions: seq<Action>, r: Id): seq<Action> {
    if actions == [] then []
    else (if !actions[0].Arrive? && actions[0].r == r then [BareAction(actions[0])] else []) + OwnSteps(actions[1..], r)
  }

  lemma MapUpdate<T, U>(s: seq<T>, i: nat, x: T, f: T -> U)
    requires i < |s|
    ensures Map(s[i := x], f) == Map(s, f)[i := f(x)]
  {}

  lemma MapPush<T, U>(s: seq<T>, x: T, f: T -> U)
    ensures Map(s + [x], f) == Map(s, f) + [f(x)]
  {}

  lemma FetchBare(q: Req, i: nat, g: Fetch, h: Fetch)
    requires i < |q.fetches| && BareFetch(g) == BareFetch(h)
    ensures Bare(WithFetch(q, i, g)) == Bare(WithFetch(Bare(q), i, h))
  {
    MapUpdate(q.fetches, i, g, BareFetch);
    MapUpdate(Bare(q).fetches, i, h, BareFetch);
    BareTwice(q);
  }

  lemma BareTwice(q: Req)
    ensures Bare(Bare(q)) == Bare(q)
  {
    assert Map(Map(q.fetches, BareFetch), BareFetch) == Map(q.fetches, BareFetch);
    assert Map(Map(q.tasks, BareTask), BareTask) == Map(q.tasks, BareTask);
  }

  lemma TaskBare(q: Req, i: nat, pc: TaskPc, pc': TaskPc)
    requires i < |q.tasks| && BarePc(pc) == BarePc(pc')
    ensures Bare(WithTask(q, i, pc)) == Bare(WithTask(Bare(q), i, pc'))
  {
    MapUpdate(q.tasks, i, q.tasks[i].(pc := pc), BareTask);
    MapUpdate(Bare(q).tasks, i, Bare(q).tasks[i].(pc := pc'), BareTask);
    BareTwice(q);
  }

  // Its names do not matter to what a step does.

  lemma StageBare(q: Req, a: Action, n: Names)
    requires Takes(q, a) && a.FetchStep?
    ensures Bare(Own(q, a, n)) == BareStep(Bare(q), BareAction(a))
  {
    var g, i := q.fetches[a.i], a.i;
    assert FetchAt(Bare(q), i) == BareFetch(g);
    FetchBare(q, i, g.(pc := NextStage(q, g.pc)), BareFetch(g).(pc := NextStage(Bare(q), Stage(g.pc))));
  }

  lemma SettlingBare(q: Req, a: Action, n: Names)
    requires Takes(q, a) && (a.FetchRefused? || a.FetchReturn?)
    ensures Bare(Own(q, a, n)) == BareStep(Bare(q), BareAction(a))
  {
    var g, i := q.fetches[a.i], a.i;
    assert FetchAt(Bare(q), i) == BareFetch(g);
    var ok := a.FetchReturn? && a.ok;
    var pc, pc' := if a.FetchReturn? then Returning(q.ctx) else Gone, if a.FetchReturn? then Returning(0) else Gone;
    FetchBare(q, i, g.(pc := pc, callback := Scheduled(ok)), BareFetch(g).(pc := pc', callback := Scheduled(ok)));
  }

  lemma OwnedBare(q: Req, a: Action, n: Names)
    requires Takes(q, a) && (a.RunCallback? || a.Adopt?)
    ensures Bare(Own(q, a, n)) == BareStep(Bare(q), BareAction(a))
  {
    var g, i := q.fetches[a.i], a.i;
    assert FetchAt(Bare(q), i) == BareFetch(g);
    var g' := if a.Adopt? then g.(owner := a.o) else g.(callback := Settled(g.callback.ok));
    FetchBare(q, i, g', BareFetch(g).(owner := g'.owner, callback := g'.callback));
  }

  lemma TaskStepsBare(q: Req, a: Action, n: Names)
    requires Takes(q, a) && (a.StartTask? || a.RunTask? || a.EndTask?)
    ensures Bare(Own(q, a, n)) == BareStep(Bare(q), BareAction(a))
  {
    match a {
      case StartTask(_, o, late) => NewTaskBare(q, Task(o, late, InFlight), Task(o, BareLate(late), InFlight));
      case EndTask(r, i) => EndTaskBare(q, r, i, n);
      case RunTask(r, i) => RunTaskBare(q, r, i, n);
    }
  }

  lemma EndTaskBare(q: Req, r: Id, i: nat, n: Names)
    requires i < |q.tasks|
    ensures Bare(Own(q, EndTask(r, i), n)) == BareStep(Bare(q), EndTask(0, i))
  {
    TaskBare(q, i, TaskDone, TaskDone);
  }

  lemma RunTaskBare(q: Req, r: Id, i: nat, n: Names)
    requires i < |q.tasks|
    ensures Bare(Own(q, RunTask(r, i), n)) == BareStep(Bare(q), RunTask(0, i))
  {
    var kv := q.tasks[i].late.UseKV?;
    var pc, pc' := Queued(if kv then Some(q.ctx) else None), Queued(if kv then Some(0) else None);
    assert Bare(q).tasks[i].late.UseKV? == kv && Bare(q).ctx == 0;
    assert Own(q, RunTask(r, i), n) == WithTask(q, i, pc);
    assert Own(Bare(q), RunTask(0, i), NoNames) == WithTask(Bare(q), i, pc');
    TaskBare(q, i, pc, pc');
  }

  lemma NewTaskBare(q: Req, t: Task, t': Task)
    requires BareTask(t) == BareTask(t')
    ensures Bare(q.(tasks := q.tasks + [t])) == Bare(Bare(q).(tasks := Bare(q).tasks + [t']))
  {
    BareTwice(q);
    MapPush(q.tasks, t, BareTask);
    MapPush(Bare(q).tasks, t', BareTask);
  }

  lemma FetchCallBare(q: Req, a: Action, n: Names)
    requires Takes(q, a) && a.DoFetch?
    ensures Bare(Own(q, a, n)) == BareStep(Bare(q), BareAction(a))
  {
    BareTwice(q);
    var pc := if a.body.UnsupportedBody? then Gone else Start;
    var c := if a.body.UnsupportedBody? then Scheduled(false) else Unscheduled;
    MapPush(q.fetches, Fetch(n.fetcher, n.response, a.o, pc, c), BareFetch);
    MapPush(Bare(q).fetches, Fetch(0, 0, a.o, pc, c), BareFetch);
  }

  lemma RunBare(q: Req, which: Which)
    ensures Bare(OwnRun(q, which)) == Bare(OwnRun(Bare(q), which))
  {
    BareTwice(q);
  }

  lemma SetWaiter(q: Req, w: WaitPc)
    ensures Bare(q.(waiter := w)) == Bare(q).(waiter := w)
  {}

  lemma WaitBare(q: Req)
    ensures Bare(OwnWait(q)) == Bare(OwnWait(Bare(q)))
  {
    var w := OwnWait(q).waiter;
    assert OwnWait(q) == q.(waiter := w) && OwnWait(Bare(q)) == Bare(q).(waiter := w);
    SetWaiter(q, w);
    SetWaiter(Bare(q), w);
    BareTwice(q);
  }

  lemma SetReleaser(q: Req, p: ReleasePc)
    ensures Bare(q.(releaser := p)) == Bare(q).(releaser := if p.Putting? || p.Closed? then Cleaning else p)
  {}

  lemma ReleaseBare(q: Req, emptied: bool)
    ensures Bare(OwnRelease(q, emptied)) == Bare(OwnRelease(Bare(q), false))
  {
    BareTwice(q);
    var p, p' := OwnRelease(q, emptied).releaser, OwnRelease(Bare(q), false).releaser;
    assert OwnRelease(q, emptied) == q.(releaser := p) && OwnRelease(Bare(q), false) == Bare(q).(releaser := p');
    SetReleaser(q, p);
    SetReleaser(Bare(q), p');
  }

  lemma PlainBare(q: Req, a: Action, n: Names)
    requires Takes(q, a) && !a.Run? && !a.WaitStep? && !a.ReleaseStep? && !a.DoFetch? && !a.Adopt?
    requires !a.FetchStep? && !a.FetchRefused? && !a.FetchReturn? && !a.RunCallback?
    requires !a.StartTask? && !a.RunTask? && !a.EndTask?
    ensures Bare(Own(q, a, n)) == BareStep(Bare(q), BareAction(a))
  {
    BareTwice(q);
  }

  lemma OwnBare(q: Req, a: Action, n: Names)
    requires Takes(q, a)
    ensures Bare(Own(q, a, n)) == BareStep(Bare(q), BareAction(a))
  {
    if a.FetchStep? { StageBare(q, a, n); }
    else if a.FetchRefused? || a.FetchReturn? { SettlingBare(q, a, n); }
    else if a.RunCallback? || a.Adopt? { OwnedBare(q, a, n); }
    else if a.StartTask? || a.RunTask? || a.EndTask? { TaskStepsBare(q, a, n); }
    else if a.DoFetch? { FetchCallBare(q, a, n); }
    else if a.Run? { RunBare(q, a.which); }
    else if a.WaitStep? { WaitBare(q); }
    else if a.ReleaseStep? { ReleaseBare(q, n.emptied); }
    else { PlainBare(q, a, n); }
  }

  // Where a request starts from in a run that begins at s.
  function From(s: Sys, r: Id): Req { Bare(if r < |s.reqs| then s.reqs[r] else NewReq(0)) }

  lemma StepBare(s: Sys, a: Action, r: Id)
    requires Step(s, a)
    ensures From(Apply(s, a), r) == if !a.Arrive? && a.r == r then BareStep(From(s, r), BareAction(a)) else From(s, r)
  {
    if a.Arrive? {
      ArriveAdds(s);
      assert Bare(NewReq(s.Pick(KContext))) == Bare(NewReq(0));
    } else {
      var q := StepRecord(s, a);
      BecomesBare(s, Apply(s, a), a.r, q, r);
    }
  }

  // The record of the request that steps.
  lemma StepRecord(s: Sys, a: Action) returns (q: Req)
    requires Step(s, a) && !a.Arrive?
    ensures Becomes(s, Apply(s, a), a.r, q) && Bare(q) == BareStep(From(s, a.r), BareAction(a))
  {
    var n := StepOwn(s, a);
    q := Own(s.reqs[a.r], a, n);
    StepTakes(s, a);
    OwnBare(s.reqs[a.r], a, n);
  }

  lemma BecomesBare(s: Sys, s': Sys, t: Id, q: Req, r: Id)
    requires Becomes(s, s', t, q)
    ensures From(s', r) == if t == r then Bare(q) else From(s, r)
  {}

  lemma {:induction false} ToldByItsOwnSteps(s: Sys, actions: seq<Action>, r: Id)
    requires Inv(s) && Runs(s, actions)
    ensures From(After(s, actions), r) == Told(From(s, r), OwnSteps(actions, r))
    decreases |actions|
  {
    if actions != [] {
      var a := actions[0];
      StepKeeps(s, a);
      StepBare(s, a, r);
      ToldByItsOwnSteps(Apply(s, a), actions[1..], r);
      ToldFirst(From(s, r), actions, r);
    }
  }

  lemma ToldFirst(q: Req, actions: seq<Action>, r: Id)
    requires actions != []
    ensures var a := actions[0];
      Told(q, OwnSteps(actions, r))
      == Told(if !a.Arrive? && a.r == r then BareStep(q, BareAction(a)) else q, OwnSteps(actions[1..], r))
  {
    var a, rest := actions[0], OwnSteps(actions[1..], r);
    if !a.Arrive? && a.r == r {
      assert OwnSteps(actions, r) == [BareAction(a)] + rest;
      OneTold(q, BareAction(a), rest);
    } else {
      assert OwnSteps(actions, r) == rest;
    }
  }

  lemma OneTold(q: Req, a: Action, rest: seq<Action>)
    ensures Told(q, [a] + rest) == Told(BareStep(q, a), rest)
  {
    assert ([a] + rest)[1..] == rest;
  }

  // Two requests, in whatever company, on whatever contexts and events, in two runs of
  // two instances: if they take the same steps, then they have written the same, settled
  // the same and have the same left to do.
  lemma SameStepsSameRecord(actions: seq<Action>, r: Id, others: seq<Action>, t: Id)
    requires Runs(Init(), actions) && Runs(Init(), others)
    requires r < |After(Init(), actions).reqs| && t < |After(Init(), others).reqs|
    requires OwnSteps(actions, r) == OwnSteps(others, t)
    ensures Bare(After(Init(), actions).reqs[r]) == Bare(After(Init(), others).reqs[t])
    ensures After(Init(), actions).reqs[r].trace == After(Init(), others).reqs[t].trace
  {
    InitInv();
    ToldByItsOwnSteps(Init(), actions, r);
    ToldByItsOwnSteps(Init(), others, t);
    assert Bare(After(Init(), actions).reqs[r]).trace == After(Init(), actions).reqs[r].trace;
    assert Bare(After(Init(), others).reqs[t]).trace == After(Init(), others).reqs[t].trace;
  }
}
