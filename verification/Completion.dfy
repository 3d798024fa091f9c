// No reachable state has lost a request: unless its respondWith promise was
// rejected with undefined, there is a run that obeys the rule and brings its
// IOContext back to the pool.
module Completion {
  import opened Base
  import opened Objects
  import opened Programs
  import opened Potentials
  import opened Middleware
  import opened Invariants
  import opened EventSteps
  import opened LocalSteps
  import opened RequestSteps
  import opened FetchSteps
  import opened TakeSteps
  import opened TaskSteps
  import opened EndSteps
  import opened Safety
  import opened History
  import opened ScriptSteps
  import SettleSteps

  // Work left, as a natural number.

  function PcWork(pc: FetchPc): nat {
    match pc
    case Start => 7
    case Acquiring(_, _) => 6
    case Admitted(_) => 5
    case Counted(_) => 4
    case Running(_) => 3
    case Returning(_) => 2
    case Releasing(_) => 1
    case Gone => 0
  }

  // A callback that succeeds registers two cleanups.
  function CallbackWork(c: Callback): nat {
    match c
    case Unscheduled => 4
    case Scheduled(_) => 3
    case Settled(_) => 0
  }

  function FetchWork(g: Fetch): nat { PcWork(g.pc) + CallbackWork(g.callback) }

  function FetchesWork(fs: seq<Fetch>): nat {
    if fs == [] then 0 else FetchesWork(fs[..|fs| - 1]) + FetchWork(fs[|fs| - 1])
  }

  function AllFetches(reqs: seq<Req>): nat {
    if reqs == [] then 0 else AllFetches(reqs[..|reqs| - 1]) + FetchesWork(reqs[|reqs| - 1].fetches)
  }

  function ProgWork(p: Prog): nat {
    match p
    case End => 0
    case IfSkip(a, b) => 1 + ProgWork(a) + ProgWork(b)
    case IfSent(a, b) => 1 + ProgWork(a) + ProgWork(b)
    case IfGone(a, b) => 1 + ProgWork(a) + ProgWork(b)
    case _ => 1 + ProgWork(p.rest)
  }

  function HttpWork(pc: HttpPc): nat {
    match pc
    case GotContext => 6
    case Prepared => 4
    case Calling => 3
    case Failing => 2
    case Waiting => 1
    case Returned => 0
  }

  function HandlerWork(h: Handler): nat {
    match h
    case Uncalled => ProgWork(Resolver) + 3
    case InCall => ProgWork(Resolver) + 2
    case Pending => ProgWork(Resolver) + 1
    case _ => 0
  }

  function RespondWork(p: Respond): nat {
    match p
    case Awaiting => ProgWork(Responder(NoContent)) + 1
    case _ => 0
  }

  function WaitWork(w: WaitPc): nat {
    match w
    case NoWait => 5
    case Begin => 4
    case OnExtenders => 3
    case OnReqCtx => 3
    case ToCancel => 2
    case Ended => 0
  }

  function ReleaseWork(p: ReleasePc): nat {
    match p
    case NoRelease => 5
    case OnCancelled => 4
    case OnFetches => 3
    case Cleaning => 2
    case Putting => 1
    case Closed => 0
  }

  function WrapperWork(w: Wrapper): nat {
    match w
    case AwaitingPromise => 2
    case WrapperDone => 0
    case _ => 1
  }

  function WrappersWork(ws: seq<Wrapper>): nat {
    if ws == [] then 0 else WrappersWork(ws[..|ws| - 1]) + WrapperWork(ws[|ws| - 1])
  }

  function TaskWork(pc: TaskPc): nat {
    match pc
    case InFlight => 2
    case Queued(_) => 1
    case TaskDone => 0
  }

  function TasksWork(ts: seq<Task>): nat {
    if ts == [] then 0 else TasksWork(ts[..|ts| - 1]) + TaskWork(ts[|ts| - 1].pc)
  }

  function OwnWork(q: Req): nat {
    HttpWork(q.http) + HandlerWork(q.handler) + RespondWork(q.respond)
    + ProgWork(q.handlerThread.prog) + ProgWork(q.responseThread.prog) + ProgWork(q.exception)
    + WrappersWork(q.wrappers) + TasksWork(q.tasks) + Bit(!q.gone) + WaitWork(q.waiter) + ReleaseWork(q.releaser)
  }

  function Work(s: Sys, r: Id): nat
    requires r < |s.reqs|
  {
    AllFetches(s.reqs) + OwnWork(s.reqs[r]) + |Stack(s, r)|
  }

  lemma {:induction false} FetchesWorkUpdate(fs: seq<Fetch>, i: nat, g: Fetch)
    requires i < |fs|
    ensures FetchesWork(fs[i := g]) == FetchesWork(fs) - FetchWork(fs[i]) + FetchWork(g)
  {
    var t := fs[i := g];
    if i == |fs| - 1 {
      assert t[..|t| - 1] == fs[..|fs| - 1];
    } else {
      assert t[..|t| - 1] == fs[..|fs| - 1][i := g];
      FetchesWorkUpdate(fs[..|fs| - 1], i, g);
    }
  }

  lemma {:induction false} WrappersWorkUpdate(ws: seq<Wrapper>, k: nat, w: Wrapper)
    requires k < |ws|
    ensures WrappersWork(ws[k := w]) == WrappersWork(ws) - WrapperWork(ws[k]) + WrapperWork(w)
  {
    var t := ws[k := w];
    if k == |ws| - 1 {
      assert t[..|t| - 1] == ws[..|ws| - 1];
    } else {
      assert t[..|t| - 1] == ws[..|ws| - 1][k := w];
      WrappersWorkUpdate(ws[..|ws| - 1], k, w);
    }
  }

  lemma {:induction false} TasksWorkUpdate(ts: seq<Task>, i: nat, g: Task)
    requires i < |ts|
    ensures TasksWork(ts[i := g]) == TasksWork(ts) - TaskWork(ts[i].pc) + TaskWork(g.pc)
  {
    var t := ts[i := g];
    if i == |ts| - 1 {
      assert t[..|t| - 1] == ts[..|ts| - 1];
    } else {
      assert t[..|t| - 1] == ts[..|ts| - 1][i := g];
      TasksWorkUpdate(ts[..|ts| - 1], i, g);
    }
  }

  lemma {:induction false} AllFetchesUpdate(reqs: seq<Req>, r: nat, q: Req)
    requires r < |reqs|
    ensures AllFetches(reqs[r := q]) == AllFetches(reqs) - FetchesWork(reqs[r].fetches) + FetchesWork(q.fetches)
  {
    var t := reqs[r := q];
    if r == |reqs| - 1 {
      assert t[..|t| - 1] == reqs[..|reqs| - 1];
    } else {
      assert t[..|t| - 1] == reqs[..|reqs| - 1][r := q];
      AllFetchesUpdate(reqs[..|reqs| - 1], r, q);
    }
  }

  predicate Completable(q: Req) { q.respond.Fired? ==> !q.respond.outcome.ErroredUndefined? }

  // A step that helps: it obeys the rule, keeps a completable request so, and leaves
  // less to do.
  ghost predicate Helps(s: Sys, r: Id, a: Action)
    requires r < |s.reqs|
  {
    && Enabled(s, a) && Obeys(s, a) && r < |Apply(s, a).reqs|
    && (Completable(s.reqs[r]) ==> Completable(Apply(s, a).reqs[r])) && Work(Apply(s, a), r) < Work(s, r)
  }

  // Fetches.

  predicate SameStacks(s: Sys, s': Sys) {
    |s'.ctxs| == |s.ctxs| && forall c :: 0 <= c < |s.ctxs| ==> s'.ctxs[c].cleanups == s.ctxs[c].cleanups
  }

  lemma FetchLess(s: Sys, s': Sys, r: Id, t: Id, i: nat, g: Fetch)
    requires r < |s.reqs| && t < |s.reqs| && i < |s.reqs[t].fetches|
    requires s'.reqs == s.reqs[t := SetFetch(s.reqs[t], i, g)] && SameStacks(s, s')
    requires FetchWork(g) < FetchWork(s.reqs[t].fetches[i])
    ensures r < |s'.reqs| && Work(s', r) < Work(s, r) && s'.reqs[r].respond == s.reqs[r].respond
  {
    AllFetchesUpdate(s.reqs, t, SetFetch(s.reqs[t], i, g));
    FetchesWorkUpdate(s.reqs[t].fetches, i, g);
    assert Stack(s', r) == Stack(s, r);
    assert OwnWork(s'.reqs[r]) == OwnWork(s.reqs[r]);
  }

  lemma StepLess(s: Sys, r: Id, t: Id, i: nat)
    requires Inv(s) && r < |s.reqs| && t < |s.reqs| && i < |s.reqs[t].fetches|
    requires Enabled(s, FetchStep(t, i))
    ensures Helps(s, r, FetchStep(t, i))
  {
    StepGoes(s, t, i);
    var pc := s.reqs[t].fetches[i].pc;
    var g;
    if pc.Start? || pc.Counted? { g := ReadShape(s, t, i); } else { g := CountShape(s, t, i); }
    FetchLess(s, DoFetchStep(s, t, i), r, t, i, g);
  }

  // What makes the step go through.
  predicate CanStep(s: Sys, t: Id, i: nat) {
    && t < |s.reqs| && i < |s.reqs[t].fetches|
    && var g := s.reqs[t].fetches[i];
    match g.pc
    case Start => s.Fetcher(g.fetcher).ioContext.Some?
    case Counted(_) => s.Fetcher(g.fetcher).ioContext.Some?
    case Acquiring(c, _) => true
    case Admitted(c) => true
    case Returning(c) => s.Ctx(c).fetches >= 1
    case Releasing(c) => s.Ctx(c).held >= 1
    case _ => false
  }

  lemma StepGoes(s: Sys, t: Id, i: nat)
    requires Inv(s) && t < |s.reqs| && i < |s.reqs[t].fetches| && Enabled(s, FetchStep(t, i))
    ensures CanStep(s, t, i)
  {
    var g := s.reqs[t].fetches[i];
    if g.pc.Releasing? {
      assert g.pc.ctx < |s.ctxs| by { assert ReqInv(s, t) && FetchInv(s.reqs[t], g); }
      HeldSome(s.reqs, t, i, g.pc.ctx);
    } else {
      FetchInUse(s, t, i);
      FetchFacts(s, t, i);
    }
  }

  // s' is s with one fetch moved on, and nothing pushed.
  predicate Moved(s: Sys, s': Sys, t: Id, i: nat, g: Fetch)
    requires t < |s.reqs| && i < |s.reqs[t].fetches|
  {
    && s'.reqs == s.reqs[t := SetFetch(s.reqs[t], i, g)] && SameStacks(s, s')
    && FetchWork(g) < FetchWork(s.reqs[t].fetches[i])
  }

  lemma ReadShape(s: Sys, t: Id, i: nat) returns (g: Fetch)
    requires CanStep(s, t, i) && (s.reqs[t].fetches[i].pc.Start? || s.reqs[t].fetches[i].pc.Counted?)
    ensures Moved(s, DoFetchStep(s, t, i), t, i, g) && g == s.reqs[t].fetches[i].(pc := g.pc)
  {
    g := s.reqs[t].fetches[i];
    var c := s.Fetcher(g.fetcher).ioContext.value;
    g := g.(pc := if g.pc.Start? then Acquiring(c, s.Ctx(c).Context()) else Running(c));
    assert DoFetchStep(s, t, i) == s.(reqs := s.reqs[t := SetFetch(s.reqs[t], i, g)]);
  }

  function NextPc(pc: FetchPc): FetchPc {
    match pc
    case Acquiring(c, _) => Admitted(c)
    case Admitted(c) => Counted(c)
    case Returning(c) => Releasing(c)
    case _ => Gone
  }

  lemma CountShape(s: Sys, t: Id, i: nat) returns (g: Fetch)
    requires CanStep(s, t, i) && !s.reqs[t].fetches[i].pc.Start? && !s.reqs[t].fetches[i].pc.Counted?
    ensures Moved(s, DoFetchStep(s, t, i), t, i, g) && g == s.reqs[t].fetches[i].(pc := NextPc(s.reqs[t].fetches[i].pc))
  {
    g := s.reqs[t].fetches[i];
    g := g.(pc := NextPc(g.pc));
    var s' := DoFetchStep(s, t, i);
    assert s' == s.(reqs := s.reqs[t := SetFetch(s.reqs[t], i, g)], ctxs := s'.ctxs);
    assert SameStacks(s, s');
  }

  lemma ReturnLess(s: Sys, r: Id, t: Id, i: nat)
    requires Inv(s) && r < |s.reqs| && t < |s.reqs| && i < |s.reqs[t].fetches|
    requires Enabled(s, FetchReturn(t, i, false))
    ensures Helps(s, r, FetchReturn(t, i, false))
  {
    var g := s.reqs[t].fetches[i];
    assert g.callback.Unscheduled? by { assert ReqInv(s, t) && FetchInv(s.reqs[t], g); }
    ReturnWork(s, r, t, i);
    StepHelps(s, r, FetchReturn(t, i, false), DoFetchReturn(s, t, i, false));
  }

  lemma ReturnWork(s: Sys, r: Id, t: Id, i: nat)
    requires r < |s.reqs| && t < |s.reqs| && i < |s.reqs[t].fetches|
    requires s.reqs[t].fetches[i].pc.Running? && s.reqs[t].fetches[i].callback.Unscheduled?
    ensures var s' := DoFetchReturn(s, t, i, false);
      r < |s'.reqs| && s'.reqs[r].respond == s.reqs[r].respond && Work(s', r) < Work(s, r)
  {
    var g := s.reqs[t].fetches[i];
    FetchLess(s, DoFetchReturn(s, t, i, false), r, t, i, g.(pc := Returning(g.pc.ctx), callback := Scheduled(false)));
  }

  // Someone holds a permit, if any is out.
  lemma {:induction false} FindHolder(reqs: seq<Req>, c: Id) returns (t: Id, i: nat)
    requires HeldBy(reqs, c) > 0
    ensures t < |reqs| && i < |reqs[t].fetches| && Holds(reqs[t].fetches[i].pc, c)
  {
    t := |reqs| - 1;
    if HeldIn(reqs[t].fetches, c) > 0 {
      i := FindIn(reqs[t].fetches, c);
    } else {
      t, i := FindHolder(reqs[..|reqs| - 1], c);
    }
  }

  lemma {:induction false} FindIn(fs: seq<Fetch>, c: Id) returns (i: nat)
    requires HeldIn(fs, c) > 0
    ensures i < |fs| && Holds(fs[i].pc, c)
  {
    i := |fs| - 1;
    if !Holds(fs[i].pc, c) { i := FindIn(fs[..|fs| - 1], c); }
  }

  // A permit holder can always move on.
  lemma HolderHelps(s: Sys, r: Id, c: Id) returns (a: Action)
    requires Inv(s) && r < |s.reqs| && c < |s.ctxs| && s.ctxs[c].held > 0
    ensures Helps(s, r, a) && (a.FetchStep? || a.FetchReturn?)
    ensures a.i < |s.reqs[a.r].fetches| && Holds(s.reqs[a.r].fetches[a.i].pc, c)
  {
    var t, i := FindHolder(s.reqs, c);
    if s.reqs[t].fetches[i].pc.Running? {
      a := FetchReturn(t, i, false);
      ReturnLess(s, r, t, i);
    } else {
      a := FetchStep(t, i);
      StepLess(s, r, t, i);
    }
  }

  predicate Busy(g: Fetch) { !g.callback.Settled? || !(g.pc.Releasing? || g.pc.Gone?) }

  lemma FetchHelps(s: Sys, r: Id, i: nat) returns (a: Action)
    requires Inv(s) && r < |s.reqs| && i < |s.reqs[r].fetches| && Busy(s.reqs[r].fetches[i])
    ensures Helps(s, r, a)
  {
    var g := s.reqs[r].fetches[i];
    assert RequestInv(s.reqs[r]) && FetchInv(s.reqs[r], g) && s.reqs[r].ctx < |s.ctxs| by { assert ReqInv(s, r); }
    if g.callback.Scheduled? {
      a := RunCallback(r, i);
      CallbackLess(s, r, i);
    } else if g.pc.Running? {
      a := FetchReturn(r, i, false);
      ReturnLess(s, r, r, i);
    } else if g.pc.Acquiring? && s.Ctx(g.pc.ctx).held >= CONCURRENCY {
      a := HolderHelps(s, r, g.pc.ctx);
    } else {
      a := FetchStep(r, i);
      StepLess(s, r, r, i);
    }
  }

  lemma CallbackLess(s: Sys, r: Id, i: nat)
    requires Inv(s) && r < |s.reqs| && i < |s.reqs[r].fetches| && s.reqs[r].fetches[i].callback.Scheduled?
    ensures Helps(s, r, RunCallback(r, i))
  {
    CallbackWorks(s, DoRunCallback(s, r, i), r, i);
    StepHelps(s, r, RunCallback(r, i), DoRunCallback(s, r, i));
  }

  lemma CallbackWorks(s: Sys, s': Sys, r: Id, i: nat)
    requires Inv(s) && r < |s.reqs| && i < |s.reqs[r].fetches| && s.reqs[r].fetches[i].callback.Scheduled?
    requires s' == DoRunCallback(s, r, i)
    ensures r < |s'.reqs| && s'.reqs[r].respond == s.reqs[r].respond && Work(s', r) < Work(s, r)
  {
    CallbackShape(s, r, i);
    var g := s.reqs[r].fetches[i];
    var g' := g.(callback := Settled(g.callback.ok));
    AllFetchesUpdate(s.reqs, r, SetFetch(s.reqs[r], i, g'));
    FetchesWorkUpdate(s.reqs[r].fetches, i, g');
    assert OwnWork(s'.reqs[r]) == OwnWork(s.reqs[r]);
  }

  lemma CallbackShape(s: Sys, r: Id, i: nat)
    requires Inv(s) && r < |s.reqs| && i < |s.reqs[r].fetches| && s.reqs[r].fetches[i].callback.Scheduled?
    ensures var s', g := DoRunCallback(s, r, i), s.reqs[r].fetches[i];
      && s'.reqs == s.reqs[r := SetFetch(s.reqs[r], i, g.(callback := Settled(g.callback.ok)))]
      && |Stack(s', r)| <= |Stack(s, r)| + 2
  {
    SettleSteps.CallbackInUse(s, r, i);
    SettleSteps.CallbackReads(s, r, i);
    if s.reqs[r].fetches[i].callback.ok { SettleSteps.CallbackGrows(s, r, i); }
  }

  // Everything else: one step that changes the request, and perhaps tokens.

  lemma PlainLess(s: Sys, s': Sys, r: Id)
    requires r < |s.reqs| && |s'.reqs| == |s.reqs| && s'.reqs == s.reqs[r := s'.reqs[r]] && SameStacks(s, s')
    requires s'.reqs[r].fetches == s.reqs[r].fetches && s'.reqs[r].ctx == s.reqs[r].ctx
    requires s.reqs[r].Open() && OwnWork(s'.reqs[r]) < OwnWork(s.reqs[r])
    ensures Work(s', r) < Work(s, r)
  {
    AllFetchesUpdate(s.reqs, r, s'.reqs[r]);
    assert |Stack(s', r)| <= |Stack(s, r)|;
  }

  // The request goroutine and the script.
  lemma StartHelps(s: Sys, r: Id) returns (a: Action)
    requires Inv(s) && r < |s.reqs| && Completable(s.reqs[r])
    requires s.reqs[r].http.GotContext? || s.reqs[r].http.Prepared? || s.reqs[r].handler.InCall?
    ensures Helps(s, r, a)
  {
    var q := s.reqs[r];
    assert q.Open() by { assert ReqInv(s, r) && RequestInv(q); }
    if q.http.GotContext? {
      a := TakeEvent(r);
      TakeEventLess(s, r);
    } else if q.http.Prepared? {
      a := Invoke(r);
      assert q.handler.Uncalled? by { assert ReqInv(s, r) && RequestInv(q); }
      InvokeHelps(s, r);
    } else {
      a := SyncReturn(r);
      SyncHelps(s, r);
    }
  }

  lemma InvokeHelps(s: Sys, r: Id)
    requires !s.crashed && r < |s.reqs| && Completable(s.reqs[r]) && s.reqs[r].Open()
    requires s.reqs[r].http.Prepared? && s.reqs[r].handler.Uncalled?
    ensures Helps(s, r, Invoke(r))
  {
    SetHelps(s, r, Invoke(r), s.reqs[r].(http := Calling, handler := InCall));
  }

  lemma SyncHelps(s: Sys, r: Id)
    requires !s.crashed && r < |s.reqs| && Completable(s.reqs[r]) && s.reqs[r].Open() && s.reqs[r].handler.InCall?
    ensures Helps(s, r, SyncReturn(r))
  {
    SetHelps(s, r, SyncReturn(r), s.reqs[r].(handler := Pending));
  }

  lemma TakeEventLess(s: Sys, r: Id)
    requires Inv(s) && r < |s.reqs| && Completable(s.reqs[r]) && s.reqs[r].http.GotContext?
    ensures Helps(s, r, TakeEvent(r))
  {
    var s', q, e := DoTakeEvent(s, r), s.reqs[r], s.Pick(KEvent);
    GotFacts(s, r);
    assert s'.reqs == s.reqs[r := q.(evt := e, http := Prepared)] && |s'.ctxs| == |s.ctxs|
        && |s'.ctxs[q.ctx].cleanups| == 1 by {
      PickBounds(s, KEvent);
      TakenIsReset(s, KEvent, r);
      TakeEventGrows(s, r);
    }
    TakeEventWork(s, s', r, e);
    StepHelps(s, r, TakeEvent(r), s');
  }

  lemma StepHelps(s: Sys, r: Id, a: Action, s': Sys)
    requires r < |s.reqs| && Enabled(s, a) && Obeys(s, a) && Apply(s, a) == s'
    requires r < |s'.reqs| && (Completable(s.reqs[r]) ==> Completable(s'.reqs[r])) && Work(s', r) < Work(s, r)
    ensures Helps(s, r, a)
  {}

  lemma TakeEventWork(s: Sys, s': Sys, r: Id, e: Id)
    requires r < |s.reqs| && s.reqs[r].http.GotContext? && s.reqs[r].ctx < |s.ctxs| && Stack(s, r) == []
    requires s'.reqs == s.reqs[r := s.reqs[r].(evt := e, http := Prepared)] && |s'.ctxs| == |s.ctxs|
    requires s.reqs[r].Open() && |s'.ctxs[s.reqs[r].ctx].cleanups| == 1
    ensures Work(s', r) < Work(s, r)
  {
    AllFetchesUpdate(s.reqs, r, s'.reqs[r]);
    assert |Stack(s', r)| == 1;
  }

  // No fetch of the request is on its way, and no late read.
  predicate AllSettled(q: Req) {
    && (forall i :: 0 <= i < |q.fetches| ==> !Busy(q.fetches[i]))
    && (forall i :: 0 <= i < |q.tasks| ==> q.tasks[i].pc.TaskDone?)
  }

  // A step that only sets the request r.
  lemma SetHelps(s: Sys, r: Id, a: Action, q': Req)
    requires r < |s.reqs| && s.reqs[r].Open() && Enabled(s, a) && Obeys(s, a)
    requires Apply(s, a) == s.(reqs := s.reqs[r := q']) && Completable(q')
    requires q'.fetches == s.reqs[r].fetches && q'.ctx == s.reqs[r].ctx && OwnWork(q') < OwnWork(s.reqs[r])
    ensures Helps(s, r, a)
  {
    PlainLess(s, s.(reqs := s.reqs[r := q']), r);
  }

  // The two promises, once their fetches have settled.
  lemma PromiseHelps(s: Sys, r: Id) returns (a: Action)
    requires Inv(s) && r < |s.reqs| && Completable(s.reqs[r]) && AllSettled(s.reqs[r])
    requires (s.reqs[r].respond.Awaiting? && !s.reqs[r].handler.InCall?) || s.reqs[r].handler.Pending?
    ensures Helps(s, r, a)
  {
    var q := s.reqs[r];
    LiveInUse(s, r, if q.respond.Awaiting? then ByResponse else ByHandler);
    assert q.Open() && s.Evt(q.evt).http == Some(r) by { InPlace(s, r); }
    if q.respond.Awaiting? && !q.handler.InCall? {
      a := SettleResponse(r, NoContent, false);
      RespondHelps(s, r);
    } else {
      a := Settle(r, true);
      SettleHelps(s, r);
    }
  }

  lemma RespondHelps(s: Sys, r: Id)
    requires !s.crashed && r < |s.reqs| && AllSettled(s.reqs[r]) && s.reqs[r].respond.Awaiting?
    requires !s.reqs[r].handler.InCall?
    requires s.reqs[r].Open() && s.Evt(s.reqs[r].evt).http == Some(r)
    ensures Helps(s, r, SettleResponse(r, NoContent, false))
  {
    var q := s.reqs[r];
    var q' := q.(respond := Fired(NoContent), responseThread := Thread(r, Responder(NoContent)));
    RespondedLess(q, q');
    SetHelps(s, r, SettleResponse(r, NoContent, false), q');
  }

  lemma SettleHelps(s: Sys, r: Id)
    requires !s.crashed && r < |s.reqs| && Completable(s.reqs[r]) && AllSettled(s.reqs[r]) && s.reqs[r].handler.Pending?
    requires s.reqs[r].Open() && s.Evt(s.reqs[r].evt).http == Some(r)
    ensures Helps(s, r, Settle(r, true))
  {
    var q := s.reqs[r];
    var q' := q.(handler := Finished(true), handlerThread := Thread(r, Resolver));
    FinishedLess(q, q');
    SetHelps(s, r, Settle(r, true), q');
  }

  lemma RespondedLess(q: Req, q': Req)
    requires q.respond.Awaiting? && q' == q.(respond := Fired(NoContent), responseThread := q'.responseThread)
    requires q'.responseThread.prog == Responder(NoContent)
    ensures OwnWork(q') < OwnWork(q)
  {}

  lemma FinishedLess(q: Req, q': Req)
    requires q.handler.Pending? && q' == q.(handler := Finished(true), handlerThread := q'.handlerThread)
    requires q'.handlerThread.prog == Resolver
    ensures OwnWork(q') < OwnWork(q)
  {}

  lemma RunLess(s: Sys, r: Id, which: Which)
    requires Inv(s) && r < |s.reqs| && Completable(s.reqs[r]) && Enabled(s, Run(r, which))
    ensures Helps(s, r, Run(r, which))
  {
    var q := s.reqs[r];
    var e := s.Evt(q.evt);
    assert q.Open() && q.evt < |s.evts| by { RunnerInUse(s, r, which); InPlace(s, r); }
    var s' := s.(reqs := s.reqs[r := Ran(r, q, e, which, q.gone)],
        evts := s.evts[q.evt := Effect(ThreadOf(q, which), e)]);
    assert DoRun(s, r, which) == s' by {
      RunnerInUse(s, r, which);
      InPlace(s, r);
      RunShape(s, r, which);
    }
    RanLess(r, q, e, which);
    PlainLess(s, s', r);
  }

  lemma RanLess(r: Id, q: Req, e: Evt, which: Which)
    requires ThreadOf(q, which) != End
    ensures OwnWork(Ran(r, q, e, which, q.gone)) < OwnWork(q)
  {}

  // The goroutines of the response, in the order in which they wait for each other.
  lemma GoroutineHelps(s: Sys, r: Id) returns (a: Action)
    requires Inv(s) && r < |s.reqs| && Completable(s.reqs[r])
    requires !s.reqs[r].respond.Awaiting?
    requires s.reqs[r].responseThread.prog != End || s.reqs[r].handlerThread.prog != End
          || (s.reqs[r].exception != End && s.reqs[r].http.Failing?)
    ensures Helps(s, r, a)
  {
    var q := s.reqs[r];
    var which := if q.responseThread.prog != End then OfResponse
                 else if q.handlerThread.prog != End then OfHandler
                 else OfException;
    a := Run(r, which);
    NextReady(s, r, which);
    RunLess(s, r, which);
  }

  lemma NextReady(s: Sys, r: Id, which: Which)
    requires Inv(s) && r < |s.reqs| && Completable(s.reqs[r]) && !s.reqs[r].respond.Awaiting?
    requires ThreadOf(s.reqs[r], which) != End && (which.OfHandler? ==> s.reqs[r].responseThread.prog == End)
    ensures !s.crashed && Ready(ThreadOf(s.reqs[r], which), s.Evt(s.reqs[r].evt))
  {
    var q := s.reqs[r];
    RunnerInUse(s, r, which);
    InPlace(s, r);
    match which {
      case OfResponse => ResponseReady(r, q, s.Evt(q.evt));
      case OfHandler => HandlerReady(r, q, s.Evt(q.evt));
      case OfException => ExceptionReady(r, q, s.Evt(q.evt));
    }
  }

  lemma ResponseReady(r: Id, q: Req, e: Evt)
    requires EventInv(r, q, e) && q.responseThread.prog != End && Completable(q)
    ensures Ready(q.responseThread.prog, e)
  {}

  // With the responder done, the token the handler's goroutine waits for is there.
  lemma HandlerReady(r: Id, q: Req, e: Evt)
    requires EventInv(r, q, e) && q.handlerThread.prog != End && q.responseThread.prog == End
    requires Completable(q) && !q.respond.Awaiting?
    ensures Ready(q.handlerThread.prog, e)
  {}

  lemma ExceptionReady(r: Id, q: Req, e: Evt)
    requires EventInv(r, q, e) && q.exception != End
    ensures Ready(q.exception, e)
  {}

  // The request goroutine, once the goroutines it waits for are done.
  lemma ReturnHelps(s: Sys, r: Id) returns (a: Action)
    requires Inv(s) && r < |s.reqs| && Completable(s.reqs[r])
    requires s.reqs[r].http.Calling? || s.reqs[r].http.Failing? || s.reqs[r].http.Waiting?
    requires s.reqs[r].handler.Finished? || s.reqs[r].handler.Thrown?
    requires s.reqs[r].handlerThread.prog == End && (s.reqs[r].exception == End || s.reqs[r].http.Calling?)
    ensures Helps(s, r, a)
  {
    var q := s.reqs[r];
    if q.http.Waiting? {
      a := WaitReturn(r);
      WokenLess(s, r);
    } else {
      assert q.Open() && (q.http.Failing? ==> q.handler.Thrown?) by { assert ReqInv(s, r) && RequestInv(q); }
      a := EnterHelps(s, r);
    }
  }

  lemma EnterHelps(s: Sys, r: Id) returns (a: Action)
    requires Inv(s) && r < |s.reqs| && Completable(s.reqs[r]) && s.reqs[r].Open()
    requires s.reqs[r].http.Calling? || (s.reqs[r].http.Failing? && s.reqs[r].exception == End)
    requires s.reqs[r].handler.Finished? || s.reqs[r].handler.Thrown?
    ensures Helps(s, r, a)
  {
    var q := s.reqs[r];
    if q.http.Calling? && q.handler.Thrown? {
      a := EnterException(r);
      SetHelps(s, r, a, q.(http := Failing));
    } else {
      a := EnterWait(r);
      SetHelps(s, r, a, q.(http := Waiting));
    }
  }

  lemma WokenLess(s: Sys, r: Id)
    requires Inv(s) && r < |s.reqs| && Completable(s.reqs[r]) && s.reqs[r].http.Waiting?
    requires s.reqs[r].handler.Finished? || s.reqs[r].handler.Thrown?
    requires s.reqs[r].handlerThread.prog == End && s.reqs[r].exception == End
    ensures Helps(s, r, WaitReturn(r))
  {
    var q := s.reqs[r];
    NotReturnedInUse(s, r);
    assert q.Open() && s.Evt(q.evt).requestDone > 0 by { InPlace(s, r); }
    assert q.waiter.NoWait? && q.releaser.NoRelease? by { assert ReqInv(s, r) && RequestInv(q); }
    WokenWork(s, DoWaitReturn(s, r), r);
    StepHelps(s, r, WaitReturn(r), DoWaitReturn(s, r));
  }

  lemma WokenWork(s: Sys, s': Sys, r: Id)
    requires r < |s.reqs| && s.reqs[r].http.Waiting? && s.reqs[r].waiter.NoWait? && s.reqs[r].releaser.NoRelease?
    requires s' == DoWaitReturn(s, r)
    ensures r < |s'.reqs| && s'.reqs[r].respond == s.reqs[r].respond && Work(s', r) < Work(s, r)
  {
    WorkReturned(s.reqs[r]);
    PlainLess(s, s', r);
  }

  lemma WorkReturned(q: Req)
    requires q.http.Waiting? && q.waiter.NoWait? && q.releaser.NoRelease?
    ensures OwnWork(q.(http := Returned, waiter := Begin, releaser := OnCancelled)) < OwnWork(q)
  {}

  // A late read, and the callback that follows it.
  lemma TaskHelps(s: Sys, r: Id, i: nat) returns (a: Action)
    requires Inv(s) && r < |s.reqs| && Completable(s.reqs[r])
    requires i < |s.reqs[r].tasks| && !s.reqs[r].tasks[i].pc.TaskDone?
    ensures Helps(s, r, a)
  {
    var q := s.reqs[r];
    assert q.Open() by { TaskInUse(s, r, i); }
    if q.tasks[i].pc.InFlight? {
      a := RunTask(r, i);
      ReadLess(s, r, i);
    } else {
      a := EndTask(r, i);
      TaskLess(q, i, TaskDone);
      SetHelps(s, r, a, SetTask(q, i, TaskDone));
    }
  }

  lemma ReadLess(s: Sys, r: Id, i: nat)
    requires Inv(s) && r < |s.reqs| && Completable(s.reqs[r]) && s.reqs[r].Open()
    requires i < |s.reqs[r].tasks| && s.reqs[r].tasks[i].pc.InFlight?
    ensures Helps(s, r, RunTask(r, i))
  {
    var pc := TaskFound(s, r, i);
    TaskLess(s.reqs[r], i, pc);
    SetHelps(s, r, RunTask(r, i), SetTask(s.reqs[r], i, pc));
  }

  lemma TaskFound(s: Sys, r: Id, i: nat) returns (pc: TaskPc)
    requires Inv(s) && r < |s.reqs| && i < |s.reqs[r].tasks| && s.reqs[r].tasks[i].pc.InFlight?
    ensures pc.Queued? && DoRunTask(s, r, i) == s.(reqs := s.reqs[r := SetTask(s.reqs[r], i, pc)])
  {
    TaskFinds(s, r, i);
    pc := Queued(if s.reqs[r].tasks[i].late.UseKV? then Some(s.reqs[r].ctx) else None);
  }

  lemma TaskLess(q: Req, i: nat, pc: TaskPc)
    requires i < |q.tasks| && TaskWork(pc) < TaskWork(q.tasks[i].pc)
    ensures OwnWork(SetTask(q, i, pc)) < OwnWork(q)
  {
    TasksWorkUpdate(q.tasks, i, q.tasks[i].(pc := pc));
  }

  // The wrappers of waitUntil and the request context.
  lemma ConcludeHelps(s: Sys, r: Id, k: nat) returns (a: Action)
    requires Inv(s) && r < |s.reqs| && Completable(s.reqs[r]) && AllSettled(s.reqs[r])
    requires k < |s.reqs[r].wrappers| && !s.reqs[r].wrappers[k].WrapperDone?
    ensures Helps(s, r, a)
  {
    var q := s.reqs[r];
    if q.wrappers[k].AwaitingPromise? {
      a := Fulfil(r, k, true);
      WrapperOpen(s, r, k);
      FulfilHelps(s, r, k);
    } else {
      a := if q.wrappers[k].ResolveDue? then CallResolve(r, k) else CallReject(r, k);
      CallLess(s, r, k);
      StepHelps(s, r, a, DoConclude(s, r, k));
    }
  }

  lemma FulfilHelps(s: Sys, r: Id, k: nat)
    requires !s.crashed && r < |s.reqs| && Completable(s.reqs[r]) && AllSettled(s.reqs[r]) && s.reqs[r].Open()
    requires k < |s.reqs[r].wrappers| && s.reqs[r].wrappers[k].AwaitingPromise?
    ensures Helps(s, r, Fulfil(r, k, true))
  {
    WrapperLess(s.reqs[r], SetWrapper(s.reqs[r], k, ResolveDue), k);
    SetHelps(s, r, Fulfil(r, k, true), SetWrapper(s.reqs[r], k, ResolveDue));
  }

  lemma WrapperOpen(s: Sys, r: Id, k: nat)
    requires Inv(s) && r < |s.reqs| && k < |s.reqs[r].wrappers| && !s.reqs[r].wrappers[k].WrapperDone?
    ensures s.reqs[r].Open()
  {
    assert WrappersInv(s.reqs[r]) by { assert ReqInv(s, r) && RequestInv(s.reqs[r]); }
    LiveInUse(s, r, ByExtender(k));
    InPlace(s, r);
  }

  lemma WrapperLess(q: Req, q': Req, k: nat)
    requires k < |q.wrappers| == |q'.wrappers| && WrapperWork(q'.wrappers[k]) < WrapperWork(q.wrappers[k])
    requires q' == q.(extenders := q'.extenders, wrappers := q.wrappers[k := q'.wrappers[k]])
    ensures OwnWork(q') < OwnWork(q)
  {
    WrappersWorkUpdate(q.wrappers, k, q'.wrappers[k]);
  }

  lemma CallLess(s: Sys, r: Id, k: nat)
    requires Inv(s) && r < |s.reqs| && k < |s.reqs[r].wrappers|
    requires s.reqs[r].wrappers[k].ResolveDue? || s.reqs[r].wrappers[k].RejectDue?
    ensures !ConcludeFails(s, r) && |DoConclude(s, r, k).reqs| == |s.reqs|
    ensures DoConclude(s, r, k).reqs[r].respond == s.reqs[r].respond && Work(DoConclude(s, r, k), r) < Work(s, r)
  {
    WrapperOpen(s, r, k);
    KeepsConclude(s, r, k);
    WrapperLess(s.reqs[r], Concluded(s.reqs[r], k), k);
    PlainLess(s, DoConclude(s, r, k), r);
  }

  lemma CancelHelps(s: Sys, r: Id) returns (a: Action)
    requires Inv(s) && r < |s.reqs| && Completable(s.reqs[r]) && s.reqs[r].Open() && !s.reqs[r].gone
    ensures Helps(s, r, a)
  {
    a := Cancel(r);
    PlainLess(s, Apply(s, a), r);
  }

  // What the context of a returned request looks like before the first cleanup.
  lemma ReturnedFacts(s: Sys, r: Id)
    requires Inv(s) && r < |s.reqs| && s.reqs[r].http.Returned? && InUse(s.reqs[r])
    ensures var q, x := s.reqs[r], s.Ctx(s.reqs[r].ctx);
      && q.ctx < |s.ctxs| && q.Open()
      && x.extenders == Trues(q.extenders) && x.fetches == CountedIn(q.fetches)
      && x.request == Some(r) && x.extended == (if q.waiter.Ended? then Cancelled else Uncancelled)
  {
    InPlace(s, r);
  }

  predicate AllCalled(q: Req) { forall k :: 0 <= k < |q.wrappers| ==> q.wrappers[k].WrapperDone? }

  lemma NoneOutstanding(s: Sys, r: Id)
    requires Inv(s) && r < |s.reqs| && AllCalled(s.reqs[r])
    ensures Trues(s.reqs[r].extenders) == 0
  {
    assert WrappersInv(s.reqs[r]) by { assert ReqInv(s, r) && RequestInv(s.reqs[r]); }
    TruesZero(s.reqs[r].extenders);
  }

  // The wait goroutine, once the extenders have concluded and the context is done.
  lemma WaitHelps(s: Sys, r: Id) returns (a: Action)
    requires Inv(s) && r < |s.reqs| && Completable(s.reqs[r]) && s.reqs[r].http.Returned? && !s.reqs[r].waiter.Ended?
    requires AllCalled(s.reqs[r]) && s.reqs[r].gone
    ensures Helps(s, r, a)
  {
    var q, x := s.reqs[r], s.Ctx(s.reqs[r].ctx);
    assert !q.waiter.NoWait? && InUse(q) by { assert ReqInv(s, r) && RequestInv(q); }
    ReturnedFacts(s, r);
    NoneOutstanding(s, r);
    a := WaitStep(r);
    if q.waiter.ToCancel? {
      CancelLess(s, r);
    } else {
      AdvanceLess(s, r);
    }
  }

  lemma AdvanceLess(s: Sys, r: Id)
    requires !s.crashed && r < |s.reqs| && Completable(s.reqs[r]) && s.reqs[r].Open()
    requires s.reqs[r].waiter.Begin? || s.reqs[r].waiter.OnExtenders? || s.reqs[r].waiter.OnReqCtx?
    requires s.Ctx(s.reqs[r].ctx).extenders == 0 && s.Ctx(s.reqs[r].ctx).request == Some(r) && s.reqs[r].gone
    ensures Helps(s, r, WaitStep(r))
  {
    var q, x := s.reqs[r], s.Ctx(s.reqs[r].ctx);
    var w := if !q.waiter.Begin? then ToCancel else if x.shouldExtend then OnExtenders else OnReqCtx;
    SetHelps(s, r, WaitStep(r), q.(waiter := w));
  }

  lemma CancelLess(s: Sys, r: Id)
    requires !s.crashed && r < |s.reqs| && Completable(s.reqs[r]) && s.reqs[r].waiter.ToCancel?
    requires s.reqs[r].ctx < |s.ctxs| && s.reqs[r].Open() && s.Ctx(s.reqs[r].ctx).extended.Uncancelled?
    ensures Helps(s, r, WaitStep(r))
  {
    CancelWork(s, DoWaitStep(s, r), r);
    StepHelps(s, r, WaitStep(r), DoWaitStep(s, r));
  }

  lemma CancelWork(s: Sys, s': Sys, r: Id)
    requires r < |s.reqs| && s.reqs[r].waiter.ToCancel? && s' == DoWaitStep(s, r)
    requires s.reqs[r].ctx < |s.ctxs| && s.reqs[r].Open() && s.Ctx(s.reqs[r].ctx).extended.Uncancelled?
    ensures r < |s'.reqs| && s'.reqs[r].respond == s.reqs[r].respond && Work(s', r) < Work(s, r)
  {
    var q, x := s.reqs[r], s.Ctx(s.reqs[r].ctx);
    assert s' == s.(reqs := s.reqs[r := q.(waiter := Ended)], ctxs := s.ctxs[q.ctx := x.(extended := Cancelled)]);
    PlainLess(s, s', r);
  }

  // The release goroutine, once wait has cancelled and the fetches are done.
  lemma ReleaseHelps(s: Sys, r: Id) returns (a: Action)
    requires Inv(s) && r < |s.reqs| && Completable(s.reqs[r]) && AllSettled(s.reqs[r])
    requires s.reqs[r].waiter.Ended? && s.reqs[r].Open()
    ensures Helps(s, r, a)
  {
    var q := s.reqs[r];
    a := ReleaseStep(r);
    assert !q.http.GotContext? by { assert ReqInv(s, r) && RequestInv(q); }
    if q.releaser.Cleaning? {
      CleanLess(s, r);
    } else if q.releaser.Putting? {
      PutLess(s, r);
    } else {
      ReleaseWaits(s, r);
    }
  }

  lemma ReleaseWaits(s: Sys, r: Id)
    requires Inv(s) && r < |s.reqs| && Completable(s.reqs[r]) && AllSettled(s.reqs[r])
    requires s.reqs[r].waiter.Ended? && InUse(s.reqs[r])
    ensures Helps(s, r, ReleaseStep(r))
  {
    ReleaseReady(s, r);
    PhaseLess(s, r);
  }

  lemma PhaseLess(s: Sys, r: Id)
    requires !s.crashed && r < |s.reqs| && Completable(s.reqs[r])
    requires s.reqs[r].releaser.OnCancelled? || s.reqs[r].releaser.OnFetches?
    requires s.Ctx(s.reqs[r].ctx).extended.Cancelled? && s.Ctx(s.reqs[r].ctx).fetches == 0
    ensures Helps(s, r, ReleaseStep(r))
  {
    var q := s.reqs[r];
    SetHelps(s, r, ReleaseStep(r), q.(releaser := if q.releaser.OnCancelled? then OnFetches else Cleaning));
  }

  lemma ReleaseReady(s: Sys, r: Id)
    requires Inv(s) && r < |s.reqs| && AllSettled(s.reqs[r]) && s.reqs[r].waiter.Ended? && InUse(s.reqs[r])
    ensures var q, x := s.reqs[r], s.Ctx(s.reqs[r].ctx);
      (q.releaser.OnCancelled? || q.releaser.OnFetches?) && x.extended.Cancelled? && x.fetches == 0 && !s.crashed
  {
    assert RequestInv(s.reqs[r]) by { assert ReqInv(s, r); }
    ReturnedFacts(s, r);
    CountedNone(s.reqs[r].fetches);
  }

  lemma CleanLess(s: Sys, r: Id)
    requires Inv(s) && r < |s.reqs| && Completable(s.reqs[r]) && s.reqs[r].releaser.Cleaning?
    ensures Helps(s, r, ReleaseStep(r))
  {
    if Stack(s, r) != [] {
      PopLess(s, r);
    } else {
      assert s.reqs[r].ctx < |s.ctxs| by { assert ReqInv(s, r); }
      RetireLess(s, r);
    }
  }

  lemma PopLess(s: Sys, r: Id)
    requires Inv(s) && r < |s.reqs| && Completable(s.reqs[r]) && s.reqs[r].releaser.Cleaning? && Stack(s, r) != []
    ensures Helps(s, r, ReleaseStep(r))
  {
    PopWork(s, DoReleaseStep(s, r), r);
    StepHelps(s, r, ReleaseStep(r), DoReleaseStep(s, r));
  }

  lemma PopWork(s: Sys, s': Sys, r: Id)
    requires Inv(s) && r < |s.reqs| && s.reqs[r].releaser.Cleaning? && Stack(s, r) != [] && s' == DoReleaseStep(s, r)
    ensures r < |s'.reqs| && s'.reqs[r].respond == s.reqs[r].respond && Work(s', r) < Work(s, r)
  {
    TopFacts(s, r);
    CleanShrinks(s, r, Stack(s, r)[|Stack(s, r)| - 1]);
    assert |Stack(s', r)| == |Stack(s, r)| - 1;
  }

  lemma RetireLess(s: Sys, r: Id)
    requires !s.crashed && r < |s.reqs| && Completable(s.reqs[r]) && s.reqs[r].releaser.Cleaning? && Stack(s, r) == []
    requires s.reqs[r].ctx < |s.ctxs|
    ensures Helps(s, r, ReleaseStep(r))
  {
    RetireWork(s, DoReleaseStep(s, r), r);
    StepHelps(s, r, ReleaseStep(r), DoReleaseStep(s, r));
  }

  lemma RetireWork(s: Sys, s': Sys, r: Id)
    requires r < |s.reqs| && s.reqs[r].releaser.Cleaning? && Stack(s, r) == [] && s' == DoReleaseStep(s, r)
    requires s.reqs[r].ctx < |s.ctxs|
    ensures r < |s'.reqs| && s'.reqs[r].respond == s.reqs[r].respond && Work(s', r) < Work(s, r)
  {
    var q := s.reqs[r];
    assert s' == s.(reqs := s.reqs[r := q.(releaser := Putting)], ctxs := s.ctxs[q.ctx := s.ctxs[q.ctx].Retire()]);
    PlainLess(s, s', r);
  }

  lemma PutLess(s: Sys, r: Id)
    requires !s.crashed && r < |s.reqs| && Completable(s.reqs[r]) && s.reqs[r].releaser.Putting?
    ensures Helps(s, r, ReleaseStep(r))
  {
    PutWork(s, DoReleaseStep(s, r), r);
    StepHelps(s, r, ReleaseStep(r), DoReleaseStep(s, r));
  }

  lemma PutWork(s: Sys, s': Sys, r: Id)
    requires r < |s.reqs| && s.reqs[r].releaser.Putting? && s' == DoReleaseStep(s, r)
    ensures r < |s'.reqs| && s'.reqs[r].respond == s.reqs[r].respond && Work(s', r) < Work(s, r)
  {
    var q := s.reqs[r];
    assert s' == s.(reqs := s.reqs[r := q.(releaser := Closed)], pools := s'.pools, home := s'.home);
    PlainLess(s, s', r);
  }

  // In every state of an open request, some step helps.
  lemma SomethingHelps(s: Sys, r: Id) returns (a: Action)
    requires Inv(s) && r < |s.reqs| && Completable(s.reqs[r]) && s.reqs[r].Open()
    ensures Helps(s, r, a)
  {
    var q := s.reqs[r];
    assert RequestInv(q) by { assert ReqInv(s, r); }
    if q.http.GotContext? || q.http.Prepared? || q.handler.InCall? {
      a := StartHelps(s, r);
    } else if i :| 0 <= i < |q.fetches| && Busy(q.fetches[i]) {
      a := FetchHelps(s, r, i);
    } else if i :| 0 <= i < |q.tasks| && !q.tasks[i].pc.TaskDone? {
      a := TaskHelps(s, r, i);
    } else if q.respond.Awaiting? || q.handler.Pending? {
      a := PromiseHelps(s, r);
    } else if !q.http.Returned? {
      a := AnswerHelps(s, r);
    } else if k :| 0 <= k < |q.wrappers| && !q.wrappers[k].WrapperDone? {
      a := ConcludeHelps(s, r, k);
    } else if !q.gone {
      a := CancelHelps(s, r);
    } else if !q.waiter.Ended? {
      a := WaitHelps(s, r);
    } else {
      a := ReleaseHelps(s, r);
    }
  }

  lemma AnswerHelps(s: Sys, r: Id) returns (a: Action)
    requires Inv(s) && r < |s.reqs| && Completable(s.reqs[r])
    requires s.reqs[r].http.Calling? || s.reqs[r].http.Failing? || s.reqs[r].http.Waiting?
    requires s.reqs[r].handler.Finished? || s.reqs[r].handler.Thrown?
    requires !s.reqs[r].respond.Awaiting?
    ensures Helps(s, r, a)
  {
    var q := s.reqs[r];
    if q.responseThread.prog != End || q.handlerThread.prog != End || (q.exception != End && q.http.Failing?) {
      a := GoroutineHelps(s, r);
    } else {
      assert q.exception == End || q.http.Calling? by {
        NotReturnedInUse(s, r);
        InPlace(s, r);
      }
      a := ReturnHelps(s, r);
    }
  }

  // The run that brings the context back.
  lemma {:induction false} RunToClose(s: Sys, r: Id) returns (actions: seq<Action>)
    requires Inv(s) && r < |s.reqs| && Completable(s.reqs[r])
    ensures Closes(s, r, actions)
    decreases Work(s, r)
  {
    if !s.reqs[r].Open() {
      actions := [];
    } else {
      var a := SomethingHelps(s, r);
      StepKeeps(s, a);
      var rest := RunToClose(Apply(s, a), r);
      actions := [a] + rest;
      assert actions[0] == a && actions[1..] == rest;
    }
  }

  // A run that obeys the rule and ends with the request's context given back.
  predicate Closes(s: Sys, r: Id, actions: seq<Action>) {
    Runs(s, actions) && r < |After(s, actions).reqs| && !After(s, actions).reqs[r].Open()
  }

  // No reachable state has lost a request: its IOContext can still be returned,
  // by a run that obeys the rule, exactly when its respondWith promise has not been
  // rejected with undefined.
  lemma CompletableExactly(s: Sys, r: Id)
    requires Reachable(s) && r < |s.reqs|
    ensures (exists actions :: Closes(s, r, actions)) <==> s.reqs[r].respond != Fired(ErroredUndefined)
  {
    ReachableInv(s);
    if s.reqs[r].respond != Fired(ErroredUndefined) {
      var actions := RunToClose(s, r);
    } else {
      forall actions ensures !Closes(s, r, actions) {
        if Runs(s, actions) { NeverReturns(s, r, actions); }
      }
    }
  }

  // With it rejected so, the request goroutine waits for ever.
  lemma NeverReturns(s: Sys, r: Id, actions: seq<Action>)
    requires Inv(s) && r < |s.reqs| && s.reqs[r].respond == Fired(ErroredUndefined) && Runs(s, actions)
    ensures r < |After(s, actions).reqs| && !After(s, actions).reqs[r].http.Returned?
    ensures After(s, actions).reqs[r].Open()
  {
    RunKeeps(s, actions);
    RunAdvancesAll(s, actions);
    var t := After(s, actions);
    assert Advances(s.reqs[r], t.reqs[r]) && RequestInv(t.reqs[r]) by { assert ReqInv(t, r); }
  }
}
