// What holds in every reachable state of the runtime instance, with any number of
// requests and any reuse of objects.
module Theorems {
  import opened Base
  import opened Objects
  import opened Programs
  import opened Potentials
  import opened Middleware
  import opened Invariants
  import opened EventSteps
  import opened LocalSteps
  import opened RequestSteps
  import opened FetchSteps
  import opened TakeSteps
  import opened EndSteps
  import opened TaskSteps
  import opened Safety
  import opened History

  // No nil dereference, negative counter or over-released semaphore ever happens,
  // and a step that obeys the rule leads to another reachable state.
  lemma NeverCrashes(s: Sys, a: Action)
    requires Reachable(s) && Enabled(s, a) && Obeys(s, a)
    ensures !s.crashed && !Apply(s, a).crashed && Reachable(Apply(s, a))
  {
    ReachableInv(s);
    StepKeeps(s, a);
    ReachesOn(s, a);
  }

  lemma ReachesOn(s: Sys, a: Action)
    requires Reachable(s) && Enabled(s, a) && Obeys(s, a)
    ensures Reachable(Apply(s, a))
  {
    var actions :| Runs(Init(), actions) && After(Init(), actions) == s;
    Extend(Init(), actions, a);
  }

  lemma {:induction false} Extend(s: Sys, actions: seq<Action>, a: Action)
    requires Runs(s, actions) && Enabled(After(s, actions), a) && Obeys(After(s, actions), a)
    ensures Runs(s, actions + [a]) && After(s, actions + [a]) == Apply(After(s, actions), a)
    decreases |actions|
  {
    var longer := actions + [a];
    if actions != [] {
      assert longer[0] == actions[0] && longer[1..] == actions[1..] + [a];
      Extend(Apply(s, actions[0]), actions[1..], a);
    } else {
      assert longer[1..] == [];
      assert Runs(Apply(s, a), []);
    }
  }

  // Every promise has settled, no wrapper has still to call back, and no goroutine that reads
  // shared state late has still to read or to settle.
  ghost predicate AtRest(q: Req) {
    && !q.handler.InCall? && !q.handler.Pending? && !q.respond.Awaiting?
    && (forall k :: 0 <= k < |q.extenders| ==> !q.extenders[k])
    && (forall k :: 0 <= k < |q.wrappers| ==> q.wrappers[k].WrapperDone?)
    && (forall i :: 0 <= i < |q.tasks| ==> q.tasks[i].pc.TaskDone?)
    && (forall i :: 0 <= i < |q.fetches| ==>
          q.fetches[i].callback.Settled? && (q.fetches[i].pc.Releasing? || q.fetches[i].pc.Gone?))
    && q.handlerThread.prog == q.responseThread.prog == q.exception == End
  }

  lemma EndedAtRest(q: Req)
    requires RequestInv(q) && (q.releaser.Cleaning? || q.releaser.Putting? || q.releaser.Closed?)
    ensures AtRest(q)
  {
    assert Quiet(q);
    assert !Live(q, ByHandler) && !Live(q, ByResponse);
    assert ThreadOf(q, OfHandler) == ThreadOf(q, OfResponse) == ThreadOf(q, OfException) == End;
    forall k | 0 <= k < |q.extenders| ensures !q.extenders[k] { assert !Live(q, ByExtender(k)); }
    forall i | 0 <= i < |q.fetches| ensures q.fetches[i].callback.Settled? { assert FetchInv(q, q.fetches[i]); }
    forall i | 0 <= i < |q.tasks| ensures q.tasks[i].pc.TaskDone? { assert TaskInv(q, q.tasks[i]); }
    forall k | 0 <= k < |q.wrappers| ensures q.wrappers[k].WrapperDone? { assert !q.extenders[k]; }
  }

  // Cleanup safety: while cleanup functions run, the handler has returned, nobody
  // is live, every waitUntil has concluded, every late read has been made, every
  // fetch has settled and passed fetchGroup.Done, and the response is complete.
  lemma CleanupSafety(s: Sys, r: Id)
    requires Reachable(s) && r < |s.reqs| && s.reqs[r].releaser.Cleaning?
    ensures var q := s.reqs[r]; var x := s.Ctx(q.ctx);
      && q.http.Returned? && AtRest(q)
      && x.extenders == 0 && x.fetches == 0 && x.extended.Cancelled?
  {
    ReachableInv(s);
    assert ReqInv(s, r) && OpenInv(s, r);
    var q := s.reqs[r];
    EndedAtRest(q);
    CountedNone(q.fetches);
    TruesZero(q.extenders);
  }

  // Late reads are right: until its callback has run and its count is released, a
  // fetch finds its fetcher bound to the context of the request that made it, and
  // what it captured is that context; that context belongs to that request.
  lemma FetchKeepsItsContext(s: Sys, r: Id, i: nat)
    requires Reachable(s) && r < |s.reqs| && i < |s.reqs[r].fetches|
    requires !s.reqs[r].fetches[i].callback.Settled? || IsCounted(s.reqs[r].fetches[i].pc)
    ensures var q := s.reqs[r]; var g := q.fetches[i];
      && s.Fetcher(g.fetcher).ioContext == Some(q.ctx)
      && (!g.pc.Start? && !g.pc.Gone? ==> g.pc.ctx == q.ctx)
      && Obj(KContext, q.ctx) in s.home && s.home[Obj(KContext, q.ctx)] == Owned(r)
      && s.Ctx(q.ctx).request == Some(r)
  {
    ReachableInv(s);
    assert ReqInv(s, r) && FetchInv(s.reqs[r], s.reqs[r].fetches[i]);
    if !s.reqs[r].fetches[i].callback.Settled? {
      LiveInUse(s, r, s.reqs[r].fetches[i].owner);
    } else {
      FetchInUse(s, r, i);
    }
    FetcherBound(s, r, i);
    InPlace(s, r);
    Mine(s, r);
  }

  // While the handler, its response or a waitUntil goes on, the request's event still
  // points at its own context, and that context is not in any other hands.
  lemma EventKeepsItsContext(s: Sys, r: Id)
    requires Reachable(s) && r < |s.reqs|
    requires var q := s.reqs[r];
      || q.handler.InCall? || q.handler.Pending? || q.respond.Awaiting?
      || exists k :: 0 <= k < |q.extenders| && q.extenders[k]
    ensures var q := s.reqs[r]; var e := s.Evt(q.evt);
      && e.ioContext == Some(q.ctx) && e.http == Some(r)
      && Obj(KContext, q.ctx) in s.home && s.home[Obj(KContext, q.ctx)] == Owned(r)
      && Obj(KEvent, q.evt) in s.home && s.home[Obj(KEvent, q.evt)] == Owned(r)
      && s.Ctx(q.ctx).request == Some(r)
  {
    ReachableInv(s);
    var q := s.reqs[r];
    if k :| 0 <= k < |q.extenders| && q.extenders[k] {
      LiveInUse(s, r, ByExtender(k));
    } else {
      LiveInUse(s, r, if q.respond.Awaiting? then ByResponse else ByHandler);
    }
    InPlace(s, r);
    Mine(s, r);
  }

  // Two more late reads: until it has settled, readInto's goroutine finds the stream
  // with its reader, the stream being on the stack of the request that called it, and
  // the goroutine of a KV operation finds the context of its own request, which is
  // uncancelled and in no other hands.
  lemma LateReadsFindTheirs(s: Sys, r: Id, i: nat)
    requires Reachable(s) && r < |s.reqs| && i < |s.reqs[r].tasks| && !s.reqs[r].tasks[i].pc.TaskDone?
    ensures var q := s.reqs[r];
      && !q.releaser.Cleaning? && !q.releaser.Putting? && !q.releaser.Closed?
      && Obj(KContext, q.ctx) in s.home && s.home[Obj(KContext, q.ctx)] == Owned(r)
      && s.Ctx(q.ctx).request == Some(r) && s.Ctx(q.ctx).extended == Uncancelled
      && match q.tasks[i].late
         case ReadInto(t) => s.Stream(t).reader && Return(Obj(KStream, t)) in Stack(s, r)
         case UseKV => s.Evt(q.evt).kv == Some(q.ctx)
                       && (q.tasks[i].pc.Queued? ==> q.tasks[i].pc.found == Some(q.ctx))
  {
    ReachableInv(s);
    TaskInUse(s, r, i);
    LiveInUse(s, r, s.reqs[r].tasks[i].owner);
    TaskFinds(s, r, i);
    InPlace(s, r);
    Mine(s, r);
    assert TaskInv(s.reqs[r], s.reqs[r].tasks[i]) by { assert ReqInv(s, r) && RequestInv(s.reqs[r]); }
  }

  // The conclude callback never fails: whichever of its two calls the wrapper makes,
  // it lowers the counter of its own request's context by one, and the wrapper is done.
  lemma ConcludeNeverFails(s: Sys, r: Id, k: nat)
    requires Reachable(s) && (Enabled(s, CallResolve(r, k)) || Enabled(s, CallReject(r, k)))
    ensures var c := s.reqs[r].ctx;
      var s' := if Enabled(s, CallResolve(r, k)) then DoCallResolve(s, r, k) else DoCallReject(s, r, k);
      && !s'.crashed && s.Ctx(c).extenders >= 1 && s.Ctx(c).request == Some(r)
      && c < |s.ctxs| && s'.ctxs == s.ctxs[c := s.ctxs[c].(extenders := s.ctxs[c].extenders - 1)]
      && s'.reqs == s.reqs[r := Concluded(s.reqs[r], k)]
  {
    ReachableInv(s);
    ConcludeGoes(s, r, k);
    KeepsConclude(s, r, k);
    InPlace(s, r);
  }

  // A context in the pool is touched by no earlier request, a pending Release apart:
  // no goroutine, wrapper or live owner of a request that had it is left.
  lemma PooledContextIsQuiet(s: Sys, c: Id)
    requires Reachable(s) && c in s.Queue(KContext)
    ensures s.Ctx(c).Idle()
    ensures forall r :: 0 <= r < |s.reqs| && s.reqs[r].ctx == c ==> s.reqs[r].releaser.Closed? && AtRest(s.reqs[r])
    ensures forall r, i :: 0 <= r < |s.reqs| && 0 <= i < |s.reqs[r].fetches| && Holds(s.reqs[r].fetches[i].pc, c) ==>
      s.reqs[r].fetches[i].pc.Releasing? && s.reqs[r].fetches[i].callback.Settled?
  {
    ReachableInv(s);
    assert QueueInv(s, KContext);
    assert IsSpare(s, Obj(KContext, c)) && IsReset(s, Obj(KContext, c)) by { assert IsFree(s, Obj(KContext, c)); }
    forall r | 0 <= r < |s.reqs| && s.reqs[r].ctx == c ensures s.reqs[r].releaser.Closed? && AtRest(s.reqs[r]) {
      PooledMeansClosed(s, r);
      EndedAtRest(s.reqs[r]);
    }
    forall r, i | 0 <= r < |s.reqs| && 0 <= i < |s.reqs[r].fetches| && Holds(s.reqs[r].fetches[i].pc, c)
      ensures s.reqs[r].fetches[i].pc.Releasing? && s.reqs[r].fetches[i].callback.Settled?
    {
      assert FetchInv(s.reqs[r], s.reqs[r].fetches[i]) by { assert ReqInv(s, r); }
      assert AtRest(s.reqs[r]);
    }
  }

  lemma PooledMeansClosed(s: Sys, r: Id)
    requires Inv(s) && r < |s.reqs| && IsFree(s, Obj(KContext, s.reqs[r].ctx))
    ensures s.reqs[r].releaser.Closed? && RequestInv(s.reqs[r])
  {
    assert ReqInv(s, r);
    if s.reqs[r].Open() { Mine(s, r); }
  }

  // The request goroutine returns with exactly one outcome: next was served, the
  // response was copied, 204, or 500; nothing only if the handler threw and the
  // client was already gone.
  lemma ExactlyOneOutcome(s: Sys, r: Id)
    requires Reachable(s) && r < |s.reqs| && s.reqs[r].http.Returned?
    ensures var q := s.reqs[r];
      match q.respond
      case Fired(Copied(code)) => q.trace == [Status(code), Body]
      case Fired(NoContent) => q.trace == [Status(204)]
      case Fired(Errored) => q.trace == [Status(500), Body]
      case Fired(ErroredUndefined) => false
      case Awaiting => false
      case Unused =>
        match q.handler
        case Finished(true) => q.trace == [Next]
        case Finished(false) => q.trace == [Status(500), Body]
        case Thrown => q.trace == if q.spared then [] else [Status(500), Body]
        case _ => false
  {
    ReachableInv(s);
    assert ReqInv(s, r);
    if s.reqs[r].respond.Fired? { ResponderWrites(s.reqs[r].respond.outcome); }
  }

  lemma ResponderWrites(o: Outcome)
    ensures Writes(Responder(o), true) == match o
                                          case Copied(code) => [Status(code), Body]
                                          case NoContent => [Status(204)]
                                          case Errored => [Status(500), Body]
                                          case ErroredUndefined => [Status(500)]
  {
    var d := SendResponse(End);
    assert Writes(d, true) == [];
    assert Writes(Mark(d), true) == [];
    assert Writes(WriteBody(d), true) == [Body];
    assert Writes(WriteBody(Mark(d)), true) == [Body];
    forall code ensures Writes(WriteStatus(code, WriteBody(d)), true) == [Status(code), Body] {}
    assert Writes(WriteStatus(500, WriteBody(Mark(d))), true) == [Status(500), Body];
    assert Writes(WriteStatus(204, d), true) == [Status(204)];
  }

  function Statuses(trace: seq<Write>): nat {
    if trace == [] then 0 else Statuses(trace[..|trace| - 1]) + Bit(trace[|trace| - 1].Status?)
  }

  lemma {:induction false} StatusesPrefix(t: seq<Write>, u: seq<Write>)
    ensures Statuses(t) <= Statuses(t + u)
  {
    if u != [] {
      assert (t + u)[..|t + u| - 1] == t + u[..|u| - 1];
      StatusesPrefix(t, u[..|u| - 1]);
    } else {
      assert t + u == t;
    }
  }

  // At any moment what has been written is the beginning of one outcome, so the
  // status is written at most once, and never together with next.
  lemma StatusAtMostOnce(s: Sys, r: Id)
    requires Reachable(s) && r < |s.reqs|
    ensures s.reqs[r].trace <= DueWrites(s.reqs[r])
    ensures Statuses(s.reqs[r].trace) <= 1
    ensures Next in s.reqs[r].trace ==> s.reqs[r].trace == [Next]
  {
    ReachableInv(s);
    TraceDue(s, r);
    TraceShort(s.reqs[r]);
  }

  lemma TraceDue(s: Sys, r: Id)
    requires Inv(s) && r < |s.reqs|
    ensures s.reqs[r].trace <= DueWrites(s.reqs[r])
  {
    var q := s.reqs[r];
    assert RequestInv(q) by { assert ReqInv(s, r); }
    if !q.http.Returned? && !q.http.GotContext? {
      assert WritesInv(q, s.Evt(q.evt)) by { InPlace(s, r); }
    }
  }

  lemma TraceShort(q: Req)
    requires q.trace <= DueWrites(q)
    ensures Statuses(q.trace) <= 1
    ensures Next in q.trace ==> q.trace == [Next]
  {
    if q.respond.Fired? { ResponderWrites(q.respond.outcome); }
    var rest := DueWrites(q)[|q.trace|..];
    assert q.trace + rest == DueWrites(q);
    StatusesPrefix(q.trace, rest);
    ShortStatuses(DueWrites(q));
  }

  lemma ShortStatuses(t: seq<Write>)
    requires |t| == 0 || (|t| == 1) || (|t| == 2 && !t[1].Status?)
    ensures Statuses(t) <= 1
  {
    if |t| == 2 { assert t[..1] == [t[0]] && t[..1][..0] == []; }
  }

  // After Wait has returned nothing is written for that request, whatever runs.
  lemma NothingWrittenAfterReturn(s: Sys, r: Id, actions: seq<Action>)
    requires Reachable(s) && r < |s.reqs| && s.reqs[r].http.Returned? && Runs(s, actions)
    ensures r < |After(s, actions).reqs| && After(s, actions).reqs[r].trace == s.reqs[r].trace
  {
    ReachableInv(s);
    RunAdvancesAll(s, actions);
  }

  // Tokens.

  // A goroutine that comes to a channel send finds the channel empty.
  lemma NoSendBlocks(s: Sys, r: Id, which: Which)
    requires Reachable(s) && r < |s.reqs|
    requires ThreadOf(s.reqs[r], which).Wake? || ThreadOf(s.reqs[r], which).SendResponse?
    ensures var e := s.Evt(s.reqs[r].evt);
      && Ready(ThreadOf(s.reqs[r], which), e)
      && (if ThreadOf(s.reqs[r], which).Wake? then e.requestDone == 0 else e.responseDone == 0)
  {
    ReachableInv(s);
    RunnerInUse(s, r, which);
    InPlace(s, r);
    SendFindsRoom(r, s.reqs[r], s.Evt(s.reqs[r].evt), which);
  }

  // A handler's goroutine that waits for the response goes on exactly when the response
  // promise has settled, not with undefined, and its goroutine has come to its end.
  lemma AwaitEndsExactly(s: Sys, r: Id)
    requires Reachable(s) && r < |s.reqs| && s.reqs[r].handlerThread.prog.AwaitResponse?
    ensures var q := s.reqs[r];
      Enabled(s, Run(r, OfHandler)) <==>
      q.respond.Fired? && !q.respond.outcome.ErroredUndefined? && q.responseThread.prog == End
  {
    var q, e := s.reqs[r], s.Evt(s.reqs[r].evt);
    assert !s.crashed && EventInv(r, q, e) by {
      ReachableInv(s);
      RunnerInUse(s, r, OfHandler);
      InPlace(s, r);
    }
    AwaitedToken(r, q, e);
    AwaitGuard(s, r);
  }

  lemma AwaitGuard(s: Sys, r: Id)
    requires !s.crashed && r < |s.reqs| && s.reqs[r].handlerThread.prog.AwaitResponse?
    ensures Enabled(s, Run(r, OfHandler)) <==> s.Evt(s.reqs[r].evt).responseDone > 0
  {}

  lemma AwaitedToken(r: Id, q: Req, e: Evt)
    requires EventInv(r, q, e) && q.handlerThread.prog.AwaitResponse?
    ensures e.responseDone > 0 <==>
      q.respond.Fired? && !q.respond.outcome.ErroredUndefined? && q.responseThread.prog == End
  {
    var p := q.responseThread.prog;
    if Delivers(p) { DeliversSendsOnce(p); }
  }

  // The request goroutine does one thing at a time: it waits only after the exception
  // callback, if it called it, has come to its end.
  lemma RequestGoroutineInTurn(s: Sys, r: Id)
    requires Reachable(s) && r < |s.reqs|
    ensures var q := s.reqs[r];
      && (q.http.GotContext? || q.http.Prepared? ==> q.handler.Uncalled?)
      && (q.handler.InCall? ==> q.http.Calling?)
      && (q.http.Failing? ==> q.handler.Thrown?)
      && (q.exception != End ==> q.handler.Thrown? && (q.http.Calling? || q.http.Failing?))
      && (q.http.Waiting? || q.http.Returned? ==> q.handler != Uncalled && !q.handler.InCall?)
  {
    ReachableInv(s);
    var q := s.reqs[r];
    assert RequestInv(q) by { assert ReqInv(s, r); }
    if q.exception != End {
      RunnerInUse(s, r, OfException);
      assert EventInv(r, q, s.Evt(q.evt)) by { InPlace(s, r); }
    }
  }

  lemma SendFindsRoom(r: Id, q: Req, e: Evt, which: Which)
    requires EventInv(r, q, e)
    requires ThreadOf(q, which).Wake? || ThreadOf(q, which).SendResponse?
    ensures Ready(ThreadOf(q, which), e)
    ensures if ThreadOf(q, which).Wake? then e.requestDone == 0 else e.responseDone == 0
  {}

  // Each request puts one token into requestDone, and takes it: the token is there
  // or taken exactly when the outcome is decided and no goroutine still has to wake.
  lemma OneWakeEach(s: Sys, r: Id)
    requires Reachable(s) && r < |s.reqs| && InUse(s.reqs[r])
    ensures var q := s.reqs[r]; var e := s.Evt(q.evt);
      && e.requestDone <= 1 && e.responseDone <= 1
      && (e.requestDone == 1 <==>
            && (q.handler.Finished? || q.handler.Thrown?) && !q.http.Returned?
            && q.handlerThread.prog == End && q.exception == End)
      && (q.http.Returned? ==> e.requestDone == 0 && e.responseDone == 0)
  {
    ReachableInv(s);
    InPlace(s, r);
    var q, e := s.reqs[r], s.Evt(s.reqs[r].evt);
    if q.handlerThread.prog != End { FinishesWakesOnce(q.handlerThread.prog, e.skipNext); }
    if q.exception != End { FinishesWakesOnce(q.exception, e.skipNext); }
    if q.http.Returned? { assert ReqInv(s, r); ChannelsEmpty(r, q, e); }
  }

  // An event in the pool is reset and its channels are empty, so the next request
  // that takes it is not woken early.
  lemma PooledEventIsFresh(s: Sys, e: Id)
    requires Reachable(s) && e in s.Queue(KEvent)
    ensures s.Evt(e) == NewEvt
  {
    PooledIsReset(s, Obj(KEvent, e));
  }

  // Pools.

  // Every object in a pool, or dropped by a full one, is reset: it holds no request,
  // response, context or other pooled object.
  lemma PooledIsReset(s: Sys, o: Obj)
    requires Reachable(s) && (o.id in s.Queue(o.kind) || IsDropped(s, o))
    ensures match o.kind
      case KContext =>
        var x := s.Ctx(o.id);
        && x.extenders == x.fetches == 0 && x.extended == Nil && x.request == None && !x.hdrPool && x.cleanups == []
      case KEvent => s.Evt(o.id) == Evt(None, None, None, None, None, None, false, false, false, 0, 0)
      case KFetcher => s.Fetcher(o.id) == Fetcher(None)
      case KResponse => s.Response(o.id) == Response(None, false, None, None)
      case KStream => s.Stream(o.id) == Stream(false, false)
      case KHeaders => o.id < |s.headers| ==> s.headers[o.id] == Headers(false)
  {
    ReachableInv(s);
    assert QueueInv(s, o.kind);
    assert IsSpare(s, o);
    assert IsReset(s, o);
  }

  // Where an object can be.
  predicate InPool(s: Sys, o: Obj) { o.id in s.Queue(o.kind) }

  predicate IsDropped(s: Sys, o: Obj) { o in s.home && s.home[o] == Dropped }

  // Exclusive ownership: each object ever made is in its pool, at one place; or
  // held by one open request, at one place; or dropped by a full pool.
  lemma ExactlyOnePlace(s: Sys, o: Obj)
    requires Reachable(s) && o.id < s.Made(o.kind)
    ensures InPool(s, o) || IsDropped(s, o) || exists r :: IsHeldBy(s, o, r)
    ensures InPool(s, o) ==> !IsDropped(s, o) && forall r :: !IsHeldBy(s, o, r)
    ensures IsDropped(s, o) ==> forall r :: !IsHeldBy(s, o, r)
    ensures forall r, t :: IsHeldBy(s, o, r) && IsHeldBy(s, o, t) ==> r == t
    ensures forall i, j :: 0 <= i < j < |s.Queue(o.kind)| && s.Queue(o.kind)[i] == o.id ==> s.Queue(o.kind)[j] != o.id
    ensures forall r: Id, i, j :: 0 <= i < j < |Stack(s, r)| && Stack(s, r)[i] == Return(o) ==>
      Stack(s, r)[j] != Return(o)
  {
    ReachableInv(s);
    assert o in s.home && QueueInv(s, o.kind);
    assert InPool(s, o) ==> IsFree(s, o);
    assert s.home[o].Owned? ==> IsHeldBy(s, o, s.home[o].r);
    forall r | IsHeldBy(s, o, r) ensures s.home[o] == Owned(r) { Mine(s, r); }
    forall r: Id, i, j | 0 <= i < j < |Stack(s, r)| && Stack(s, r)[i] == Return(o) ensures Stack(s, r)[j] != Return(o) {
      assert r < |s.reqs|;
    }
  }

  function Ids(n: nat): (ids: set<Id>)
    ensures |ids| == n
    ensures forall id: Id :: id in ids <==> id < n
  {
    if n == 0 then {} else Ids(n - 1) + {n - 1}
  }

  function FreeOf(s: Sys, k: Kind): set<Id> { set id | id in Ids(s.Made(k)) && IsFree(s, Obj(k, id)) }

  predicate IsOwned(s: Sys, o: Obj) { o in s.home && s.home[o].Owned? }

  function HeldOf(s: Sys, k: Kind): set<Id> { set id | id in Ids(s.Made(k)) && IsOwned(s, Obj(k, id)) }

  function DroppedOf(s: Sys, k: Kind): set<Id> { set id | id in Ids(s.Made(k)) && IsDropped(s, Obj(k, id)) }

  // Created = pooled + owned + dropped.
  lemma Conservation(s: Sys, k: Kind)
    requires Reachable(s)
    ensures s.Made(k) == |s.Queue(k)| + |HeldOf(s, k)| + |DroppedOf(s, k)|
  {
    ReachableInv(s);
    Partition(s, k);
    UnionSize(FreeOf(s, k), HeldOf(s, k), DroppedOf(s, k));
    FreeIsQueued(s, k);
  }

  lemma Partition(s: Sys, k: Kind)
    requires AllMade(s)
    ensures var free, held, dropped := FreeOf(s, k), HeldOf(s, k), DroppedOf(s, k);
      Ids(s.Made(k)) == free + held + dropped && free !! held && free + held !! dropped
  {
    forall id | id in Ids(s.Made(k)) ensures id in FreeOf(s, k) + HeldOf(s, k) + DroppedOf(s, k) {
      assert Obj(k, id).id < s.Made(k);
    }
  }

  lemma UnionSize(a: set<Id>, b: set<Id>, c: set<Id>)
    requires a !! b && a + b !! c
    ensures |a + b + c| == |a| + |b| + |c|
  {}

  lemma FreeIsQueued(s: Sys, k: Kind)
    requires Inv(s)
    ensures |FreeOf(s, k)| == |s.Queue(k)|
  {
    assert QueueInv(s, k);
    forall id | id in s.Queue(k) ensures id in FreeOf(s, k) {
      assert IsFree(s, Obj(k, id));
      assert Obj(k, id).id < s.Made(k);
    }
    forall id | id in FreeOf(s, k) ensures id in s.Queue(k) { assert IsFree(s, Obj(k, id)); }
    assert FreeOf(s, k) == Elements(s.Queue(k));
    DistinctSize(s.Queue(k));
  }

  function Elements(q: seq<Id>): set<Id> { set id | id in q }

  lemma {:induction false} DistinctSize(q: seq<Id>)
    requires forall i, j :: 0 <= i < j < |q| ==> q[i] != q[j]
    ensures |Elements(q)| == |q|
  {
    if q != [] {
      var p, last := q[..|q| - 1], q[|q| - 1];
      DistinctSize(p);
      assert q == p + [last];
      assert Elements(q) == Elements(p) + {last} && last !in Elements(p);
    }
  }

  // Cleanups.

  // What ran is what was registered, backwards, each once; what is left is the rest.
  lemma CleanupsInReverse(s: Sys, r: Id)
    requires Reachable(s) && r < |s.reqs| && s.reqs[r].Open()
    ensures var x := s.Ctx(s.reqs[r].ctx); x.cleanups <= x.registered && x.ran == Reverse(x.registered[|x.cleanups|..])
    ensures s.reqs[r].releaser.Putting? ==> s.Ctx(s.reqs[r].ctx).ran == Reverse(s.Ctx(s.reqs[r].ctx).registered)
  {
    ReachableInv(s);
    var x := s.Ctx(s.reqs[r].ctx);
    assert x.registered == x.cleanups + Reverse(x.ran) && (s.reqs[r].releaser.Putting? ==> x.cleanups == []) by {
      assert ReqInv(s, r) && OpenInv(s, r);
    }
    RanInReverse(x);
  }

  lemma RanInReverse(x: Ctx)
    requires x.registered == x.cleanups + Reverse(x.ran)
    ensures x.cleanups <= x.registered && x.ran == Reverse(x.registered[|x.cleanups|..])
    ensures x.cleanups == [] ==> x.ran == Reverse(x.registered)
  {
    assert x.registered[|x.cleanups|..] == Reverse(x.ran);
    assert Reverse(Reverse(x.ran)) == x.ran;
    assert x.registered[0..] == x.registered;
  }

  // A proxy's reset is registered above its return, and so runs before it.
  lemma ResetAboveReturn(s: Sys, r: Id, j: nat)
    requires Reachable(s) && r < |s.reqs| && j < |Stack(s, r)| && Stack(s, r)[j].ResetResponse?
    ensures Return(Obj(KResponse, Stack(s, r)[j].id)) in Stack(s, r)[..j]
    ensures Return(Obj(KResponse, Stack(s, r)[j].id)) !in Stack(s, r)[j..]
  {
    ReachableInv(s);
    assert ReqInv(s, r) && OpenInv(s, r);
    var st := Stack(s, r);
    var o := Return(Obj(KResponse, st[j].id));
    assert EntryInv(s, s.reqs[r].ctx, st, j);
    var i :| 0 <= i < j && st[..j][i] == o;
    assert st[i] == o;
    forall k | j <= k < |st| ensures st[k] != o {}
  }

  // The semaphore and the groups.

  // The permits out on a context are the fetches, of this and of earlier requests,
  // between Acquire and Release; never more than it has.
  lemma PermitsConserved(s: Sys, c: Id)
    requires Reachable(s) && c < |s.ctxs|
    ensures s.ctxs[c].held == HeldBy(s.reqs, c) <= 10
  {
    ReachableInv(s);
  }

  // The group counters count what they should, and never go below zero.
  lemma GroupsConserved(s: Sys, r: Id)
    requires Reachable(s) && r < |s.reqs| && s.reqs[r].Open()
    ensures s.Ctx(s.reqs[r].ctx).fetches == CountedIn(s.reqs[r].fetches) >= 0
    ensures s.Ctx(s.reqs[r].ctx).extenders == Trues(s.reqs[r].extenders) >= 0
  {
    ReachableInv(s);
    assert ReqInv(s, r) && OpenInv(s, r);
  }

  // While a waitUntil is outstanding, Context() gives the extended context and it
  // is not cancelled, even after the request context is done.
  lemma ExtendedWhileOutstanding(s: Sys, r: Id, k: nat)
    requires Reachable(s) && r < |s.reqs| && k < |s.reqs[r].extenders| && s.reqs[r].extenders[k]
    ensures var x := s.Ctx(s.reqs[r].ctx); x.Context() == OnExtended && x.extended == Uncancelled && x.extenders >= 1
  {
    ReachableInv(s);
    LiveInUse(s, r, ByExtender(k));
    InPlace(s, r);
    TruesZero(s.reqs[r].extenders);
  }
}
