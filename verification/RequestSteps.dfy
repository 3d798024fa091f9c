// The steps of the request goroutine, the response protocol and waitUntil.
module RequestSteps {
  import opened Base
  import opened Objects
  import opened Programs
  import opened Potentials
  import opened Middleware
  import opened Invariants
  import opened Frames
  import opened EventSteps
  import opened LocalSteps

  // On one request, its context and its event.

  lemma TrioCall(r: Id, q: Req, x: Ctx, e: Evt)
    requires Trio(r, q, x, e) && q.http.Prepared?
    ensures Trio(r, q.(http := Calling, handler := InCall), x, e)
  {
    SameOwners(q, q.(http := Calling, handler := InCall));
  }

  lemma TrioWaits(r: Id, q: Req, x: Ctx, e: Evt)
    requires Trio(r, q, x, e)
    requires (q.http.Calling? && (q.handler.Pending? || q.handler.Finished?)) || (q.http.Failing? && q.exception.End?)
    ensures Trio(r, q.(http := Waiting), x, e)
  {
    var q' := q.(http := Waiting);
    SameOwners(q, q');
  }

  lemma TrioFails(r: Id, q: Req, x: Ctx, e: Evt)
    requires Trio(r, q, x, e) && q.http.Calling? && q.handler.Thrown?
    ensures Trio(r, q.(http := Failing), x, e)
  {
    var q' := q.(http := Failing);
    SameOwners(q, q');
  }

  lemma TrioSyncReturn(r: Id, q: Req, x: Ctx, e: Evt)
    requires Trio(r, q, x, e) && q.handler.InCall?
    ensures Trio(r, q.(handler := Pending), x, e)
  {
    var q' := q.(handler := Pending);
    SameOwners(q, q');
  }

  lemma TrioThrow(r: Id, q: Req, x: Ctx, e: Evt)
    requires Trio(r, q, x, e) && q.handler.InCall? && SettledFor(q, ByHandler) && q.respond.Unused?
    ensures Trio(r, q.(handler := Thrown, exception := Exception), x, e)
  {
    var q' := q.(handler := Thrown, exception := Exception);
    SameOwners(q, q');
    ExceptionFacts();
    assert ThreadsInv(r, q', e);
    assert MarksInv(q', e) && WakesInv(q', e) && SendsInv(q', e);
    assert WritesInv(q', e);
  }

  lemma TrioRespondWith(r: Id, q: Req, x: Ctx, e: Evt)
    requires Trio(r, q, x, e) && Live(q, ByHandler) && !e.useRespondWith
    ensures Trio(r, q.(respond := Awaiting), x, e.(useRespondWith := true, skipNext := true))
  {
    var q' := q.(respond := Awaiting);
    SameOwners(q, q');
  }

  lemma ExtendedRequest(q: Req)
    requires RequestInv(q) && !q.handler.Uncalled? && (q.waiter.NoWait? || q.waiter.Begin? || q.waiter.OnExtenders?)
    ensures RequestInv(Extended(q))
  {
    var q' := Extended(q);
    SameOwners(q, q');
  }

  lemma ExtendedContext(r: Id, q: Req, x: Ctx)
    requires ContextInv(r, q, x) && !q.releaser.Putting?
    ensures ContextInv(r, Extended(q), x.ExtendContext())
  {
    assert x.extenders + 1 == Trues(q.extenders + [true]) by { TruesPush(q.extenders, true); }
    ExtendersContext(r, q, Extended(q), x, x.ExtendContext());
  }

  // The counter, and whether there is one, follow the extenders; nothing else moves.
  lemma ExtendersContext(r: Id, q: Req, q': Req, x: Ctx, x': Ctx)
    requires ContextInv(r, q, x) && !q.releaser.Putting?
    requires q' == q.(extenders := q'.extenders, wrappers := q'.wrappers)
    requires x' == x.(extenders := x'.extenders, shouldExtend := x'.shouldExtend)
    requires x'.extenders == Trues(q'.extenders) && x'.shouldExtend == (q'.extenders != [])
    ensures ContextInv(r, q', x')
  {}

  lemma ExtendedEvent(r: Id, q: Req, e: Evt)
    requires EventInv(r, q, e)
    ensures EventInv(r, Extended(q), e)
  {
    var q' := Extended(q);
    assert Owed(q', e) == Owed(q, e) && DueWrites(q') == DueWrites(q);
  }

  lemma TrioExtend(r: Id, q: Req, x: Ctx, e: Evt)
    requires Trio(r, q, x, e) && !q.handler.Uncalled? && !q.releaser.Putting?
    requires q.waiter.NoWait? || q.waiter.Begin? || q.waiter.OnExtenders?
    ensures Trio(r, Extended(q), x.ExtendContext(), e)
  {
    ExtendedRequest(q);
    ExtendedContext(r, q, x);
    ExtendedEvent(r, q, e);
  }

  // The wrapper calls back: its count is still outstanding, so the call goes through.
  lemma TrioConclude(r: Id, q: Req, x: Ctx, e: Evt, k: nat)
    requires Trio(r, q, x, e) && k < |q.wrappers| && (q.wrappers[k].ResolveDue? || q.wrappers[k].RejectDue?)
    ensures x.extenders >= 1 && k < |q.extenders|
    ensures Trio(r, Concluded(q, k), x.ConcludeExtend(), e)
  {
    assert !q.releaser.Putting? by { assert Live(q, ByExtender(k)); }
    ConcludedContext(r, q, x, k);
    ConcludedRequest(q, k);
    var q' := Concluded(q, k);
    WrapperEvent(r, q, e, q'.extenders, q'.wrappers);
  }

  lemma ConcludedContext(r: Id, q: Req, x: Ctx, k: nat)
    requires ContextInv(r, q, x) && WrappersInv(q) && !q.releaser.Putting? && k < |q.wrappers|
    requires !q.wrappers[k].WrapperDone?
    ensures x.extenders >= 1 && ContextInv(r, Concluded(q, k), x.ConcludeExtend())
  {
    assert x.extenders - 1 == Trues(q.extenders[k := false]) by { TruesUpdate(q.extenders, k, false); }
    ExtendersContext(r, q, Concluded(q, k), x, x.ConcludeExtend());
  }

  lemma ConcludedRequest(q: Req, k: nat)
    requires RequestInv(q) && k < |q.wrappers| && (q.wrappers[k].ResolveDue? || q.wrappers[k].RejectDue?)
    ensures RequestInv(Concluded(q, k))
  {
    var q' := Concluded(q, k);
    assert Live(q, ByExtender(k));
    assert forall o :: Live(q', o) ==> Live(q, o);
    SameOwners(q, q');
  }

  // The response protocol does not look at the extenders.
  lemma WrapperEvent(r: Id, q: Req, e: Evt, extenders: seq<bool>, wrappers: seq<Wrapper>)
    requires EventInv(r, q, e)
    ensures EventInv(r, q.(extenders := extenders, wrappers := wrappers), e)
  {
    var q' := q.(extenders := extenders, wrappers := wrappers);
    assert Owed(q', e) == Owed(q, e) && DueWrites(q') == DueWrites(q);
  }

  lemma TrioFulfil(r: Id, q: Req, x: Ctx, e: Evt, k: nat, w: Wrapper)
    requires Trio(r, q, x, e) && k < |q.wrappers| && q.wrappers[k].AwaitingPromise? && SettledFor(q, ByExtender(k))
    requires w.ResolveDue? || w.RejectDue?
    ensures Trio(r, SetWrapper(q, k, w), x, e)
  {
    var q' := SetWrapper(q, k, w);
    assert forall o :: Live(q', o) == Live(q, o);
    SameOwners(q, q');
    WrapperEvent(r, q, e, q.extenders, q'.wrappers);
  }

  lemma TrioSettle(r: Id, q: Req, x: Ctx, e: Evt, ok: bool)
    requires Trio(r, q, x, e) && q.handler.Pending? && SettledFor(q, ByHandler)
    ensures Trio(r, q.(handler := Finished(ok), handlerThread := Thread(r, if ok then Resolver else Rejector)), x, e)
  {
    var q' := q.(handler := Finished(ok), handlerThread := Thread(r, if ok then Resolver else Rejector));
    assert RequestInv(q') by {
      SameOwners(q, q');
    }
    assert EventInv(r, q', e) by { SettledEvent(r, q, e, ok); }
  }

  lemma SettledEvent(r: Id, q: Req, e: Evt, ok: bool)
    requires EventInv(r, q, e) && RequestInv(q) && q.handler.Pending?
    ensures EventInv(r, q.(handler := Finished(ok), handlerThread := Thread(r, if ok then Resolver else Rejector)), e)
  {
    var q' := q.(handler := Finished(ok), handlerThread := Thread(r, if ok then Resolver else Rejector));
    ProgramFacts(ok, e.skipNext);
    assert ThreadsInv(r, q', e);
    assert MarksInv(q', e) && WakesInv(q', e) && SendsInv(q', e);
    assert WritesInv(q', e);
  }

  // What the three programs owe, worked out from their ends.

  lemma TailFacts(skip: bool)
    ensures var p := WriteStatus(500, WriteBody(Wake(End)));
      && Finishes(p, skip) && !Asks(p) && Wakes(p, skip) == 1 && Marks(p, skip) == 0 && Awaits(p, skip) == 0
      && Writes(p, skip) == [Status(500), Body]
  {
    var w := Wake(End);
    assert Finishes(w, skip) && !Asks(w) && Wakes(w, skip) == 1 && Marks(w, skip) == 0 && Awaits(w, skip) == 0;
    assert Writes(w, skip) == [];
    var b := WriteBody(w);
    assert Finishes(b, skip) && !Asks(b) && Wakes(b, skip) == 1 && Marks(b, skip) == 0 && Awaits(b, skip) == 0;
    assert Writes(b, skip) == [Body];
  }

  lemma FailFacts(skip: bool)
    ensures Finishes(Fail, skip) && !Asks(Fail) && Wakes(Fail, skip) == 1 && Marks(Fail, skip) == Bit(!skip)
    ensures Awaits(Fail, skip) == 0
    ensures Writes(Fail, skip) == if skip then [] else [Status(500), Body]
  {
    TailFacts(skip);
    var m := Fail.no;
    assert Finishes(m, skip) && !Asks(m) && Wakes(m, skip) == 1 && Marks(m, skip) == 1 && Awaits(m, skip) == 0;
    assert Writes(m, skip) == [Status(500), Body];
  }

  lemma ServeFacts(skip: bool)
    ensures var p := Mark(ServeNext(Wake(End)));
      && Finishes(p, skip) && !Asks(p) && Wakes(p, skip) == 1 && Marks(p, skip) == 1 && Awaits(p, skip) == 0
      && Writes(p, skip) == [Next]
  {
    var w := Wake(End);
    assert Finishes(w, skip) && !Asks(w) && Wakes(w, skip) == 1 && Marks(w, skip) == 0 && Awaits(w, skip) == 0;
    assert Writes(w, skip) == [];
    var n := ServeNext(w);
    assert Finishes(n, skip) && !Asks(n) && Wakes(n, skip) == 1 && Marks(n, skip) == 0 && Awaits(n, skip) == 0;
    assert Writes(n, skip) == [Next];
  }

  lemma ProgramFacts(ok: bool, skip: bool)
    ensures var p := if ok then Resolver else Rejector;
      && Finishes(p, skip) && !Asks(p)
      && Wakes(p, skip) == 1 && Marks(p, skip) == Bit(!skip) && Awaits(p, skip) == Bit(skip)
      && Writes(p, true) == []
      && Writes(p, false) == (if ok then [Next] else [Status(500), Body])
  {
    FailFacts(skip);
    FailFacts(true);
    FailFacts(false);
    ServeFacts(skip);
    ServeFacts(false);
  }

  lemma ExceptionFacts()
    ensures Finishes(Exception, false) && Wakes(Exception, false) == 1 && Marks(Exception, false) == 1
    ensures Awaits(Exception, false) == 0 && Writes(Exception, false) == [Status(500), Body]
  {
    var m := Mark(Wake(End));
    assert Finishes(m, false) && Wakes(m, false) == 1 && Marks(m, false) == 1 && Awaits(m, false) == 0;
    assert Writes(m, false) == [];
    var b := WriteBody(m);
    assert Finishes(b, false) && Wakes(b, false) == 1 && Marks(b, false) == 1 && Awaits(b, false) == 0;
    assert Writes(b, false) == [Body];
    var t := WriteStatus(500, b);
    assert Finishes(t, false) && Wakes(t, false) == 1 && Marks(t, false) == 1 && Awaits(t, false) == 0;
    assert Writes(t, false) == [Status(500), Body];
    var g := Exception.no;
    assert Finishes(g, false) && Wakes(g, false) == 1 && Marks(g, false) == 1 && Awaits(g, false) == 0;
    assert Writes(g, false) == [Status(500), Body];
  }

  lemma TrioReturn(r: Id, q: Req, x: Ctx, e: Evt)
    requires Trio(r, q, x, e) && q.http.Waiting? && e.requestDone > 0
    ensures Trio(r, q.(http := Returned, waiter := Begin, releaser := OnCancelled), x,
      e.(requestDone := e.requestDone - 1))
  {
    var q' := q.(http := Returned, waiter := Begin, releaser := OnCancelled);
    AtReturn(r, q, e);
    SameOwners(q, q');
  }

  // The token that Wait receives is the last thing the protocol does.
  lemma AtReturn(r: Id, q: Req, e: Evt)
    requires EventInv(r, q, e) && e.requestDone > 0
    ensures q.handler.Finished? || q.handler.Thrown?
    ensures q.handlerThread.prog == End && q.exception == End && q.responseThread.prog == End
    ensures !q.respond.Awaiting? && q.trace == DueWrites(q)
    ensures e.requestDone == 1 && e.responseDone == 0
    ensures q.respond.Fired? ==> !q.respond.outcome.ErroredUndefined?
  {
    var h, p, x := q.handlerThread.prog, q.responseThread.prog, q.exception;
    if h != End { FinishesWakesOnce(h, e.skipNext); }
    if x != End { FinishesWakesOnce(x, e.skipNext); }
    if p != End && Delivers(p) { DeliversSendsOnce(p); }
  }

  lemma TrioRun(r: Id, q: Req, x: Ctx, e: Evt, which: Which)
    requires Trio(r, q, x, e) && Ready(ThreadOf(q, which), e) && (which.OfException? ==> q.http.Failing?)
    requires !q.http.Returned?
    ensures Trio(r, Ran(r, q, e, which, q.gone), x, Effect(ThreadOf(q, which), e))
  {
    var q', e' := Ran(r, q, e, which, q.gone), Effect(ThreadOf(q, which), e);
    assert EventInv(r, q', e') by {
      match which {
        case OfHandler => HandlerRuns(r, q, e, q.gone);
        case OfResponse => ResponseRuns(r, q, e, q.gone);
        case OfException => ExceptionRuns(r, q, e, q.gone);
      }
    }
    RanRequest(r, q, e, which);
  }

  lemma RanRequest(r: Id, q: Req, e: Evt, which: Which)
    requires RequestInv(q) && ThreadOf(q, which) != End && !q.http.Returned?
    ensures RequestInv(Ran(r, q, e, which, q.gone))
  {
    var q' := Ran(r, q, e, which, q.gone);
    SameOwners(q, q');
  }

  lemma TrioBind(r: Id, q: Req, x: Ctx, e: Evt)
    requires Trio(r, q, x, e) && !q.http.GotContext? && !q.http.Prepared?
    ensures Trio(r, q.(kvRead := true), x, e.(kv := e.ioContext))
  {
    BoundRequest(q);
    BoundEvent(r, q, e);
  }

  lemma BoundRequest(q: Req)
    requires RequestInv(q) && !q.http.GotContext? && !q.http.Prepared?
    ensures RequestInv(q.(kvRead := true))
  {
    var q' := q.(kvRead := true);
    assert forall o :: Live(q', o) == Live(q, o);
    SameOwners(q, q');
  }

  lemma BoundEvent(r: Id, q: Req, e: Evt)
    requires EventInv(r, q, e)
    ensures EventInv(r, q.(kvRead := true), e.(kv := e.ioContext))
  {
    var q', e' := q.(kvRead := true), e.(kv := e.ioContext);
    assert Owed(q', e') == Owed(q, e) && DueWrites(q') == DueWrites(q);
  }

  lemma CancelKeeps(r: Id, q: Req, x: Ctx, e: Evt)
    ensures var q' := q.(gone := true);
      && (RequestInv(q) ==> RequestInv(q'))
      && (ContextInv(r, q, x) ==> ContextInv(r, q', x))
      && (EventInv(r, q, e) ==> EventInv(r, q', e))
  {
    var q' := q.(gone := true);
    assert forall o :: Live(q', o) == Live(q, o);
    if FetchesInv(q) && TasksInv(q) { SameOwners(q, q'); }
  }

  // On the whole system: a step that changes the request alone, or the request
  // and its context, or the request and its event.

  lemma ReqKeeps(s: Sys, r: Id, q': Req)
    requires Inv(s) && r < |s.reqs| && InUse(s.reqs[r])
    requires s.reqs[r].ctx < |s.ctxs| && s.reqs[r].evt < |s.evts|
    requires q' == s.reqs[r].(http := q'.http, handler := q'.handler, respond := q'.respond, exception := q'.exception,
      handlerThread := q'.handlerThread, responseThread := q'.responseThread, wrappers := q'.wrappers,
      waiter := q'.waiter, releaser := q'.releaser)
    requires q'.Open() && Trio(r, q', s.ctxs[s.reqs[r].ctx], s.evts[s.reqs[r].evt])
    ensures Inv(s.(reqs := s.reqs[r := q']))
  {
    TrioInPlace(s, r);
    PlainKeeps(s, s.(reqs := s.reqs[r := q']), r);
  }

  lemma CtxKeeps(s: Sys, r: Id, q': Req, x': Ctx)
    requires Inv(s) && r < |s.reqs| && InUse(s.reqs[r])
    requires s.reqs[r].ctx < |s.ctxs| && s.reqs[r].evt < |s.evts|
    requires q' == s.reqs[r].(extenders := q'.extenders, wrappers := q'.wrappers, waiter := q'.waiter)
    requires var x := s.ctxs[s.reqs[r].ctx];
      x' == x.(extenders := x'.extenders, shouldExtend := x'.shouldExtend, extended := x'.extended)
    requires Trio(r, q', x', s.evts[s.reqs[r].evt])
    ensures Inv(s.(reqs := s.reqs[r := q'], ctxs := s.ctxs[s.reqs[r].ctx := x']))
  {
    TrioInPlace(s, r);
    PlainKeeps(s, s.(reqs := s.reqs[r := q'], ctxs := s.ctxs[s.reqs[r].ctx := x']), r);
  }

  lemma EvtKeeps(s: Sys, r: Id, q': Req, e': Evt)
    requires Inv(s) && r < |s.reqs| && InUse(s.reqs[r])
    requires s.reqs[r].ctx < |s.ctxs| && s.reqs[r].evt < |s.evts|
    requires q'.fetches == s.reqs[r].fetches && q'.tasks == s.reqs[r].tasks
    requires q'.ctx == s.reqs[r].ctx && q'.evt == s.reqs[r].evt && q'.Open()
    requires e'.fetcher == s.evts[s.reqs[r].evt].fetcher && e'.body == s.evts[s.reqs[r].evt].body
    requires Trio(r, q', s.ctxs[s.reqs[r].ctx], e')
    ensures Inv(s.(reqs := s.reqs[r := q'], evts := s.evts[s.reqs[r].evt := e']))
  {
    TrioInPlace(s, r);
    PlainKeeps(s, s.(reqs := s.reqs[r := q'], evts := s.evts[s.reqs[r].evt := e']), r);
  }

  lemma NotReturnedInUse(s: Sys, r: Id)
    requires Inv(s) && r < |s.reqs| && !s.reqs[r].http.GotContext? && !s.reqs[r].http.Returned?
    ensures InUse(s.reqs[r])
  {
    assert ReqInv(s, r);
  }

  lemma KeepsInvoke(s: Sys, r: Id)
    requires Inv(s) && r < |s.reqs| && s.reqs[r].http.Prepared?
    ensures Inv(s.SetReq(r, s.reqs[r].(http := Calling, handler := InCall)))
  {
    NotReturnedInUse(s, r);
    TrioInPlace(s, r);
    TrioCall(r, s.reqs[r], s.ctxs[s.reqs[r].ctx], s.evts[s.reqs[r].evt]);
    ReqKeeps(s, r, s.reqs[r].(http := Calling, handler := InCall));
  }

  lemma KeepsEnterWait(s: Sys, r: Id)
    requires Inv(s) && r < |s.reqs|
    requires var q := s.reqs[r];
      (q.http.Calling? && (q.handler.Pending? || q.handler.Finished?)) || (q.http.Failing? && q.exception.End?)
    ensures Inv(s.SetReq(r, s.reqs[r].(http := Waiting)))
  {
    NotReturnedInUse(s, r);
    TrioInPlace(s, r);
    TrioWaits(r, s.reqs[r], s.ctxs[s.reqs[r].ctx], s.evts[s.reqs[r].evt]);
    ReqKeeps(s, r, s.reqs[r].(http := Waiting));
  }

  lemma KeepsEnterException(s: Sys, r: Id)
    requires Inv(s) && r < |s.reqs| && s.reqs[r].http.Calling? && s.reqs[r].handler.Thrown?
    ensures Inv(s.SetReq(r, s.reqs[r].(http := Failing)))
  {
    NotReturnedInUse(s, r);
    TrioInPlace(s, r);
    TrioFails(r, s.reqs[r], s.ctxs[s.reqs[r].ctx], s.evts[s.reqs[r].evt]);
    ReqKeeps(s, r, s.reqs[r].(http := Failing));
  }

  lemma KeepsSyncReturn(s: Sys, r: Id)
    requires Inv(s) && r < |s.reqs| && s.reqs[r].handler.InCall?
    ensures Inv(s.SetReq(r, s.reqs[r].(handler := Pending)))
  {
    LiveInUse(s, r, ByHandler);
    TrioInPlace(s, r);
    TrioSyncReturn(r, s.reqs[r], s.ctxs[s.reqs[r].ctx], s.evts[s.reqs[r].evt]);
    ReqKeeps(s, r, s.reqs[r].(handler := Pending));
  }

  lemma KeepsThrow(s: Sys, r: Id)
    requires Inv(s) && r < |s.reqs| && s.reqs[r].handler.InCall?
    requires SettledFor(s.reqs[r], ByHandler) && s.reqs[r].respond.Unused?
    ensures Inv(s.SetReq(r, s.reqs[r].(handler := Thrown, exception := Exception)))
  {
    LiveInUse(s, r, ByHandler);
    TrioInPlace(s, r);
    TrioThrow(r, s.reqs[r], s.ctxs[s.reqs[r].ctx], s.evts[s.reqs[r].evt]);
    ReqKeeps(s, r, s.reqs[r].(handler := Thrown, exception := Exception));
  }

  // A second respondWith changes nothing.
  lemma KeepsRespondWith(s: Sys, r: Id)
    requires Inv(s) && r < |s.reqs| && Live(s.reqs[r], ByHandler)
    ensures Inv(DoRespondWith(s, r))
    ensures !s.reqs[r].respond.Unused? ==> DoRespondWith(s, r) == s
    ensures s.reqs[r].respond.Unused? ==> DoRespondWith(s, r).reqs[r] == s.reqs[r].(respond := Awaiting)
  {
    LiveInUse(s, r, ByHandler);
    TrioInPlace(s, r);
    var q, e := s.reqs[r], s.evts[s.reqs[r].evt];
    if !e.useRespondWith {
      TrioRespondWith(r, q, s.ctxs[q.ctx], e);
      EvtKeeps(s, r, q.(respond := Awaiting), e.(useRespondWith := true, skipNext := true));
    }
  }

  lemma KeepsReadKV(s: Sys, r: Id)
    requires Inv(s) && r < |s.reqs| && InUse(s.reqs[r]) && !s.reqs[r].handler.Uncalled?
    ensures Inv(DoReadKV(s, r))
  {
    TrioInPlace(s, r);
    var q, e := s.reqs[r], s.evts[s.reqs[r].evt];
    assert !q.http.Prepared? by { assert ReqInv(s, r) && RequestInv(q); }
    TrioBind(r, q, s.ctxs[q.ctx], e);
    EvtKeeps(s, r, q.(kvRead := true), e.(kv := e.ioContext));
  }

  // Until the wait goroutine has looked past the extenders, one may be added.
  lemma KeepsWaitUntil(s: Sys, r: Id)
    requires Inv(s) && r < |s.reqs| && InUse(s.reqs[r]) && !s.reqs[r].handler.Uncalled?
    requires s.reqs[r].waiter.NoWait? || s.reqs[r].waiter.Begin? || s.reqs[r].waiter.OnExtenders?
    ensures Inv(DoWaitUntil(s, r))
  {
    TrioInPlace(s, r);
    var q := s.reqs[r];
    var x := s.ctxs[q.ctx];
    TrioExtend(r, q, x, s.evts[q.evt]);
    CtxKeeps(s, r, Extended(q), x.ExtendContext());
  }

  // A wrapper that is to call back: the conclude callback goes through, on the
  // request's own context.
  lemma ConcludeGoes(s: Sys, r: Id, k: nat)
    requires Inv(s) && r < |s.reqs| && k < |s.reqs[r].wrappers|
    requires s.reqs[r].wrappers[k].ResolveDue? || s.reqs[r].wrappers[k].RejectDue?
    ensures InUse(s.reqs[r]) && !ConcludeFails(s, r) && s.Evt(s.reqs[r].evt).ioContext == Some(s.reqs[r].ctx)
    ensures k < |s.reqs[r].extenders| && s.reqs[r].extenders[k]
  {
    var q := s.reqs[r];
    assert WrappersInv(q) by { assert ReqInv(s, r) && RequestInv(q); }
    assert Live(q, ByExtender(k));
    LiveInUse(s, r, ByExtender(k));
    TrioInPlace(s, r);
    TrioConclude(r, q, s.ctxs[q.ctx], s.evts[q.evt], k);
  }

  // It lowers the counter of that context by one.
  lemma KeepsConclude(s: Sys, r: Id, k: nat)
    requires Inv(s) && r < |s.reqs| && k < |s.reqs[r].wrappers|
    requires s.reqs[r].wrappers[k].ResolveDue? || s.reqs[r].wrappers[k].RejectDue?
    ensures !ConcludeFails(s, r) && Inv(DoConclude(s, r, k))
    ensures DoConclude(s, r, k).reqs == s.reqs[r := Concluded(s.reqs[r], k)]
    ensures s.reqs[r].ctx < |s.ctxs|
    ensures DoConclude(s, r, k).ctxs == s.ctxs[s.reqs[r].ctx := s.ctxs[s.reqs[r].ctx].ConcludeExtend()]
  {
    ConcludeGoes(s, r, k);
    TrioInPlace(s, r);
    var q := s.reqs[r];
    var x := s.ctxs[q.ctx];
    TrioConclude(r, q, x, s.evts[q.evt], k);
    CtxKeeps(s, r, Concluded(q, k), x.ConcludeExtend());
  }

  lemma KeepsFulfil(s: Sys, r: Id, k: nat, w: Wrapper)
    requires Inv(s) && r < |s.reqs| && k < |s.reqs[r].wrappers|
    requires s.reqs[r].wrappers[k].AwaitingPromise? && SettledFor(s.reqs[r], ByExtender(k))
    requires w.ResolveDue? || w.RejectDue?
    ensures Inv(s.SetReq(r, SetWrapper(s.reqs[r], k, w)))
  {
    var q := s.reqs[r];
    assert WrappersInv(q) by { assert ReqInv(s, r) && RequestInv(q); }
    LiveInUse(s, r, ByExtender(k));
    TrioInPlace(s, r);
    TrioFulfil(r, q, s.ctxs[q.ctx], s.evts[q.evt], k, w);
    ReqKeeps(s, r, SetWrapper(q, k, w));
  }

  lemma KeepsSettle(s: Sys, r: Id, ok: bool)
    requires Inv(s) && r < |s.reqs| && s.reqs[r].handler.Pending? && SettledFor(s.reqs[r], ByHandler)
    ensures Inv(DoSettle(s, r, ok))
  {
    LiveInUse(s, r, ByHandler);
    TrioInPlace(s, r);
    var q := s.reqs[r];
    TrioSettle(r, q, s.ctxs[q.ctx], s.evts[q.evt], ok);
    ReqKeeps(s, r, q.(handler := Finished(ok), handlerThread := Thread(r, if ok then Resolver else Rejector)));
  }

  lemma KeepsWaitReturn(s: Sys, r: Id)
    requires Inv(s) && r < |s.reqs| && s.reqs[r].http.Waiting? && s.Evt(s.reqs[r].evt).requestDone > 0
    ensures Inv(DoWaitReturn(s, r))
  {
    NotReturnedInUse(s, r);
    TrioInPlace(s, r);
    var q, e := s.reqs[r], s.evts[s.reqs[r].evt];
    var q' := q.(http := Returned, waiter := Begin, releaser := OnCancelled);
    var e' := e.(requestDone := e.requestDone - 1);
    TrioReturn(r, q, s.ctxs[q.ctx], e);
    EvtKeeps(s, r, q', e');
    assert DoWaitReturn(s, r) == s.(reqs := s.reqs[r := q'], evts := s.evts[q.evt := e']);
  }

  // A goroutine with work left belongs to a request that has not returned.
  lemma RunnerInUse(s: Sys, r: Id, which: Which)
    requires Inv(s) && r < |s.reqs| && ThreadOf(s.reqs[r], which) != End
    ensures InUse(s.reqs[r]) && !s.reqs[r].http.Returned?
  {
    assert ReqInv(s, r);
  }

  lemma KeepsRun(s: Sys, r: Id, which: Which)
    requires Inv(s) && r < |s.reqs| && Ready(ThreadOf(s.reqs[r], which), s.Evt(s.reqs[r].evt))
    requires which.OfException? ==> s.reqs[r].http.Failing?
    ensures Inv(DoRun(s, r, which))
  {
    RunnerInUse(s, r, which);
    TrioInPlace(s, r);
    var q := s.reqs[r];
    var e := s.evts[q.evt];
    TrioRun(r, q, s.ctxs[q.ctx], e, which);
    EvtKeeps(s, r, Ran(r, q, e, which, q.gone), Effect(ThreadOf(q, which), e));
    RunShape(s, r, which);
  }

  lemma RunShape(s: Sys, r: Id, which: Which)
    requires r < |s.reqs| && s.reqs[r].evt < |s.evts|
    requires EventInv(r, s.reqs[r], s.evts[s.reqs[r].evt]) && ThreadOf(s.reqs[r], which) != End
    ensures var q := s.reqs[r]; var e := s.evts[q.evt];
      DoRun(s, r, which) == s.(reqs := s.reqs[r := Ran(r, q, e, which, q.gone)],
                               evts := s.evts[q.evt := Effect(ThreadOf(q, which), e)])
  {
    var q := s.reqs[r];
    var e := s.evts[q.evt];
    var p, n := ThreadOf(q, which), Rest(ThreadOf(q, which), e, q.gone);
    assert e.http == Some(r) && s.IsGone(Some(r)) == q.gone;
    match which {
      case OfHandler =>
        assert q.handlerThread.w == r;
        Logged(s, r, q.(handlerThread := Thread(r, n)), Effect(p, e), Emits(p));
      case OfResponse =>
        assert q.responseThread.w == r;
        Logged(s, r, q.(responseThread := Thread(r, n)), Effect(p, e), Emits(p));
      case OfException =>
        Logged(s, r, q.(exception := n, spared := q.spared || (p.IfGone? && q.gone)), Effect(p, e), Emits(p));
    }
  }

  lemma Logged(s: Sys, r: Id, q': Req, e': Evt, out: seq<Write>)
    requires r < |s.reqs| && q'.evt < |s.evts|
    ensures s.SetEvt(q'.evt, e').SetReq(r, q').Log(r, out)
         == s.(reqs := s.reqs[r := q'.(trace := q'.trace + out)], evts := s.evts[q'.evt := e'])
  {}

  // Ending the request context matters to nobody's bookkeeping.
  lemma CancelLocal(s: Sys, s': Sys, r: Id)
    requires Inv(s) && r < |s.reqs| && s' == s.(reqs := s.reqs[r := s.reqs[r].(gone := true)])
    ensures Local(s, s', r) && HeldInv(s')
    ensures s.reqs[r].Open() && HoldingInv(s, s.reqs[r], Stack(s, r)) ==> HoldingInv(s', s'.reqs[r], Stack(s, r))
  {
    HeldKept(s, s', r);
  }

  lemma KeepsCancel(s: Sys, r: Id)
    requires Inv(s) && r < |s.reqs|
    ensures Inv(s.SetReq(r, s.reqs[r].(gone := true)))
  {
    var q := s.reqs[r];
    var s' := s.(reqs := s.reqs[r := q.(gone := true)]);
    assert ReqInv(s, r);
    CancelLocal(s, s', r);
    CancelKeeps(r, q, s.Ctx(q.ctx), s.Evt(q.evt));
    LocalKeeps(s, s', r);
  }
}
