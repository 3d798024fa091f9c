// The steps of the fetch goroutines, of wait, and of release up to the first
// cleanup.
module FetchSteps {
  import opened Base
  import opened Objects
  import opened Programs
  import opened Potentials
  import opened Middleware
  import opened Invariants
  import opened Frames
  import opened LocalSteps
  import opened RequestSteps

  // The response protocol does not look at fetches, nor at wait and release.
  lemma EventFrame(r: Id, q: Req, q': Req, e: Evt)
    requires q' == q.(fetches := q'.fetches, waiter := q'.waiter, releaser := q'.releaser)
    ensures EventInv(r, q, e) ==> EventInv(r, q', e)
  {
    assert DueWrites(q') == DueWrites(q) && Owed(q', e) == Owed(q, e);
  }

  // A fetch moves on; the group counter follows it.
  lemma FetchMovesRequest(q: Req, i: nat, g: Fetch)
    requires i < |q.fetches| && FetchInv(q, g) && RequestInv(q)
    requires q.releaser.Cleaning? || q.releaser.Putting? || q.releaser.Closed? ==> g.pc.Releasing? || g.pc.Gone?
    ensures RequestInv(SetFetch(q, i, g))
  {
    var q' := SetFetch(q, i, g);
    assert forall o :: Live(q', o) == Live(q, o) && Active(q', o) == Active(q, o);
    forall j | 0 <= j < |q'.fetches| ensures FetchInv(q', q'.fetches[j]) {
      assert FetchInv(q, if j == i then g else q.fetches[j]);
    }
    forall j | 0 <= j < |q'.tasks| ensures TaskInv(q', q'.tasks[j]) { assert TaskInv(q, q.tasks[j]); }
  }

  lemma FetchMovesContext(r: Id, q: Req, x: Ctx, x': Ctx, i: nat, g: Fetch)
    requires i < |q.fetches| && ContextInv(r, q, x)
    requires x'.(held := x.held) == x.(fetches := x.fetches - Bit(IsCounted(q.fetches[i].pc)) + Bit(IsCounted(g.pc)))
    requires q.releaser.Putting? ==> IsCounted(q.fetches[i].pc) == IsCounted(g.pc)
    ensures ContextInv(r, SetFetch(q, i, g), x')
  {
    CountedUpdate(q.fetches, i, g);
  }

  // Before its callback runs, a fetch keeps its request in use.
  lemma FetchInUse(s: Sys, r: Id, i: nat)
    requires Inv(s) && r < |s.reqs| && i < |s.reqs[r].fetches|
    requires !s.reqs[r].fetches[i].pc.Releasing? && !s.reqs[r].fetches[i].pc.Gone?
    ensures InUse(s.reqs[r])
  {
    assert ReqInv(s, r);
    assert FetchInv(s.reqs[r], s.reqs[r].fetches[i]);
  }

  // The fetcher it reads its context from is still bound to the request's context.
  lemma FetcherBound(s: Sys, r: Id, i: nat)
    requires Inv(s) && r < |s.reqs| && i < |s.reqs[r].fetches| && InUse(s.reqs[r])
    ensures s.Fetcher(s.reqs[r].fetches[i].fetcher).ioContext == Some(s.reqs[r].ctx)
  {
    InPlace(s, r);
    var st := Stack(s, r);
    var a := Return(Obj(KFetcher, s.reqs[r].fetches[i].fetcher));
    assert a in st;
    var j :| 0 <= j < |st| && st[j] == a;
    assert ReqInv(s, r) && OpenInv(s, r);
    assert EntryInv(s, s.reqs[r].ctx, st, j);
  }

  // The request and its context after the move; its event does not see it.
  lemma FetchTrio(r: Id, q: Req, x: Ctx, x': Ctx, e: Evt, i: nat, g: Fetch)
    requires Trio(r, q, x, e) && InUse(q) && i < |q.fetches| && FetchInv(q, g)
    requires x'.(held := x.held) == x.(fetches := x.fetches - Bit(IsCounted(q.fetches[i].pc)) + Bit(IsCounted(g.pc)))
    ensures Trio(r, SetFetch(q, i, g), x', e)
  {
    FetchMovesRequest(q, i, g);
    FetchMovesContext(r, q, x, x', i, g);
    EventFrame(r, q, SetFetch(q, i, g), e);
  }

  // A fetch of request r moves to g: its counts move with it.
  ghost predicate FetchMoves(s: Sys, s': Sys, r: Id, i: nat, g: Fetch) {
    && r < |s.reqs| && i < |s.reqs[r].fetches| && s.reqs[r].ctx < |s.ctxs|
    && var q := s.reqs[r]; var h := q.fetches[i]; var y := s.ctxs[q.ctx];
    var x := y.(fetches := y.fetches - Bit(IsCounted(h.pc)) + Bit(IsCounted(g.pc)),
                held := y.held - Bit(Holds(h.pc, q.ctx)) + Bit(Holds(g.pc, q.ctx)));
    && s' == s.(reqs := s.reqs[r := SetFetch(q, i, g)], ctxs := s.ctxs[q.ctx := x]) && x.held <= CONCURRENCY
    && FetchInv(q, g) && g.fetcher == h.fetcher && g.response == h.response
    && (g.callback == Settled(true) ==> h.callback == Settled(true))
  }

  lemma FetchLocal(s: Sys, s': Sys, r: Id, i: nat, g: Fetch)
    requires FetchMoves(s, s', r, i, g) && InUse(s.reqs[r])
    ensures Local(s, s', r) && SameHoldings(s.reqs[r], s'.reqs[r])
  {}

  lemma FetchHeld(s: Sys, s': Sys, r: Id, i: nat, g: Fetch)
    requires FetchMoves(s, s', r, i, g) && HeldInv(s) && FetchInv(s.reqs[r], s.reqs[r].fetches[i])
    ensures HeldInv(s')
  {
    HeldMoves(s, s', r, i, g, s.reqs[r].ctx);
  }

  lemma FetchKeeps(s: Sys, s': Sys, r: Id, i: nat, g: Fetch)
    requires Inv(s) && FetchMoves(s, s', r, i, g) && InUse(s.reqs[r])
    ensures Inv(s')
  {
    FetchMoved(s, s', r, i, g);
    FetchLocal(s, s', r, i, g);
    FetchHeld(s, s', r, i, g);
    TrioKeeps(s, s', r);
  }

  lemma FetchMoved(s: Sys, s': Sys, r: Id, i: nat, g: Fetch)
    requires Inv(s) && FetchMoves(s, s', r, i, g) && InUse(s.reqs[r])
    ensures Trio(r, s'.reqs[r], s'.Ctx(s.reqs[r].ctx), s'.Evt(s.reqs[r].evt)) && s'.evts == s.evts
    ensures FetchInv(s.reqs[r], s.reqs[r].fetches[i])
  {
    var q := s.reqs[r];
    assert FetchInv(q, q.fetches[i]) by { assert ReqInv(s, r) && RequestInv(q); }
    TrioInPlace(s, r);
    FetchTrio(r, q, s.ctxs[q.ctx], s'.ctxs[q.ctx], s.evts[q.evt], i, g);
  }

  // The two steps that read the fetcher's context, and the three that count.

  // What a step of a fetch goroutine needs to find.
  ghost predicate FetchFinds(s: Sys, r: Id, i: nat) {
    && r < |s.reqs| && i < |s.reqs[r].fetches| && s.reqs[r].ctx < |s.ctxs|
    && var q := s.reqs[r]; var g := q.fetches[i]; var x := s.ctxs[q.ctx];
    && x.held <= CONCURRENCY && FetchInv(q, g) && s.Fetcher(g.fetcher).ioContext == Some(q.ctx)
    && (IsCounted(g.pc) ==> x.fetches >= 1) && x.shouldExtend == (q.extenders != [])
  }

  lemma ReadMoves(s: Sys, r: Id, i: nat)
    requires FetchFinds(s, r, i) && (s.reqs[r].fetches[i].pc.Start? || s.reqs[r].fetches[i].pc.Counted?)
    ensures DoFetchStep(s, r, i).reqs[r].fetches[i]
      == s.reqs[r].fetches[i].(pc := DoFetchStep(s, r, i).reqs[r].fetches[i].pc)
    ensures FetchMoves(s, DoFetchStep(s, r, i), r, i, DoFetchStep(s, r, i).reqs[r].fetches[i])
  {
    var q, g := s.reqs[r], s.reqs[r].fetches[i];
    var g' := g.(pc := if g.pc.Start? then Acquiring(q.ctx, s.ctxs[q.ctx].Context()) else Running(q.ctx));
    assert DoFetchStep(s, r, i) == s.(reqs := s.reqs[r := SetFetch(q, i, g')]);
    assert s.ctxs[q.ctx := s.ctxs[q.ctx]] == s.ctxs;
  }

  lemma CountMoves(s: Sys, r: Id, i: nat)
    requires FetchFinds(s, r, i)
    requires var pc := s.reqs[r].fetches[i].pc;
      (pc.Acquiring? && s.ctxs[s.reqs[r].ctx].held < CONCURRENCY) || pc.Admitted? || pc.Returning?
    ensures DoFetchStep(s, r, i).reqs[r].fetches[i]
      == s.reqs[r].fetches[i].(pc := DoFetchStep(s, r, i).reqs[r].fetches[i].pc)
    ensures FetchMoves(s, DoFetchStep(s, r, i), r, i, DoFetchStep(s, r, i).reqs[r].fetches[i])
  {
    var q, g, x := s.reqs[r], s.reqs[r].fetches[i], s.ctxs[s.reqs[r].ctx];
    if g.pc.Acquiring? {
      assert DoFetchStep(s, r, i)
          == s.(reqs := s.reqs[r := SetFetch(q, i, g.(pc := Admitted(q.ctx)))],
              ctxs := s.ctxs[q.ctx := x.(held := x.held + 1)]);
    } else if g.pc.Admitted? {
      assert DoFetchStep(s, r, i)
          == s.(reqs := s.reqs[r := SetFetch(q, i, g.(pc := Counted(q.ctx)))],
              ctxs := s.ctxs[q.ctx := x.(fetches := x.fetches + 1)]);
    } else {
      assert DoFetchStep(s, r, i)
          == s.(reqs := s.reqs[r := SetFetch(q, i, g.(pc := Releasing(q.ctx)))],
              ctxs := s.ctxs[q.ctx := x.(fetches := x.fetches - 1)]);
    }
  }

  lemma KeepsFetchRead(s: Sys, r: Id, i: nat)
    requires Inv(s) && r < |s.reqs| && i < |s.reqs[r].fetches|
    requires s.reqs[r].fetches[i].pc.Start? || s.reqs[r].fetches[i].pc.Counted?
    ensures Inv(DoFetchStep(s, r, i))
  {
    FetchInUse(s, r, i);
    FetchFacts(s, r, i);
    ReadMoves(s, r, i);
    FetchKeeps(s, DoFetchStep(s, r, i), r, i, DoFetchStep(s, r, i).reqs[r].fetches[i]);
  }

  lemma KeepsFetchCount(s: Sys, r: Id, i: nat)
    requires Inv(s) && r < |s.reqs| && i < |s.reqs[r].fetches|
    requires var pc := s.reqs[r].fetches[i].pc;
      (pc.Acquiring? && s.Ctx(pc.ctx).held < CONCURRENCY) || pc.Admitted? || pc.Returning?
    ensures Inv(DoFetchStep(s, r, i))
  {
    FetchInUse(s, r, i);
    FetchFacts(s, r, i);
    CountMoves(s, r, i);
    FetchKeeps(s, DoFetchStep(s, r, i), r, i, DoFetchStep(s, r, i).reqs[r].fetches[i]);
  }

  // It finds its context, counted if it is counted.
  lemma FetchFacts(s: Sys, r: Id, i: nat)
    requires Inv(s) && r < |s.reqs| && i < |s.reqs[r].fetches| && InUse(s.reqs[r])
    ensures FetchFinds(s, r, i)
  {
    FetcherBound(s, r, i);
    InPlace(s, r);
    assert ReqInv(s, r) && RequestInv(s.reqs[r]);
    if IsCounted(s.reqs[r].fetches[i].pc) { CountedSome(s.reqs[r].fetches, i); }
  }

  lemma KeepsFetchRefused(s: Sys, r: Id, i: nat)
    requires Inv(s) && r < |s.reqs| && i < |s.reqs[r].fetches| && s.reqs[r].fetches[i].pc.Acquiring?
    ensures Inv(DoFetchRefused(s, r, i))
  {
    var q := s.reqs[r];
    var g := q.fetches[i];
    FetchInUse(s, r, i);
    FetchFacts(s, r, i);
    FetchKeeps(s, DoFetchRefused(s, r, i), r, i, g.(pc := Gone, callback := Scheduled(false)));
  }

  lemma KeepsFetchReturn(s: Sys, r: Id, i: nat, ok: bool)
    requires Inv(s) && r < |s.reqs| && i < |s.reqs[r].fetches| && s.reqs[r].fetches[i].pc.Running?
    ensures Inv(DoFetchReturn(s, r, i, ok))
  {
    var q := s.reqs[r];
    var g := q.fetches[i];
    FetchInUse(s, r, i);
    FetchFacts(s, r, i);
    FetchKeeps(s, DoFetchReturn(s, r, i, ok), r, i, g.(pc := Returning(g.pc.ctx), callback := Scheduled(ok)));
  }

  lemma KeepsAdopt(s: Sys, r: Id, i: nat, o: Owner)
    requires Inv(s) && r < |s.reqs| && i < |s.reqs[r].fetches| && Active(s.reqs[r], o)
    ensures Inv(s.SetReq(r, SetFetch(s.reqs[r], i, s.reqs[r].fetches[i].(owner := o))))
  {
    var q := s.reqs[r];
    var g := q.fetches[i];
    LiveInUse(s, r, o);
    FetchFacts(s, r, i);
    FetchKeeps(s, s.SetReq(r, SetFetch(q, i, g.(owner := o))), r, i, g.(owner := o));
  }

  // The pending limiter.Release: by now the context may serve another request,
  // or be in the pool; only its permits change.
  lemma LateReleaseLocal(s: Sys, s': Sys, r: Id, i: nat)
    requires Inv(s) && r < |s.reqs| && i < |s.reqs[r].fetches| && s.reqs[r].fetches[i].pc.Releasing?
    requires s.reqs[r].ctx < |s.ctxs|
    requires var q := s.reqs[r]; var x := s.ctxs[q.ctx];
      s' == s.(reqs := s.reqs[r := SetFetch(q, i, q.fetches[i].(pc := Gone))],
          ctxs := s.ctxs[q.ctx := x.(held := x.held - 1)])
    ensures Local(s, s', r) && SameHoldings(s.reqs[r], s'.reqs[r])
    ensures s.reqs[r].Open() && HoldingInv(s, s.reqs[r], Stack(s, r)) ==> HoldingInv(s', s'.reqs[r], Stack(s, r))
  {
    var q := s.reqs[r];
    if q.Open() && HoldingInv(s, q, Stack(s, r)) { HoldingKept(s, s', r); }
  }

  lemma LateReleaseHeld(s: Sys, s': Sys, r: Id, i: nat)
    requires Inv(s) && r < |s.reqs| && i < |s.reqs[r].fetches| && s.reqs[r].fetches[i].pc.Releasing?
    requires s.reqs[r].ctx < |s.ctxs|
    requires var q := s.reqs[r]; var x := s.ctxs[q.ctx];
      s' == s.(reqs := s.reqs[r := SetFetch(q, i, q.fetches[i].(pc := Gone))],
          ctxs := s.ctxs[q.ctx := x.(held := x.held - 1)])
    ensures HeldInv(s')
  {
    var q := s.reqs[r];
    var g := q.fetches[i];
    assert FetchInv(q, g) by { assert ReqInv(s, r); }
    HeldMoves(s, s', r, i, g.(pc := Gone), q.ctx);
  }

  lemma LateReleaseOpen(s: Sys, r: Id, i: nat, x': Ctx)
    requires Inv(s) && r < |s.reqs| && i < |s.reqs[r].fetches| && s.reqs[r].fetches[i].pc.Releasing?
    requires s.reqs[r].Open() && s.reqs[r].ctx < |s.ctxs| && SameCtx(s.ctxs[s.reqs[r].ctx], x')
    ensures var q := s.reqs[r]; var q' := SetFetch(q, i, q.fetches[i].(pc := Gone));
      && ContextInv(r, q', x')
      && (x'.cleanups != [] ==> EventInv(r, q', s.Evt(q.evt)))
      && (!q.releaser.Cleaning? && !q.releaser.Putting? ==> HoldingInv(s, q, Stack(s, r)))
  {
    assert ReqInv(s, r) && OpenInv(s, r);
    var q := s.reqs[r];
    FetchMovesContext(r, q, s.ctxs[q.ctx], x', i, q.fetches[i].(pc := Gone));
    EventFrame(r, q, SetFetch(q, i, q.fetches[i].(pc := Gone)), s.Evt(q.evt));
  }

  lemma LateReleaseStep(s: Sys, r: Id, i: nat)
    requires HeldInv(s) && r < |s.reqs| && i < |s.reqs[r].fetches| && s.reqs[r].ctx < |s.ctxs|
    requires s.reqs[r].fetches[i].pc == Releasing(s.reqs[r].ctx)
    ensures var q := s.reqs[r]; var x := s.ctxs[q.ctx];
      DoFetchStep(s, r, i) ==
        s.(reqs := s.reqs[r := SetFetch(q, i, q.fetches[i].(pc := Gone))],
            ctxs := s.ctxs[q.ctx := x.(held := x.held - 1)])
  {
    HeldSome(s.reqs, r, i, s.reqs[r].ctx);
  }

  lemma KeepsLateRelease(s: Sys, r: Id, i: nat)
    requires Inv(s) && r < |s.reqs| && i < |s.reqs[r].fetches| && s.reqs[r].fetches[i].pc.Releasing?
    ensures Inv(DoFetchStep(s, r, i)) && s.reqs[r].ctx < |s.ctxs|
    ensures var q := s.reqs[r]; var x := s.ctxs[q.ctx];
      DoFetchStep(s, r, i) ==
        s.(reqs := s.reqs[r := SetFetch(q, i, q.fetches[i].(pc := Gone))],
            ctxs := s.ctxs[q.ctx := x.(held := x.held - 1)])
  {
    var q := s.reqs[r];
    assert q.ctx < |s.ctxs| && FetchInv(q, q.fetches[i]) by { assert ReqInv(s, r) && RequestInv(q); }
    LateReleaseStep(s, r, i);
    LateReleaseKeeps(s, DoFetchStep(s, r, i), r, i);
  }

  lemma LateReleaseKeeps(s: Sys, s': Sys, r: Id, i: nat)
    requires Inv(s) && r < |s.reqs| && i < |s.reqs[r].fetches| && s.reqs[r].fetches[i].pc.Releasing?
    requires s.reqs[r].ctx < |s.ctxs|
    requires var q := s.reqs[r]; var x := s.ctxs[q.ctx];
      s' == s.(reqs := s.reqs[r := SetFetch(q, i, q.fetches[i].(pc := Gone))],
          ctxs := s.ctxs[q.ctx := x.(held := x.held - 1)])
    ensures Inv(s')
  {
    var q := s.reqs[r];
    LateReleaseRequest(s, r, i);
    LateReleaseLocal(s, s', r, i);
    LateReleaseHeld(s, s', r, i);
    if q.Open() { LateReleaseOpen(s, r, i, s'.ctxs[q.ctx]); }
    LocalKeeps(s, s', r);
  }

  lemma LateReleaseRequest(s: Sys, r: Id, i: nat)
    requires Inv(s) && r < |s.reqs| && i < |s.reqs[r].fetches| && s.reqs[r].fetches[i].pc.Releasing?
    ensures RequestInv(SetFetch(s.reqs[r], i, s.reqs[r].fetches[i].(pc := Gone)))
  {
    var q := s.reqs[r];
    assert RequestInv(q) && FetchInv(q, q.fetches[i]) by { assert ReqInv(s, r); }
    FetchMovesRequest(q, i, q.fetches[i].(pc := Gone));
  }

  // wait, and release until cleaning.

  lemma WaiterRequest(q: Req, w: WaitPc)
    requires RequestInv(q) && !q.waiter.NoWait? && !w.NoWait?
    requires (w.OnReqCtx? ==> q.extenders == []) && (w.OnExtenders? ==> q.extenders != [])
    requires w.ToCancel? || w.Ended? ==> Quiet(q) && (q.gone || q.extenders != [])
    requires q.releaser.OnCancelled?
    ensures RequestInv(q.(waiter := w))
  {
    var q' := q.(waiter := w);
    assert forall o :: Live(q', o) == Live(q, o) && Active(q', o) == Active(q, o);
    SameOwners(q, q');
  }

  // The value wait will leave in its program counter, and in the context.
  lemma TrioWaiter(r: Id, q: Req, x: Ctx, e: Evt, w: WaitPc, x': Ctx)
    requires Trio(r, q, x, e) && q.releaser.OnCancelled?
    requires match q.waiter
             case Begin => w == (if x.shouldExtend then OnExtenders else OnReqCtx) && x' == x
             case OnExtenders => x.extenders == 0 && w.ToCancel? && x' == x
             case OnReqCtx => q.gone && w.ToCancel? && x' == x
             case ToCancel => w.Ended? && x' == x.(extended := Cancelled)
             case _ => false
    ensures Trio(r, q.(waiter := w), x', e)
  {
    TruesZero(q.extenders);
    if w.ToCancel? { assert Quiet(q); }
    WaiterRequest(q, w);
    EventFrame(r, q, q.(waiter := w), e);
  }

  // wait runs on a context that is not yet retired.
  lemma BeforeEnded(q: Req)
    requires RequestInv(q) && !q.waiter.NoWait? && !q.waiter.Ended?
    ensures InUse(q) && q.releaser.OnCancelled?
  {}

  lemma WaitRuns(s: Sys, r: Id)
    requires Inv(s) && r < |s.reqs| && !s.reqs[r].waiter.NoWait? && !s.reqs[r].waiter.Ended?
    ensures InUse(s.reqs[r]) && s.reqs[r].releaser.OnCancelled?
    ensures var q := s.reqs[r]; var x := s.ctxs[q.ctx]; q.ctx < |s.ctxs| && x.request.Some? && !x.extended.Nil?
  {
    assert ReqInv(s, r);
    BeforeEnded(s.reqs[r]);
    TrioInPlace(s, r);
  }

  lemma KeepsWaitStep(s: Sys, r: Id)
    requires Inv(s) && r < |s.reqs| && !s.reqs[r].waiter.NoWait? && !s.reqs[r].waiter.Ended?
    requires s.reqs[r].waiter.OnExtenders? ==> s.Ctx(s.reqs[r].ctx).extenders == 0
    requires s.reqs[r].waiter.OnReqCtx? ==> s.Ctx(s.reqs[r].ctx).request.None? || s.IsGone(s.Ctx(s.reqs[r].ctx).request)
    ensures Inv(DoWaitStep(s, r))
  {
    WaitRuns(s, r);
    TrioInPlace(s, r);
    var q := s.reqs[r];
    var x := s.ctxs[q.ctx];
    var w := match q.waiter
             case Begin => if x.shouldExtend then OnExtenders else OnReqCtx
             case ToCancel => Ended
             case _ => ToCancel;
    var x' := if q.waiter.ToCancel? then x.(extended := Cancelled) else x;
    TrioWaiter(r, q, x, s.evts[q.evt], w, x');
    if q.waiter.ToCancel? {
      CtxKeeps(s, r, q.(waiter := w), x');
    } else {
      ReqKeeps(s, r, q.(waiter := w));
    }
  }

  lemma TrioReleaser(r: Id, q: Req, x: Ctx, e: Evt)
    requires Trio(r, q, x, e)
    ensures q.releaser.OnCancelled? && x.extended.Cancelled? ==> Trio(r, q.(releaser := OnFetches), x, e)
  {
    var q' := q.(releaser := OnFetches);
    assert forall o :: Live(q', o) == Live(q, o) && Active(q', o) == Active(q, o);
    SameOwners(q, q');
  }

  lemma KeepsReleaseCancelled(s: Sys, r: Id)
    requires Inv(s) && r < |s.reqs| && s.reqs[r].releaser.OnCancelled? && s.Ctx(s.reqs[r].ctx).extended != Uncancelled
    ensures Inv(DoReleaseStep(s, r))
  {
    assert InUse(s.reqs[r]) by { assert ReqInv(s, r); }
    TrioInPlace(s, r);
    TrioReleaser(r, s.reqs[r], s.ctxs[s.reqs[r].ctx], s.evts[s.reqs[r].evt]);
    ReqKeeps(s, r, s.reqs[r].(releaser := OnFetches));
  }

  // fetchGroup.Wait has returned: every fetch has settled and released its count.
  lemma AllReleased(r: Id, q: Req, x: Ctx)
    requires RequestInv(q) && ContextInv(r, q, x) && q.releaser.OnFetches? && x.fetches == 0
    ensures forall i :: 0 <= i < |q.fetches| ==>
      q.fetches[i].callback.Settled? && (q.fetches[i].pc.Releasing? || q.fetches[i].pc.Gone?)
  {
    CountedZero(q.fetches);
    forall i | 0 <= i < |q.fetches|
      ensures q.fetches[i].callback.Settled? && (q.fetches[i].pc.Releasing? || q.fetches[i].pc.Gone?)
    {
      assert FetchInv(q, q.fetches[i]);
    }
  }

  lemma CleaningValue(r: Id, q: Req, x: Ctx, e: Evt)
    requires Trio(r, q, x, e) && q.releaser.OnFetches? && x.fetches == 0
    ensures Trio(r, q.(releaser := Cleaning), x, e)
  {
    AllReleased(r, q, x);
    var q' := q.(releaser := Cleaning);
    assert forall o :: Live(q', o) == Live(q, o) && Active(q', o) == Active(q, o);
    SameOwners(q, q');
  }

  lemma KeepsReleaseFetches(s: Sys, r: Id)
    requires Inv(s) && r < |s.reqs| && s.reqs[r].releaser.OnFetches? && s.Ctx(s.reqs[r].ctx).fetches == 0
    ensures Inv(DoReleaseStep(s, r))
  {
    assert InUse(s.reqs[r]) by { assert ReqInv(s, r); }
    TrioInPlace(s, r);
    CleaningValue(r, s.reqs[r], s.ctxs[s.reqs[r].ctx], s.evts[s.reqs[r].evt]);
    ReqKeeps(s, r, s.reqs[r].(releaser := Cleaning));
  }
}
