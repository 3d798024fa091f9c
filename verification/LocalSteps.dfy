// Steps that take nothing from a pool and register nothing: each keeps the
// invariant because it keeps what it says about its own request.
module LocalSteps {
  import opened Base
  import opened Objects
  import opened Programs
  import opened Potentials
  import opened Middleware
  import opened Invariants
  import opened Frames
  import opened Ownership
  import opened EventSteps

  // The request, its context (not the cleanup stack) and its event may change.
  ghost predicate Local(s: Sys, s': Sys, r: Id) {
    && r < |s.reqs| == |s'.reqs| && |s.ctxs| == |s'.ctxs| && |s.evts| == |s'.evts|
    && s'.fetchers == s.fetchers && s'.responses == s.responses && s'.streams == s.streams
    && s'.headers == s.headers && s'.pools == s.pools && s'.home == s.home && s'.crashed == s.crashed
    && var q, q' := s.reqs[r], s'.reqs[r];
    && (forall i :: 0 <= i < |s.reqs| && i != r ==> s'.reqs[i] == s.reqs[i])
    && q'.ctx == q.ctx && q'.evt == q.evt && q'.Open() == q.Open()
    && (forall c :: 0 <= c < |s.ctxs| && c != q.ctx ==> s'.ctxs[c] == s.ctxs[c])
    && (if q.Open() then s'.Ctx(q.ctx).cleanups == s.Ctx(q.ctx).cleanups else SameCtx(s.Ctx(q.ctx), s'.Ctx(q.ctx)))
    && (forall e :: 0 <= e < |s.evts| && e != q.evt ==> s'.evts[e] == s.evts[e])
    && (Stack(s, r) == [] ==> s'.evts == s.evts)
  }

  lemma LocalUntouched(s: Sys, s': Sys, r: Id)
    requires Inv(s) && Local(s, s', r)
    ensures Untouched(s, s', r)
    ensures Stack(s', r) == Stack(s, r)
  {
    OwnPair(s, r);
    forall o | IsOthers(s, r, o) || IsSpare(s, o) ensures SameObj(s, s', o) { LocalElsewhere(s, s', r, o); }
  }

  // The context of an open request, and its event while on the stack, are its own.
  lemma OwnPair(s: Sys, r: Id)
    requires Inv(s) && r < |s.reqs|
    ensures var q := s.reqs[r];
      && (q.Open() ==> Obj(KContext, q.ctx) in s.home && s.home[Obj(KContext, q.ctx)] == Owned(r))
      && (Stack(s, r) != [] ==> Obj(KEvent, q.evt) in s.home && s.home[Obj(KEvent, q.evt)] == Owned(r))
  {
    assert ReqInv(s, r);
    if Stack(s, r) != [] { assert Stack(s, r)[0] == Return(Obj(KEvent, s.reqs[r].evt)); }
  }

  lemma LocalElsewhere(s: Sys, s': Sys, r: Id, o: Obj)
    requires Inv(s) && Local(s, s', r) && o in s.home && s.home[o] != Owned(r)
    ensures SameObj(s, s', o)
  {
    OwnPair(s, r);
  }

  lemma LocalOwned(s: Sys, s': Sys, r: Id)
    requires Inv(s) && Local(s, s', r)
    ensures OwnInv(s')
  {
    LocalUntouched(s, s', r);
    forall i | 0 <= i < |s.reqs| && i != r ensures Stack(s', i) == Stack(s, i) { OtherStack(s, s', r, i); }
    assert forall k :: s'.Made(k) == s.Made(k);
    OwnKept(s, s', r);
  }

  lemma LocalKeeps(s: Sys, s': Sys, r: Id)
    requires Inv(s) && Local(s, s', r) && HeldInv(s') && RequestInv(s'.reqs[r])
    requires s.reqs[r].Open() ==>
      var q', x' := s'.reqs[r], s'.Ctx(s.reqs[r].ctx);
      && ContextInv(r, q', x')
      && (x'.cleanups != [] ==> EventInv(r, q', s'.Evt(q'.evt)))
      && (!q'.releaser.Cleaning? && !q'.releaser.Putting? ==> HoldingInv(s', q', x'.cleanups))
    ensures Inv(s')
  {
    LocalUntouched(s, s', r);
    LocalOwned(s, s', r);
    assert ReqInv(s, r);
    var q, st := s.reqs[r], Stack(s, r);
    if q.Open() {
      forall j | 0 <= j < |st| ensures EntryInv(s', q.ctx, st, j) {
        assert EntryInv(s, q.ctx, st, j);
      }
    }
    Assemble(s, s', r);
  }

  // Permits: a step that moves no fetch over a permit boundary.
  lemma HeldKept(s: Sys, s': Sys, r: Id)
    requires HeldInv(s) && r < |s.reqs| && |s'.ctxs| == |s.ctxs|
    requires r < |s'.reqs| && s'.reqs == s.reqs[r := s'.reqs[r]]
    requires forall c :: 0 <= c < |s.ctxs| ==> s'.ctxs[c].held == s.ctxs[c].held
    requires forall c :: HeldIn(s'.reqs[r].fetches, c) == HeldIn(s.reqs[r].fetches, c)
    ensures HeldInv(s')
  {
    forall c | 0 <= c < |s'.ctxs| ensures s'.ctxs[c].held == HeldBy(s'.reqs, c) <= CONCURRENCY {
      HeldByUpdate(s.reqs, r, s'.reqs[r], c);
    }
  }

  // A fetch that is past start-up and not yet gone changes its permit on context c.
  lemma HeldMoves(s: Sys, s': Sys, r: Id, i: nat, g: Fetch, c: Id)
    requires HeldInv(s) && r < |s.reqs| && i < |s.reqs[r].fetches| && c < |s.ctxs| == |s'.ctxs|
    requires s'.reqs == s.reqs[r := SetFetch(s.reqs[r], i, g)]
    requires forall k :: 0 <= k < |s.ctxs| && k != c ==> s'.ctxs[k].held == s.ctxs[k].held
    requires forall k :: k != c ==> Holds(g.pc, k) == Holds(s.reqs[r].fetches[i].pc, k)
    requires s'.ctxs[c].held == s.ctxs[c].held + Bit(Holds(g.pc, c)) - Bit(Holds(s.reqs[r].fetches[i].pc, c))
    requires s'.ctxs[c].held <= CONCURRENCY
    ensures HeldInv(s')
  {
    forall k | 0 <= k < |s'.ctxs| ensures s'.ctxs[k].held == HeldBy(s'.reqs, k) <= CONCURRENCY {
      HeldByUpdate(s.reqs, r, s'.reqs[r], k);
      HeldInUpdate(s.reqs[r].fetches, i, g, k);
    }
  }

  // An owner stays active, or everything it awaited has settled.
  lemma SameOwners(q: Req, q': Req)
    requires FetchesInv(q) && TasksInv(q)
    requires q'.fetches == q.fetches && q'.tasks == q.tasks && q'.ctx == q.ctx && (q.kvRead ==> q'.kvRead)
    requires q.extenders != [] ==> q'.extenders != []
    requires forall o :: Active(q, o) ==> Active(q', o) || SettledFor(q, o)
    ensures FetchesInv(q') && TasksInv(q')
  {
    forall i | 0 <= i < |q'.fetches| ensures FetchInv(q', q'.fetches[i]) { assert FetchInv(q, q.fetches[i]); }
    forall i | 0 <= i < |q'.tasks| ensures TaskInv(q', q'.tasks[i]) { assert TaskInv(q, q.tasks[i]); }
  }

  // From TakeEvent until the first cleanup the event and context are in place.
  ghost predicate InUse(q: Req) {
    !q.http.GotContext? && !q.releaser.Cleaning? && !q.releaser.Putting? && !q.releaser.Closed?
  }

  lemma InPlace(s: Sys, r: Id)
    requires Inv(s) && r < |s.reqs| && InUse(s.reqs[r])
    ensures s.reqs[r].Open() && s.reqs[r].ctx < |s.ctxs| && s.reqs[r].evt < |s.evts|
    ensures Stack(s, r) != [] && Stack(s, r) == s.Ctx(s.reqs[r].ctx).cleanups
    ensures ContextInv(r, s.reqs[r], s.Ctx(s.reqs[r].ctx))
    ensures EventInv(r, s.reqs[r], s.Evt(s.reqs[r].evt))
    ensures HoldingInv(s, s.reqs[r], Stack(s, r))
  {
    assert ReqInv(s, r);
  }

  // A live owner keeps them there.
  lemma LiveInUse(s: Sys, r: Id, o: Owner)
    requires Inv(s) && r < |s.reqs| && Live(s.reqs[r], o)
    ensures InUse(s.reqs[r])
    ensures !s.reqs[r].waiter.ToCancel? && !s.reqs[r].waiter.Ended? && !s.reqs[r].waiter.OnReqCtx?
    ensures !s.reqs[r].handler.Uncalled?
  {
    assert ReqInv(s, r);
    assert RequestInv(s.reqs[r]);
  }

  // A request in use, with its context and its event.
  ghost predicate Trio(r: Id, q: Req, x: Ctx, e: Evt) {
    RequestInv(q) && ContextInv(r, q, x) && EventInv(r, q, e)
  }

  // What the fetches hold does not change when only their progress does.
  ghost predicate SameHoldings(q: Req, q': Req) {
    && |q'.fetches| == |q.fetches| && q'.ctx == q.ctx && q'.evt == q.evt
    && (forall i :: 0 <= i < |q.fetches| ==>
          && q'.fetches[i].fetcher == q.fetches[i].fetcher && q'.fetches[i].response == q.fetches[i].response
          && (q'.fetches[i].callback == Settled(true) ==> q.fetches[i].callback == Settled(true)))
    && |q'.tasks| == |q.tasks| && (forall i :: 0 <= i < |q.tasks| ==> q'.tasks[i].late == q.tasks[i].late)
  }

  lemma HoldingKept(s: Sys, s': Sys, r: Id)
    requires Local(s, s', r) && SameHoldings(s.reqs[r], s'.reqs[r])
    requires HoldingInv(s, s.reqs[r], Stack(s, r)) && s'.Evt(s.reqs[r].evt).fetcher == s.Evt(s.reqs[r].evt).fetcher
    requires s'.Evt(s.reqs[r].evt).body == s.Evt(s.reqs[r].evt).body
    ensures HoldingInv(s', s'.reqs[r], Stack(s, r))
  {
    var q, q' := s.reqs[r], s'.reqs[r];
    forall i | 0 <= i < |q'.fetches|
      ensures q'.fetches[i].callback == Settled(true) ==>
        s'.Response(q'.fetches[i].response) == s.Response(q.fetches[i].response)
    {}
  }

  lemma TrioKeeps(s: Sys, s': Sys, r: Id)
    requires Inv(s) && Local(s, s', r) && InUse(s.reqs[r]) && HeldInv(s')
    requires Trio(r, s'.reqs[r], s'.Ctx(s.reqs[r].ctx), s'.Evt(s.reqs[r].evt))
    requires SameHoldings(s.reqs[r], s'.reqs[r]) && s'.Evt(s.reqs[r].evt).fetcher == s.Evt(s.reqs[r].evt).fetcher
    requires s'.Evt(s.reqs[r].evt).body == s.Evt(s.reqs[r].evt).body
    ensures Inv(s')
  {
    InPlace(s, r);
    HoldingKept(s, s', r);
    LocalKeeps(s, s', r);
  }

  // The same for a step that leaves the fetches as they are.
  lemma PlainKeeps(s: Sys, s': Sys, r: Id)
    requires Inv(s) && Local(s, s', r) && InUse(s.reqs[r])
    requires s'.reqs[r].fetches == s.reqs[r].fetches && s'.reqs[r].tasks == s.reqs[r].tasks
    requires forall c :: 0 <= c < |s.ctxs| ==> s'.ctxs[c].held == s.ctxs[c].held
    requires Trio(r, s'.reqs[r], s'.Ctx(s.reqs[r].ctx), s'.Evt(s.reqs[r].evt))
    requires s'.Evt(s.reqs[r].evt).fetcher == s.Evt(s.reqs[r].evt).fetcher
    requires s'.Evt(s.reqs[r].evt).body == s.Evt(s.reqs[r].evt).body
    ensures Inv(s')
  {
    assert s'.reqs == s.reqs[r := s'.reqs[r]];
    HeldKept(s, s', r);
    TrioKeeps(s, s', r);
  }

  lemma TrioInPlace(s: Sys, r: Id)
    requires Inv(s) && r < |s.reqs| && InUse(s.reqs[r])
    ensures s.reqs[r].Open() && s.reqs[r].ctx < |s.ctxs| && s.reqs[r].evt < |s.evts| && Stack(s, r) != []
    ensures Trio(r, s.reqs[r], s.ctxs[s.reqs[r].ctx], s.evts[s.reqs[r].evt])
  {
    assert ReqInv(s, r);
  }
}
