// A request begins with Get, and ends with release: the cleanups, and Put.
module EndSteps {
  import opened Base
  import opened Objects
  import opened Programs
  import opened Potentials
  import opened Middleware
  import opened Invariants
  import opened Frames
  import opened Ownership
  import opened LocalSteps
  import opened RequestSteps
  import opened FetchSteps
  import opened TakeSteps
  import opened ScriptSteps

  // IOContextPool.Get

  lemma {:induction false} HeldInNone(fs: seq<Fetch>, c: Id)
    requires forall i :: 0 <= i < |fs| ==> !Holds(fs[i].pc, c)
    ensures HeldIn(fs, c) == 0
  {
    if fs != [] { HeldInNone(fs[..|fs| - 1], c); }
  }

  // A context that no request has used has no permit out.
  lemma {:induction false} HeldByNone(reqs: seq<Req>, c: Id)
    requires forall r, i :: 0 <= r < |reqs| && 0 <= i < |reqs[r].fetches| ==> !Holds(reqs[r].fetches[i].pc, c)
    ensures HeldBy(reqs, c) == 0
  {
    if reqs != [] {
      HeldInNone(reqs[|reqs| - 1].fetches, c);
      HeldByNone(reqs[..|reqs| - 1], c);
    }
  }

  lemma NewContextUnheld(s: Sys, c: Id)
    requires Inv(s) && c >= |s.ctxs|
    ensures HeldBy(s.reqs, c) == 0
  {
    forall r, i | 0 <= r < |s.reqs| && 0 <= i < |s.reqs[r].fetches|
      ensures !Holds(s.reqs[r].fetches[i].pc, c)
    {
      assert ReqInv(s, r) && FetchInv(s.reqs[r], s.reqs[r].fetches[i]);
    }
    HeldByNone(s.reqs, c);
  }

  lemma ArriveShape(s: Sys)
    requires s.Queue(KContext) != [] ==> s.Pick(KContext) < |s.ctxs|
    ensures var s', c := DoArrive(s), s.Pick(KContext);
      && s' == s.(reqs := s.reqs + [NewReq(c)], ctxs := s'.ctxs, pools := s'.pools, home := s'.home)
      && TakesFrom(s, s', KContext, |s.reqs|)
      && c < |s'.ctxs| && |s.ctxs| <= |s'.ctxs| <= |s.ctxs| + 1 && (c < |s.ctxs| || c == |s.ctxs| == |s'.ctxs| - 1)
      && (forall k :: 0 <= k < |s.ctxs| && k != c ==> s'.ctxs[k] == s.ctxs[k])
      && s'.ctxs[c] == (if c < |s.ctxs| then s.ctxs[c] else NewCtx).Begin(|s.reqs|)
  {}

  lemma ArriveHeld(s: Sys)
    requires Inv(s) && (s.Queue(KContext) != [] ==> s.Pick(KContext) < |s.ctxs|)
    ensures HeldInv(DoArrive(s))
  {
    ArriveShape(s);
    var s' := DoArrive(s);
    assert s'.reqs[..|s.reqs|] == s.reqs;
    NewContextUnheld(s, |s.ctxs|);
  }

  lemma ArriveUntouched(s: Sys)
    requires Inv(s) && (s.Queue(KContext) != [] ==> s.Pick(KContext) < |s.ctxs|)
    ensures Untouched(s, DoArrive(s), |s.reqs|)
    ensures forall o :: IsSpare(DoArrive(s), o) ==> IsSpare(s, o)
    ensures (if s.Pick(KContext) < |s.ctxs| then s.ctxs[s.Pick(KContext)] else NewCtx).Idle()
  {
    ArriveShape(s);
    TakenIsFresh(s, KContext, |s.reqs|);
    TakenIsReset(s, KContext, |s.reqs|);
    forall o | IsOthers(s, |s.reqs|, o) || (IsSpare(s, o) && IsSpare(DoArrive(s), o))
      ensures SameObj(s, DoArrive(s), o)
    {
      assert o.id < s.Made(o.kind) && o != Obj(KContext, s.Pick(KContext));
    }
  }

  // The context taken is idle, and nothing another request holds is touched.
  lemma KeepsArrive(s: Sys)
    requires Inv(s)
    ensures Inv(DoArrive(s)) && Untouched(s, DoArrive(s), |s.reqs|)
    ensures var s', c := DoArrive(s), s.Pick(KContext); var x := if c < |s.ctxs| then s.ctxs[c] else NewCtx;
      s'.reqs == s.reqs + [NewReq(c)] && c < |s'.ctxs| && x.Idle() && s'.ctxs[c] == x.Begin(|s.reqs|)
  {
    PickBounds(s, KContext);
    ArriveShape(s);
    ArriveHeld(s);
    ArriveUntouched(s);
    var s', r := DoArrive(s), |s.reqs|;
    forall i | 0 <= i < |s.reqs| ensures Stack(s', i) == Stack(s, i) {
      assert s'.reqs[i] == s.reqs[i];
      OtherStack(s, s', r, i);
    }
    OwnArrive(s, s');
    assert s'.reqs[r] == NewReq(s.Pick(KContext));
    Assemble(s, s', r);
  }

  // FetchEventPool.Get

  lemma TakeEventGrows(s: Sys, r: Id)
    requires r < |s.reqs| && s.reqs[r].Open() && s.reqs[r].ctx < |s.ctxs|
    requires s.Queue(KEvent) != [] ==> s.Pick(KEvent) < |s.evts|
    requires IsReset(s.Take(KEvent, r), Obj(KEvent, s.Pick(KEvent)))
    ensures var s', q, e := DoTakeEvent(s, r), s.reqs[r], s.Pick(KEvent);
      && Grown(s, s', r, KEvent, [])
      && s'.reqs == s.reqs[r := q.(evt := e, http := Prepared)]
      && s'.ctxs[q.ctx] == s.ctxs[q.ctx].RegisterCleanup(Return(Obj(KEvent, e)))
      && e < |s'.evts| && s'.evts[e] == NewEvt.(ioContext := Some(q.ctx), http := Some(r))
      && s'.responses == s.responses
  {
    var q, e := s.reqs[r], s.Pick(KEvent);
    var t1 := s.Take(KEvent, r);
    assert t1 == s.(evts := t1.evts, pools := t1.pools, home := t1.home) && s.evts <= t1.evts && e < |t1.evts|;
    var t2 := t1.(evts := t1.evts[e := NewEvt.(ioContext := Some(q.ctx), http := Some(r))]);
    var t3 := t2.(ctxs := s.ctxs[q.ctx := s.ctxs[q.ctx].RegisterCleanup(Return(Obj(KEvent, e)))]);
    var t4 := t3.(reqs := s.reqs[r := q.(evt := e, http := Prepared)]);
    assert t4 == DoTakeEvent(s, r);
  }

  lemma TrioPrepared(r: Id, q: Req, x: Ctx, e: Id)
    requires RequestInv(q) && ContextInv(r, q, x) && q.http.GotContext?
    ensures Trio(r, q.(evt := e, http := Prepared), x.RegisterCleanup(Return(Obj(KEvent, e))),
                 NewEvt.(ioContext := Some(q.ctx), http := Some(r)))
  {}

  lemma KeepsTakeEvent(s: Sys, r: Id)
    requires Inv(s) && r < |s.reqs| && s.reqs[r].http.GotContext?
    ensures Inv(DoTakeEvent(s, r))
    ensures var s', q, e := DoTakeEvent(s, r), s.reqs[r], s.Pick(KEvent);
      && Stack(s', r) == [Return(Obj(KEvent, e))]
      && e < |s'.evts| && s'.evts[e] == NewEvt.(ioContext := Some(q.ctx), http := Some(r))
  {
    GotFacts(s, r);
    PickBounds(s, KEvent);
    TakenIsReset(s, KEvent, r);
    TakeEventGrows(s, r);
    TakeEventKeeps(s, DoTakeEvent(s, r), r);
  }

  lemma GotFacts(s: Sys, r: Id)
    requires Inv(s) && r < |s.reqs| && s.reqs[r].http.GotContext?
    ensures var q := s.reqs[r];
      && q.Open() && q.ctx < |s.ctxs| && RequestInv(q) && ContextInv(r, q, s.ctxs[q.ctx])
      && q.releaser.NoRelease? && Stack(s, r) == []
  {
    assert ReqInv(s, r);
  }

  lemma TakeEventKeeps(s: Sys, s': Sys, r: Id)
    requires Inv(s) && Grown(s, s', r, KEvent, []) && s.reqs[r].http.GotContext? && s'.responses == s.responses
    requires var q, e := s.reqs[r], s.Pick(KEvent);
      && s'.reqs == s.reqs[r := q.(evt := e, http := Prepared)]
      && s'.ctxs[q.ctx] == s.ctxs[q.ctx].RegisterCleanup(Return(Obj(KEvent, e)))
      && e < |s'.evts| && s'.evts[e] == NewEvt.(ioContext := Some(q.ctx), http := Some(r))
    ensures Inv(s')
  {
    var q := s.reqs[r];
    GotFacts(s, r);
    TrioPrepared(r, q, s.ctxs[q.ctx], s.Pick(KEvent));
    PreparedHeld(s, s', r);
    PreparedHolds(s, s', r);
    PlacedKeeps(s, s', r, KEvent, []);
  }

  lemma PreparedHolds(s: Sys, s': Sys, r: Id)
    requires Grown(s, s', r, KEvent, []) && s'.responses == s.responses && Stack(s, r) == [] && s.reqs[r].fetches == []
    requires s'.reqs == s.reqs[r := s.reqs[r].(evt := s.Pick(KEvent), http := Prepared)] && s.reqs[r].tasks == []
    requires s.Pick(KEvent) < |s'.evts|
    requires s'.evts[s.Pick(KEvent)] == NewEvt.(ioContext := Some(s.reqs[r].ctx), http := Some(r))
    ensures HoldingInv(s', s'.reqs[r], Stack(s', r)) && Placed(s, s', r, KEvent, [])
  {}

  lemma PreparedHeld(s: Sys, s': Sys, r: Id)
    requires HeldInv(s) && r < |s.reqs| && s.reqs[r].ctx < |s.ctxs| == |s'.ctxs|
    requires s'.reqs == s.reqs[r := s.reqs[r].(evt := s.Pick(KEvent), http := Prepared)]
    requires s'.ctxs[s.reqs[r].ctx].held == s.ctxs[s.reqs[r].ctx].held
    requires forall c :: 0 <= c < |s.ctxs| && c != s.reqs[r].ctx ==> s'.ctxs[c] == s.ctxs[c]
    ensures HeldInv(s')
  {
    HeldKept(s, s', r);
  }

  // release: one cleanup

  // s' is s after the top cleanup c of request r has run: c's object is back in
  // its pool, or its response is reset.
  ghost predicate Shrunk(s: Sys, s': Sys, r: Id, c: Cleanup) {
    && r < |s.reqs| && s'.reqs == s.reqs && s.reqs[r].ctx < |s.ctxs| && s'.crashed == s.crashed
    && s.ctxs[s.reqs[r].ctx].cleanups != []
    && s'.ctxs == s.ctxs[s.reqs[r].ctx := s.ctxs[s.reqs[r].ctx].PopCleanup()]
    && c == s.ctxs[s.reqs[r].ctx].cleanups[|s.ctxs[s.reqs[r].ctx].cleanups| - 1]
    && (if c.Return? then GivesTo(s, s', c.obj) else SameStore(s, s'))
    && |s'.evts| == |s.evts| && |s'.fetchers| == |s.fetchers| && |s'.responses| == |s.responses|
    && |s'.streams| == |s.streams| && |s'.headers| == |s.headers|
    && (forall e :: 0 <= e < |s.evts| ==> s'.evts[e] == s.evts[e] || c == Return(Obj(KEvent, e)))
    && (forall f :: 0 <= f < |s.fetchers| ==> s'.fetchers[f] == s.fetchers[f] || c == Return(Obj(KFetcher, f)))
    && (forall p :: 0 <= p < |s.responses| ==>
          if c == ResetResponse(p) then s'.responses[p] == NewResponse else s'.responses[p] == s.responses[p])
    && (forall t :: 0 <= t < |s.streams| ==> s'.streams[t] == s.streams[t] || c == Return(Obj(KStream, t)))
    && (forall h :: 0 <= h < |s.headers| ==> s'.headers[h] == s.headers[h] || c == Return(Obj(KHeaders, h)))
  }

  // The state in which a cleanup leaves the object it returns.
  predicate LeavesReset(s: Sys, s': Sys, o: Obj) {
    match o.kind
    case KContext => false
    case KEvent => s'.Evt(o.id) == s.Evt(o.id).Reset()
    case KFetcher => s'.Fetcher(o.id) == NewFetcher
    case KResponse => s'.Response(o.id) == s.Response(o.id)
    case KStream => s'.Stream(o.id) == NewStream
    case KHeaders => o.id < |s'.headers| && s'.headers[o.id] == NewHeaders
  }

  ghost predicate CanClean(s: Sys, r: Id, c: Cleanup) {
    && r < |s.reqs| && s.reqs[r].ctx < |s.ctxs| && s.reqs[r].releaser.Cleaning?
    && (var st := s.ctxs[s.reqs[r].ctx].cleanups; st != [] && c == st[|st| - 1])
    && s.ctxs[s.reqs[r].ctx].hdrPool
    && (c.Return? ==> c.obj.id < s.Made(c.obj.kind) && !c.obj.kind.KContext? && c.obj.kind in s.pools
                      && (c.obj.kind.KStream? ==> s.Stream(c.obj.id) == Stream(true, true)))
  }

  lemma CleanPlain(s: Sys, r: Id, c: Cleanup)
    requires CanClean(s, r, c) && !c.Return?
    ensures Shrunk(s, DoReleaseStep(s, r), r, c)
  {}

  lemma CleanEvent(s: Sys, r: Id, c: Cleanup)
    requires CanClean(s, r, c) && c.Return? && c.obj.kind.KEvent?
    ensures Shrunk(s, DoReleaseStep(s, r), r, c) && LeavesReset(s, DoReleaseStep(s, r), c.obj)
  {
    var e := c.obj.id;
    var t := s.(ctxs := s.ctxs[s.reqs[r].ctx := s.ctxs[s.reqs[r].ctx].PopCleanup()],
        evts := s.evts[e := s.evts[e].Reset()]);
    assert DoReleaseStep(s, r) == t.Give(c.obj);
  }

  lemma CleanResponse(s: Sys, r: Id, c: Cleanup)
    requires CanClean(s, r, c) && c.Return? && c.obj.kind.KResponse?
    ensures Shrunk(s, DoReleaseStep(s, r), r, c) && LeavesReset(s, DoReleaseStep(s, r), c.obj)
  {
    var t := s.(ctxs := s.ctxs[s.reqs[r].ctx := s.ctxs[s.reqs[r].ctx].PopCleanup()]);
    assert DoReleaseStep(s, r) == t.Give(c.obj);
  }

  lemma CleanFetcher(s: Sys, r: Id, c: Cleanup)
    requires CanClean(s, r, c) && c.Return? && c.obj.kind.KFetcher?
    ensures Shrunk(s, DoReleaseStep(s, r), r, c) && LeavesReset(s, DoReleaseStep(s, r), c.obj)
  {
    var t := s.(ctxs := s.ctxs[s.reqs[r].ctx := s.ctxs[s.reqs[r].ctx].PopCleanup()],
        fetchers := s.fetchers[c.obj.id := NewFetcher]);
    assert DoReleaseStep(s, r) == t.Give(c.obj);
  }

  lemma StreamShape(s: Sys, r: Id, c: Cleanup)
    requires CanClean(s, r, c) && c.Return? && c.obj.kind.KStream?
    ensures DoReleaseStep(s, r) ==
      s.(ctxs := s.ctxs[s.reqs[r].ctx := s.ctxs[s.reqs[r].ctx].PopCleanup()],
          streams := s.streams[c.obj.id := NewStream]).Give(c.obj)
  {}

  lemma CleanStream(s: Sys, r: Id, c: Cleanup)
    requires CanClean(s, r, c) && c.Return? && c.obj.kind.KStream?
    ensures Shrunk(s, DoReleaseStep(s, r), r, c) && LeavesReset(s, DoReleaseStep(s, r), c.obj)
  {
    var o := c.obj;
    var t := s.(ctxs := s.ctxs[s.reqs[r].ctx := s.ctxs[s.reqs[r].ctx].PopCleanup()],
        streams := s.streams[o.id := NewStream]);
    StreamShape(s, r, c);
    assert DoReleaseStep(s, r) == t.(pools := t.Give(o).pools, home := t.Give(o).home);
  }

  lemma CleanHeaders(s: Sys, r: Id, c: Cleanup)
    requires CanClean(s, r, c) && c.Return? && c.obj.kind.KHeaders?
    ensures Shrunk(s, DoReleaseStep(s, r), r, c) && LeavesReset(s, DoReleaseStep(s, r), c.obj)
  {
    var t := s.(ctxs := s.ctxs[s.reqs[r].ctx := s.ctxs[s.reqs[r].ctx].PopCleanup()],
        headers := s.headers[c.obj.id := NewHeaders]);
    assert DoReleaseStep(s, r) == t.Give(c.obj);
  }

  lemma CleanShrinks(s: Sys, r: Id, c: Cleanup)
    requires CanClean(s, r, c)
    ensures Shrunk(s, DoReleaseStep(s, r), r, c)
    ensures c.Return? ==> LeavesReset(s, DoReleaseStep(s, r), c.obj)
  {
    if !c.Return? {
      CleanPlain(s, r, c);
    } else {
      match c.obj.kind {
        case KFetcher => CleanFetcher(s, r, c);
        case KStream => CleanStream(s, r, c);
        case KHeaders => CleanHeaders(s, r, c);
        case KResponse => CleanResponse(s, r, c);
        case _ => CleanEvent(s, r, c);
      }
    }
  }

  // A response whose reset is registered is on the stack.
  lemma ResetIsMine(s: Sys, r: Id, j: nat)
    requires Inv(s) && r < |s.reqs| && s.reqs[r].Open() && j < |Stack(s, r)| && Stack(s, r)[j].ResetResponse?
    ensures var o := Obj(KResponse, Stack(s, r)[j].id); o in s.home && s.home[o] == Owned(r)
  {
    Mine(s, r);
    assert ReqInv(s, r) && OpenInv(s, r);
    assert EntryInv(s, s.reqs[r].ctx, Stack(s, r), j);
    assert forall a :: a in Stack(s, r)[..j] ==> a in Stack(s, r);
  }

  lemma ShrunkElsewhere(s: Sys, s': Sys, r: Id, c: Cleanup, o: Obj)
    requires Inv(s) && Shrunk(s, s', r, c) && s.reqs[r].Open()
    requires o in s.home && s.home[o] != Owned(r)
    ensures SameObj(s, s', o) && o in s'.home && s'.home[o] == s.home[o]
  {
    var n := |Stack(s, r)| - 1;
    Mine(s, r);
    assert Stack(s, r)[n] == c;
    if c.ResetResponse? { ResetIsMine(s, r, n); }
    assert o.id < s.Made(o.kind);
  }

  lemma ShrunkUntouched(s: Sys, s': Sys, r: Id, c: Cleanup)
    requires Inv(s) && Shrunk(s, s', r, c) && s.reqs[r].Open()
    ensures Untouched(s, s', r)
  {
    forall o | o in s.home && s.home[o] != Owned(r)
      ensures SameObj(s, s', o) && o in s'.home && s'.home[o] == s.home[o]
    {
      ShrunkElsewhere(s, s', r, c, o);
    }
  }

  // What is left on the stack is as it was.
  lemma ShrunkEntries(s: Sys, s': Sys, r: Id, c: Cleanup, j: nat)
    requires Inv(s) && Shrunk(s, s', r, c) && s.reqs[r].Open() && j < |Stack(s', r)|
    ensures EntryInv(s', s.reqs[r].ctx, Stack(s', r), j)
  {
    Mine(s, r);
    assert EntryInv(s, s.reqs[r].ctx, Stack(s, r), j) by { assert ReqInv(s, r) && OpenInv(s, r); }
    var n := |Stack(s, r)| - 1;
    assert Stack(s, r)[j].Return? ==> Stack(s, r)[j] != Stack(s, r)[n];
    if Stack(s, r)[j].Return? { assert Stack(s, r)[j] in Stack(s, r); }
    EntryLeft(s, s', r, c, j);
  }

  lemma EntryLeft(s: Sys, s': Sys, r: Id, c: Cleanup, j: nat)
    requires Shrunk(s, s', r, c) && s.reqs[r].Open() && j < |Stack(s', r)|
    requires EntryInv(s, s.reqs[r].ctx, Stack(s, r), j)
    requires var a := Stack(s, r)[j]; a.Return? ==> a != c && a.obj.id < s.Made(a.obj.kind)
    ensures EntryInv(s', s.reqs[r].ctx, Stack(s', r), j)
  {
    var st, st' := Stack(s, r), Stack(s', r);
    assert st'[j] == st[j] && st'[..j] == st[..j] && st == st' + [c];
  }

  // A proxy is returned after its reset: the reset was pushed above the return.
  lemma ResponseWasReset(s: Sys, r: Id)
    requires Inv(s) && r < |s.reqs| && Stack(s, r) != []
    requires var c := Stack(s, r)[|Stack(s, r)| - 1]; c.Return? && c.obj.kind.KResponse?
    ensures s.Response(Stack(s, r)[|Stack(s, r)| - 1].obj.id) == NewResponse
  {
    var st := Stack(s, r);
    var n := |st| - 1;
    assert EntryInv(s, s.reqs[r].ctx, st, n) by { assert ReqInv(s, r) && OpenInv(s, r); }
    forall j | 0 <= j < |st| ensures st[j] != ResetResponse(st[n].obj.id) { NoResetLeft(s, r, j); }
  }

  lemma NoResetLeft(s: Sys, r: Id, j: nat)
    requires Inv(s) && r < |s.reqs| && j < |Stack(s, r)|
    requires var c := Stack(s, r)[|Stack(s, r)| - 1]; c.Return? && c.obj.kind.KResponse?
    ensures Stack(s, r)[j] != ResetResponse(Stack(s, r)[|Stack(s, r)| - 1].obj.id)
  {
    var st := Stack(s, r);
    assert EntryInv(s, s.reqs[r].ctx, st, j) by { assert ReqInv(s, r) && OpenInv(s, r); }
    LastOnce(s, r);
    ResetAbove(s, s.reqs[r].ctx, st, j);
  }

  lemma LastOnce(s: Sys, r: Id)
    requires Inv(s) && r < |s.reqs| && Stack(s, r) != [] && Stack(s, r)[|Stack(s, r)| - 1].Return?
    ensures var st := Stack(s, r); forall i :: 0 <= i < |st| - 1 ==> st[i] != st[|st| - 1]
  {}

  lemma ResetAbove(s: Sys, c: Id, st: seq<Cleanup>, j: nat)
    requires j < |st| && EntryInv(s, c, st, j) && st[|st| - 1].Return? && st[|st| - 1].obj.kind.KResponse?
    requires forall i :: 0 <= i < |st| - 1 ==> st[i] != st[|st| - 1]
    ensures st[j] != ResetResponse(st[|st| - 1].obj.id)
  {
    forall i | 0 <= i < j ensures st[..j][i] != st[|st| - 1] { assert st[i] != st[|st| - 1]; }
  }

  // The channels of an event are empty by the time it is reset.
  lemma ChannelsEmpty(r: Id, q: Req, e: Evt)
    requires EventInv(r, q, e) && RequestInv(q) && q.http.Returned?
    ensures e.requestDone == 0 && e.responseDone == 0
  {}

  lemma EventIsReset(s: Sys, r: Id)
    requires Inv(s) && r < |s.reqs| && s.reqs[r].releaser.Cleaning? && Stack(s, r) != []
    requires var c := Stack(s, r)[|Stack(s, r)| - 1]; c.Return? && c.obj.kind.KEvent?
    ensures s.Evt(Stack(s, r)[|Stack(s, r)| - 1].obj.id).Reset() == NewEvt
  {
    var q, st := s.reqs[r], Stack(s, r);
    assert ReqInv(s, r) && OpenInv(s, r);
    assert EntryInv(s, q.ctx, st, |st| - 1);
    ChannelsEmpty(r, q, s.Evt(q.evt));
  }

  lemma FreedIsReset(s: Sys, s': Sys, r: Id, o: Obj)
    requires Inv(s) && r < |s.reqs| && s.reqs[r].releaser.Cleaning? && Stack(s, r) != []
    requires IsSpare(s', o) && !IsSpare(s, o)
    requires Shrunk(s, s', r, Stack(s, r)[|Stack(s, r)| - 1])
    requires var c := Stack(s, r)[|Stack(s, r)| - 1]; c.Return? ==> LeavesReset(s, s', c.obj)
    ensures IsReset(s', o)
  {
    assert Stack(s, r)[|Stack(s, r)| - 1] == Return(o);
    if o.kind.KEvent? { EventIsReset(s, r); }
    if o.kind.KResponse? { ResponseWasReset(s, r); }
  }

  lemma ContextPops(r: Id, q: Req, x: Ctx)
    requires ContextInv(r, q, x) && q.releaser.Cleaning? && x.cleanups != []
    ensures ContextInv(r, q, x.PopCleanup())
  {
    var c := x.cleanups[|x.cleanups| - 1];
    assert (x.ran + [c])[..|x.ran|] == x.ran;
    assert Reverse(x.ran + [c]) == [c] + Reverse(x.ran);
    assert x.cleanups == x.cleanups[..|x.cleanups| - 1] + [c];
  }

  lemma ShrunkOwned(s: Sys, s': Sys, r: Id, c: Cleanup)
    requires Inv(s) && Shrunk(s, s', r, c) && s.reqs[r].Open()
    requires c.Return? ==> !c.obj.kind.KContext?
    ensures OwnInv(s')
  {
    ShrunkUntouched(s, s', r, c);
    forall i | 0 <= i < |s.reqs| && i != r ensures Stack(s', i) == Stack(s, i) { OtherStack(s, s', r, i); }
    assert Stack(s, r) == Stack(s', r) + [c];
    OwnPop(s, s', r, c);
  }

  lemma ShrunkReq(s: Sys, s': Sys, r: Id, c: Cleanup)
    requires Inv(s) && Shrunk(s, s', r, c) && s.reqs[r].releaser.Cleaning?
    ensures ReqInv(s', r)
  {
    var q := s.reqs[r];
    assert ReqInv(s, r) && OpenInv(s, r);
    ContextPops(r, q, s.ctxs[q.ctx]);
    var st, st' := Stack(s, r), Stack(s', r);
    forall j | 0 <= j < |st'| ensures EntryInv(s', q.ctx, st', j) { ShrunkEntries(s, s', r, c, j); }
    if st' != [] {
      assert EntryInv(s, q.ctx, st, |st'|) && st[|st'|] == c;
      assert st'[0] == st[0];
    }
  }

  lemma TopFacts(s: Sys, r: Id)
    requires Inv(s) && r < |s.reqs| && s.reqs[r].releaser.Cleaning? && Stack(s, r) != []
    ensures CanClean(s, r, Stack(s, r)[|Stack(s, r)| - 1])
  {
    var st := Stack(s, r);
    assert ReqInv(s, r) && OpenInv(s, r);
    assert EntryInv(s, s.reqs[r].ctx, st, |st| - 1);
    if st[|st| - 1].Return? { assert st[|st| - 1].obj in s.home; }
  }

  lemma KeepsCleanup(s: Sys, r: Id)
    requires Inv(s) && r < |s.reqs| && s.reqs[r].releaser.Cleaning? && Stack(s, r) != []
    ensures Inv(DoReleaseStep(s, r)) && Untouched(s, DoReleaseStep(s, r), r)
    ensures var s', st := DoReleaseStep(s, r), Stack(s, r); var c := st[|st| - 1];
      && Stack(s', r) == st[..|st| - 1]
      && (c.Return? ==> IsSpare(s', c.obj) && IsReset(s', c.obj))
  {
    TopFacts(s, r);
    var s', c := DoReleaseStep(s, r), Stack(s, r)[|Stack(s, r)| - 1];
    CleanShrinks(s, r, c);
    ShrunkUntouched(s, s', r, c);
    ShrunkOwned(s, s', r, c);
    ShrunkReq(s, s', r, c);
    forall o | IsSpare(s', o) && !IsSpare(s, o) ensures IsReset(s', o) { FreedIsReset(s, s', r, o); }
    Assemble(s, s', r);
  }

  // release returns; Put assigns nil and enqueues the context.

  lemma {:induction false} CountedNone(fs: seq<Fetch>)
    requires forall i :: 0 <= i < |fs| ==> !IsCounted(fs[i].pc)
    ensures CountedIn(fs) == 0
  {
    if fs != [] { CountedNone(fs[..|fs| - 1]); }
  }

  lemma RetireValue(r: Id, q: Req, x: Ctx)
    requires RequestInv(q) && ContextInv(r, q, x) && q.releaser.Cleaning? && x.cleanups == []
    ensures RequestInv(q.(releaser := Putting)) && ContextInv(r, q.(releaser := Putting), x.Retire())
  {
    var q' := q.(releaser := Putting);
    assert forall o :: Live(q', o) == Live(q, o) && Active(q', o) == Active(q, o);
    SameOwners(q, q');
    CountedNone(q.fetches);
    forall k | 0 <= k < |q.extenders| ensures !q.extenders[k] { assert !Live(q, ByExtender(k)); }
    TruesZero(q.extenders);
  }

  lemma KeepsRetire(s: Sys, r: Id)
    requires Inv(s) && r < |s.reqs| && s.reqs[r].releaser.Cleaning? && Stack(s, r) == []
    ensures Inv(DoReleaseStep(s, r))
  {
    assert ReqInv(s, r);
    var q := s.reqs[r];
    var x := s.ctxs[q.ctx];
    RetireValue(r, q, x);
    var s' := s.(reqs := s.reqs[r := q.(releaser := Putting)], ctxs := s.ctxs[q.ctx := x.Retire()]);
    assert DoReleaseStep(s, r) == s';
    HeldKept(s, s', r);
    LocalKeeps(s, s', r);
  }

  lemma ClosedValue(q: Req)
    requires RequestInv(q) && q.releaser.Putting?
    ensures RequestInv(q.(releaser := Closed))
  {
    var q' := q.(releaser := Closed);
    assert forall o :: Live(q', o) == Live(q, o) && Active(q', o) == Active(q, o);
    SameOwners(q, q');
  }

  lemma PutUntouched(s: Sys, s': Sys, r: Id)
    requires Inv(s) && r < |s.reqs| && s.reqs[r].releaser.Putting?
    requires s' == s.(reqs := s.reqs[r := s.reqs[r].(releaser := Closed)], pools := s'.pools, home := s'.home)
    requires GivesTo(s, s', Obj(KContext, s.reqs[r].ctx))
    ensures Untouched(s, s', r)
  {
    OwnPair(s, r);
    forall o | o in s.home && s.home[o] != Owned(r)
      ensures o in s'.home && s'.home[o] == s.home[o] && SameObj(s, s', o)
    {
      PutElsewhere(s, s', r, o);
    }
  }

  lemma PutElsewhere(s: Sys, s': Sys, r: Id, o: Obj)
    requires r < |s.reqs| && o in s.home && o != Obj(KContext, s.reqs[r].ctx)
    requires s' == s.(reqs := s'.reqs, pools := s'.pools, home := s'.home)
    requires GivesTo(s, s', Obj(KContext, s.reqs[r].ctx))
    ensures o in s'.home && s'.home[o] == s.home[o] && SameObj(s, s', o)
  {}

  lemma PutOwned(s: Sys, s': Sys, r: Id)
    requires Inv(s) && r < |s.reqs| && s.reqs[r].releaser.Putting? && s.reqs[r].ctx < |s.ctxs|
    requires s' == s.(reqs := s.reqs[r := s.reqs[r].(releaser := Closed)], pools := s'.pools, home := s'.home)
    requires GivesTo(s, s', Obj(KContext, s.reqs[r].ctx))
    ensures OwnInv(s') && HeldInv(s')
    ensures s.Ctx(s.reqs[r].ctx).Idle()
  {
    assert s.Ctx(s.reqs[r].ctx).Idle() by { assert ReqInv(s, r) && OpenInv(s, r); }
    PutUntouched(s, s', r);
    forall i | 0 <= i < |s.reqs| && i != r ensures Stack(s', i) == Stack(s, i) { OtherStack(s, s', r, i); }
    OwnClose(s, s', r);
    HeldKept(s, s', r);
  }

  lemma KeepsPut(s: Sys, r: Id)
    requires Inv(s) && r < |s.reqs| && s.reqs[r].releaser.Putting?
    ensures Inv(DoReleaseStep(s, r))
  {
    assert ReqInv(s, r);
    var q := s.reqs[r];
    var a := Obj(KContext, q.ctx);
    ClosedValue(q);
    var s' := DoReleaseStep(s, r);
    assert s' == s.(reqs := s.reqs[r := q.(releaser := Closed)], pools := s'.pools, home := s'.home);
    PutUntouched(s, s', r);
    PutOwned(s, s', r);
    forall o | IsSpare(s', o) && !IsSpare(s, o) ensures IsReset(s', o) { assert o == a; }
    Assemble(s, s', r);
  }
}
