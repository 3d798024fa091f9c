// The steps that take an object from its pool and register its return.
module TakeSteps {
  import opened Base
  import opened Objects
  import opened Programs
  import opened Potentials
  import opened Middleware
  import opened Invariants
  import opened Frames
  import opened Ownership
  import opened LocalSteps
  import opened RequestSteps
  import opened FetchSteps

  // s' is s after request r has taken an object of kind k, pushed its return and
  // then `extra`, and changed only objects of its own.
  ghost predicate Grown(s: Sys, s': Sys, r: Id, k: Kind, extra: seq<Cleanup>) {
    && r < |s.reqs| == |s'.reqs| && s.reqs[r].ctx < |s.ctxs| == |s'.ctxs|
    && !k.KContext? && TakesFrom(s, s', k, r) && s'.crashed == s.crashed
    && var q, q', a := s.reqs[r], s'.reqs[r], s.Pick(k);
    && (forall i :: 0 <= i < |s.reqs| && i != r ==> s'.reqs[i] == s.reqs[i])
    && q'.ctx == q.ctx && q'.Open() && q.Open()
    && (forall c :: 0 <= c < |s.ctxs| && c != q.ctx ==> s'.ctxs[c] == s.ctxs[c])
    && s'.ctxs[q.ctx].cleanups == s.ctxs[q.ctx].cleanups + [Return(Obj(k, a))] + extra
    && (forall c :: c in extra ==> !c.Return?) && |extra| <= 1
    && |s.evts| <= |s'.evts| && |s.fetchers| <= |s'.fetchers| && |s.responses| <= |s'.responses|
    && |s.streams| <= |s'.streams| && |s.headers| <= |s'.headers|
    && (forall e :: 0 <= e < |s.evts| ==>
          s'.evts[e] == s.evts[e] || (k.KEvent? && e == a) || (!k.KEvent? && e == q.evt))
    && (forall f :: 0 <= f < |s.fetchers| ==> s'.fetchers[f] == s.fetchers[f] || (k.KFetcher? && f == a))
    && (forall p :: 0 <= p < |s.responses| ==>
          || s'.responses[p] == s.responses[p] || (k.KResponse? && p == a)
          || Return(Obj(KResponse, p)) in Stack(s, r))
    && (forall t :: 0 <= t < |s.streams| ==> s'.streams[t] == s.streams[t] || (k.KStream? && t == a))
    && (forall h :: 0 <= h < |s.headers| ==> s'.headers[h] == s.headers[h] || (k.KHeaders? && h == a))
  }

  // The objects a request may change are its own.
  lemma Mine(s: Sys, r: Id)
    requires Inv(s) && r < |s.reqs| && s.reqs[r].Open()
    ensures Obj(KContext, s.reqs[r].ctx) in s.home && s.home[Obj(KContext, s.reqs[r].ctx)] == Owned(r)
    ensures Stack(s, r) != [] ==> Obj(KEvent, s.reqs[r].evt) in s.home && s.home[Obj(KEvent, s.reqs[r].evt)] == Owned(r)
    ensures forall o :: Return(o) in Stack(s, r) ==> o in s.home && s.home[o] == Owned(r)
  {
    assert ReqInv(s, r);
    if Stack(s, r) != [] { assert Stack(s, r)[0] == Return(Obj(KEvent, s.reqs[r].evt)); }
    forall o | Return(o) in Stack(s, r) ensures o in s.home && s.home[o] == Owned(r) {
      var j :| 0 <= j < |Stack(s, r)| && Stack(s, r)[j] == Return(o);
    }
  }

  lemma GrownElsewhere(s: Sys, s': Sys, r: Id, k: Kind, extra: seq<Cleanup>, o: Obj)
    requires Inv(s) && Grown(s, s', r, k, extra)
    requires !k.KEvent? ==> Stack(s, r) != []
    requires o in s.home && s.home[o] != Owned(r) && o != Obj(k, s.Pick(k))
    ensures SameObj(s, s', o)
  {
    Mine(s, r);
    assert o.id < s.Made(o.kind);
  }

  lemma GrownUntouched(s: Sys, s': Sys, r: Id, k: Kind, extra: seq<Cleanup>)
    requires Inv(s) && Grown(s, s', r, k, extra)
    requires !k.KEvent? ==> Stack(s, r) != []
    ensures Untouched(s, s', r)
  {
    var a := Obj(k, s.Pick(k));
    TakenIsFresh(s, k, r);
    forall o | o in s.home && s.home[o] != Owned(r) && o != a ensures SameObj(s, s', o) {
      GrownElsewhere(s, s', r, k, extra, o);
    }
  }

  lemma GrownOwned(s: Sys, s': Sys, r: Id, k: Kind, extra: seq<Cleanup>)
    requires Inv(s) && Grown(s, s', r, k, extra)
    requires forall i :: 0 <= i < |s.reqs| && i != r ==> Stack(s', i) == Stack(s, i)
    ensures OwnInv(s')
  {
    if extra == [] { OwnTake(s, s', r, k); } else { GrownTwice(s, s', r, k, extra); }
  }

  lemma OtherContext(s: Sys, r: Id, i: Id)
    requires Inv(s) && r < |s.reqs| && i < |s.reqs| && r != i && s.reqs[r].Open() && s.reqs[i].Open()
    ensures s.reqs[r].ctx != s.reqs[i].ctx
  {
    assert s.home[Obj(KContext, s.reqs[i].ctx)] == Owned(i) && s.home[Obj(KContext, s.reqs[r].ctx)] == Owned(r);
  }

  // First the object, then what is pushed above it.
  lemma GrownTwice(s: Sys, s': Sys, r: Id, k: Kind, extra: seq<Cleanup>)
    requires Inv(s) && Grown(s, s', r, k, extra) && extra != []
    requires forall i :: 0 <= i < |s.reqs| && i != r ==> Stack(s', i) == Stack(s, i)
    ensures OwnInv(s')
  {
    var c, x' := s.reqs[r].ctx, s'.ctxs[s.reqs[r].ctx];
    var y := x'.(cleanups := s.ctxs[c].cleanups + [Return(Obj(k, s.Pick(k)))]);
    var t := s'.(ctxs := s'.ctxs[c := y]);
    forall i | 0 <= i < |s.reqs| && i != r ensures Stack(t, i) == Stack(s', i) {
      if s.reqs[i].Open() { OtherContext(s, r, i); }
    }
    assert SameStore(t, s');
    OwnTake(s, t, r, k);
    assert x'.cleanups == y.cleanups + [extra[0]];
    OwnPush(t, s', r, extra[0]);
  }

  // What the grown request must still say about itself.
  lemma GrownKeeps(s: Sys, s': Sys, r: Id, k: Kind, extra: seq<Cleanup>)
    requires Inv(s) && Grown(s, s', r, k, extra) && HeldInv(s') && ReqInv(s', r)
    requires !k.KEvent? ==> Stack(s, r) != []
    ensures Inv(s')
  {
    GrownUntouched(s, s', r, k, extra);
    GrownOthers(s, s', r, k, extra);
    GrownFree(s, s', r, k);
    Assemble(s, s', r);
  }

  lemma GrownOthers(s: Sys, s': Sys, r: Id, k: Kind, extra: seq<Cleanup>)
    requires Inv(s) && Grown(s, s', r, k, extra) && Untouched(s, s', r)
    ensures OwnInv(s')
  {
    forall i | 0 <= i < |s.reqs| && i != r ensures Stack(s', i) == Stack(s, i) { OtherStack(s, s', r, i); }
    GrownOwned(s, s', r, k, extra);
  }

  lemma GrownFree(s: Sys, s': Sys, r: Id, k: Kind)
    requires OwnInv(s) && TakesFrom(s, s', k, r)
    ensures forall o :: IsSpare(s', o) ==> IsSpare(s, o)
  {
    TakenIsFresh(s, k, r);
  }

  // What Take hands out is reset.
  lemma TakenIsReset(s: Sys, k: Kind, r: Id)
    requires Inv(s)
    ensures IsReset(s.Take(k, r), Obj(k, s.Pick(k)))
  {
    assert QueueInv(s, k);
    if s.Queue(k) != [] { assert IsFree(s, Obj(k, s.Queue(k)[0])) && IsReset(s, Obj(k, s.Queue(k)[0])); }
  }

  // A stack that grew by an object in the state its kind asks for.
  ghost predicate Placed(s: Sys, s': Sys, r: Id, k: Kind, extra: seq<Cleanup>)
    requires Grown(s, s', r, k, extra)
  {
    var q, a, st := s.reqs[r], s.Pick(k), Stack(s, r);
    && (k.KEvent? <==> st == [])
    && (k.KFetcher? ==> s'.Fetcher(a) == Fetcher(Some(q.ctx)))
    && (k.KResponse? ==> s'.Response(a) == NewResponse)
    && (k.KStream? ==> s'.Stream(a) == Stream(true, true))
    && (extra != [] && extra[0].ResetResponse? ==> Return(Obj(KResponse, extra[0].id)) in st)
    && (forall p :: Return(Obj(KResponse, p)) in st && s'.Response(p) != s.Response(p) ==>
          ResetResponse(p) in st || ResetResponse(p) in extra)
  }

  lemma EntryStays(s: Sys, s': Sys, r: Id, k: Kind, extra: seq<Cleanup>, j: nat)
    requires Inv(s) && Grown(s, s', r, k, extra) && Placed(s, s', r, k, extra)
    requires j < |Stack(s, r)| && Stack(s', r) == Stack(s, r) + [Return(Obj(k, s.Pick(k)))] + extra
    ensures EntryInv(s', s.reqs[r].ctx, Stack(s', r), j)
  {
    var st, st' := Stack(s, r), Stack(s', r);
    assert EntryInv(s, s.reqs[r].ctx, st, j) by { assert ReqInv(s, r); }
    TakenIsFresh(s, k, r);
    assert st'[j] == st[j] && st'[..j] == st[..j] && st[j] in st;
    if st[j].Return? { assert st[j].obj in s.home && st[j].obj.id < s.Made(st[j].obj.kind); }
  }

  lemma EntryAdded(s: Sys, s': Sys, r: Id, k: Kind, extra: seq<Cleanup>, j: nat)
    requires Grown(s, s', r, k, extra) && Placed(s, s', r, k, extra) && |Stack(s, r)| <= j < |Stack(s', r)|
    requires Stack(s', r) == Stack(s, r) + [Return(Obj(k, s.Pick(k)))] + extra
    ensures EntryInv(s', s.reqs[r].ctx, Stack(s', r), j)
  {
    var st, st' := Stack(s, r), Stack(s', r);
    if j > |st| {
      assert forall c :: c in st ==> c in st'[..j] by { assert st'[..j][..|st|] == st; }
      assert st'[j] == extra[0];
    } else {
      assert st'[j] == Return(Obj(k, s.Pick(k)));
    }
  }

  lemma EntriesGrow(s: Sys, s': Sys, r: Id, k: Kind, extra: seq<Cleanup>, j: nat)
    requires Inv(s) && Grown(s, s', r, k, extra) && Placed(s, s', r, k, extra)
    requires j < |Stack(s', r)|
    ensures EntryInv(s', s.reqs[r].ctx, Stack(s', r), j)
  {
    var st, st' := Stack(s, r), Stack(s', r);
    assert st' == st + [Return(Obj(k, s.Pick(k)))] + extra;
    if j < |st| {
      EntryStays(s, s', r, k, extra, j);
    } else {
      EntryAdded(s, s', r, k, extra, j);
    }
  }

  // Nothing the script holds leaves the stack.
  lemma HoldingGrow(s: Sys, s': Sys, r: Id, k: Kind, extra: seq<Cleanup>)
    requires Inv(s) && Grown(s, s', r, k, extra) && HoldingInv(s, s.reqs[r], Stack(s, r))
    requires s'.reqs[r].fetches == s.reqs[r].fetches && s'.reqs[r].tasks == s.reqs[r].tasks
    requires s'.reqs[r].evt == s.reqs[r].evt && Stack(s, r) != []
    requires var e, e' := s.Evt(s.reqs[r].evt), s'.Evt(s.reqs[r].evt);
      e'.body == e.body || (k.KStream? && e'.body == Some(s.Pick(k)))
    requires s'.Evt(s.reqs[r].evt).fetcher == (if k.KFetcher? then Some(s.Pick(k)) else s.Evt(s.reqs[r].evt).fetcher)
    requires forall p :: Return(Obj(KResponse, p)) in Stack(s, r) ==>
      s'.Response(p) == s.Response(p).(headers := s'.Response(p).headers)
    ensures HoldingInv(s', s'.reqs[r], Stack(s', r))
  {
    var st, st' := Stack(s, r), Stack(s', r);
    assert st' == st + [Return(Obj(k, s.Pick(k)))] + extra;
    assert st'[|st|] == Return(Obj(k, s.Pick(k)));
    assert forall c :: c in st ==> c in st';
  }

  // The request's own invariant after a push that leaves the response protocol alone.
  lemma ContextPush(r: Id, q: Req, x: Ctx, c: Cleanup)
    requires ContextInv(r, q, x) && InUse(q)
    ensures ContextInv(r, q, x.RegisterCleanup(c))
  {}

  lemma EventFields(r: Id, q: Req, e: Evt, e': Evt)
    requires EventInv(r, q, e) && e' == e.(fetcher := e'.fetcher, headers := e'.headers, body := e'.body)
    ensures EventInv(r, q, e')
  {
    assert Owed(q, e') == Owed(q, e);
  }

  // Taking one object for the event or for a response, with nothing more to register.
  lemma SimpleTake(s: Sys, s': Sys, r: Id, k: Kind)
    requires Inv(s) && Grown(s, s', r, k, []) && Placed(s, s', r, k, []) && InUse(s.reqs[r]) && !k.KEvent?
    requires s'.reqs == s.reqs
    requires s'.ctxs[s.reqs[r].ctx] == s.ctxs[s.reqs[r].ctx].RegisterCleanup(Return(Obj(k, s.Pick(k))))
    requires s.reqs[r].evt < |s.evts| ==>
      var e, e' := s.evts[s.reqs[r].evt], s'.evts[s.reqs[r].evt];
      && e' == e.(fetcher := e'.fetcher, headers := e'.headers, body := e'.body)
      && e'.fetcher == (if k.KFetcher? then Some(s.Pick(k)) else e.fetcher)
      && (e'.body == e.body || (k.KStream? && e'.body == Some(s.Pick(k))))
    requires forall p :: Return(Obj(KResponse, p)) in Stack(s, r) ==>
      s'.Response(p) == s.Response(p).(headers := s'.Response(p).headers)
    ensures Inv(s')
  {
    var q := s.reqs[r];
    InPlace(s, r);
    ContextPush(r, q, s.ctxs[q.ctx], Return(Obj(k, s.Pick(k))));
    EventFields(r, q, s.evts[q.evt], s'.evts[q.evt]);
    HoldingGrow(s, s', r, k, []);
    forall j | 0 <= j < |Stack(s', r)| ensures EntryInv(s', q.ctx, Stack(s', r), j) {
      EntriesGrow(s, s', r, k, [], j);
    }
    assert RequestInv(q) && s'.ctxs[q.ctx].held == s.ctxs[q.ctx].held by { assert ReqInv(s, r); }
    assert Stack(s', r) != [];
    GrownKeeps(s, s', r, k, []);
  }
}
