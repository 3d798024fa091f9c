// A fetch's callback runs, and the promise given to respondWith settles.
module SettleSteps {
  import opened Base
  import opened Objects
  import opened Programs
  import opened Potentials
  import opened Middleware
  import opened Invariants
  import opened Frames
  import opened Ownership
  import opened LocalSteps
  import opened RequestSteps
  import opened FetchSteps
  import opened TakeSteps
  import opened ScriptSteps

  // A callback that has not run keeps its owner, and so its request, alive.
  lemma CallbackInUse(s: Sys, r: Id, i: nat)
    requires Inv(s) && r < |s.reqs| && i < |s.reqs[r].fetches| && s.reqs[r].fetches[i].callback.Scheduled?
    ensures InUse(s.reqs[r]) && Live(s.reqs[r], s.reqs[r].fetches[i].owner)
  {
    assert ReqInv(s, r) && FetchInv(s.reqs[r], s.reqs[r].fetches[i]);
    LiveInUse(s, r, s.reqs[r].fetches[i].owner);
  }

  lemma KeepsFailedCallback(s: Sys, r: Id, i: nat)
    requires Inv(s) && r < |s.reqs| && i < |s.reqs[r].fetches| && s.reqs[r].fetches[i].callback == Scheduled(false)
    ensures Inv(DoRunCallback(s, r, i))
  {
    var q, g := s.reqs[r], s.reqs[r].fetches[i];
    CallbackInUse(s, r, i);
    FetchFacts(s, r, i);
    var s' := DoRunCallback(s, r, i);
    FetchKeeps(s, s', r, i, g.(callback := Settled(false)));
  }

  // The system after a callback that succeeds.
  lemma CallbackState(s: Sys, r: Id, i: nat)
    requires Reads(s, r) && i < |s.reqs[r].fetches| && s.reqs[r].fetches[i].callback == Scheduled(true)
    requires s.Fetcher(s.reqs[r].fetches[i].fetcher) == Fetcher(Some(s.reqs[r].ctx))
    requires s.Queue(KStream) != [] ==> s.Pick(KStream) < |s.streams|
    requires s.reqs[r].fetches[i].response < |s.responses|
    ensures var q, g, t, t1 := s.reqs[r], s.reqs[r].fetches[i], s.Pick(KStream), s.Take(KStream, r);
      && t < |t1.streams| && s.streams <= t1.streams
      && DoRunCallback(s, r, i) == s.(
           pools := t1.pools, home := t1.home, streams := t1.streams[t := Stream(true, true)],
           ctxs := s.ctxs[q.ctx := s.ctxs[q.ctx].RegisterCleanup(Return(Obj(KStream, t)))
                                               .RegisterCleanup(ResetResponse(g.response))],
           responses := s.responses[g.response := s.Response(g.response).(ioContext := Some(q.ctx), resp := true,
                                                                          body := Some(t))],
           reqs := s.reqs[r := SetFetch(q, i, g.(callback := Settled(true)))])
  {
    var t1 := s.Take(KStream, r);
    assert t1 == s.(streams := t1.streams, pools := t1.pools, home := t1.home) && s.streams <= t1.streams;
  }

  lemma CallbackGrows(s: Sys, r: Id, i: nat)
    requires Reads(s, r) && i < |s.reqs[r].fetches| && s.reqs[r].fetches[i].callback == Scheduled(true)
    requires s.Fetcher(s.reqs[r].fetches[i].fetcher) == Fetcher(Some(s.reqs[r].ctx))
    requires s.Queue(KStream) != [] ==> s.Pick(KStream) < |s.streams|
    requires s.reqs[r].fetches[i].response < |s.responses|
    requires Return(Obj(KResponse, s.reqs[r].fetches[i].response)) in Stack(s, r)
    ensures var s', q, g, t := DoRunCallback(s, r, i), s.reqs[r], s.reqs[r].fetches[i], s.Pick(KStream);
      && Grown(s, s', r, KStream, [ResetResponse(g.response)])
      && s'.reqs == s.reqs[r := SetFetch(q, i, g.(callback := Settled(true)))]
      && s'.ctxs[q.ctx]
         == s.ctxs[q.ctx].RegisterCleanup(Return(Obj(KStream, t))).RegisterCleanup(ResetResponse(g.response))
      && s'.evts == s.evts && s'.Stream(t) == Stream(true, true)
      && (forall p :: p != g.response ==> s'.Response(p) == s.Response(p))
      && s'.Response(g.response).ioContext == Some(q.ctx) && s'.Response(g.response).resp
      && s'.Response(g.response).body == Some(t)
  {
    CallbackState(s, r, i);
  }

  lemma CallbackKeeps(s: Sys, s': Sys, r: Id, i: nat)
    requires Inv(s) && r < |s.reqs| && i < |s.reqs[r].fetches| && InUse(s.reqs[r])
    requires s.reqs[r].fetches[i].callback == Scheduled(true)
    requires var q, g, t := s.reqs[r], s.reqs[r].fetches[i], s.Pick(KStream);
      && Grown(s, s', r, KStream, [ResetResponse(g.response)])
      && s'.reqs == s.reqs[r := SetFetch(q, i, g.(callback := Settled(true)))]
      && s'.ctxs[q.ctx]
         == s.ctxs[q.ctx].RegisterCleanup(Return(Obj(KStream, t))).RegisterCleanup(ResetResponse(g.response))
      && s'.evts == s.evts && s'.Stream(t) == Stream(true, true)
      && (forall p :: p != g.response ==> s'.Response(p) == s.Response(p))
      && s'.Response(g.response).ioContext == Some(q.ctx) && s'.Response(g.response).resp
      && s'.Response(g.response).body == Some(t)
    ensures Inv(s')
  {
    var q, q', g, x := s.reqs[r], s'.reqs[r], s.reqs[r].fetches[i], s.ctxs[s.reqs[r].ctx];
    var g' := g.(callback := Settled(true));
    var a := Return(Obj(KStream, s.Pick(KStream)));
    TrioInPlace(s, r);
    assert FetchInv(q, g);
    FetchMovesRequest(q, i, g');
    FetchMovesContext(r, q, x, x, i, g');
    ContextPush(r, q', x, a);
    ContextPush(r, q', x.RegisterCleanup(a), ResetResponse(g.response));
    EventFrame(r, q, q', s.evts[q.evt]);
    HeldMoves(s, s', r, i, g', q.ctx);
    CallbackHolds(s, s', r, i);
    InPlace(s, r);
    PlacedKeeps(s, s', r, KStream, [ResetResponse(g.response)]);
  }

  lemma CallbackHolds(s: Sys, s': Sys, r: Id, i: nat)
    requires Inv(s) && r < |s.reqs| && i < |s.reqs[r].fetches| && InUse(s.reqs[r])
    requires Grown(s, s', r, KStream, [ResetResponse(s.reqs[r].fetches[i].response)]) && s'.evts == s.evts
    requires s'.reqs[r] == SetFetch(s.reqs[r], i, s.reqs[r].fetches[i].(callback := Settled(true)))
    requires forall p :: p != s.reqs[r].fetches[i].response ==> s'.Response(p) == s.Response(p)
    requires s'.Response(s.reqs[r].fetches[i].response).ioContext == Some(s.reqs[r].ctx)
    requires s'.Response(s.reqs[r].fetches[i].response).resp
    requires s'.Response(s.reqs[r].fetches[i].response).body == Some(s.Pick(KStream))
    ensures HoldingInv(s', s'.reqs[r], Stack(s', r))
  {
    var st, q := Stack(s, r), s.reqs[r];
    assert HoldingInv(s, q, st) && st != [] by { InPlace(s, r); }
    var added := [Return(Obj(KStream, s.Pick(KStream)))] + [ResetResponse(q.fetches[i].response)];
    assert Stack(s', r) == st + added && added[0] in st + added;
    HoldsFulfilled(s, s', q, i, st, added);
  }

  lemma HoldsFulfilled(s: Sys, s': Sys, q: Req, i: nat, st: seq<Cleanup>, added: seq<Cleanup>)
    requires HoldingInv(s, q, st) && i < |q.fetches| && s'.evts == s.evts && st != []
    requires forall p :: p != q.fetches[i].response ==> s'.Response(p) == s.Response(p)
    requires HoldsResponse(s'.Response(q.fetches[i].response), q.ctx, st + added)
    ensures HoldingInv(s', SetFetch(q, i, q.fetches[i].(callback := Settled(true))), st + added)
  {
    var q', st' := SetFetch(q, i, q.fetches[i].(callback := Settled(true))), st + added;
    assert forall c :: c in st ==> c in st';
    forall k | 0 <= k < |q'.fetches|
      ensures q'.fetches[k].fetcher == q.fetches[k].fetcher && q'.fetches[k].response == q.fetches[k].response
    {}
  }

  lemma CallbackReads(s: Sys, r: Id, i: nat)
    requires Inv(s) && r < |s.reqs| && i < |s.reqs[r].fetches| && InUse(s.reqs[r])
    ensures Reads(s, r) && (s.Queue(KStream) != [] ==> s.Pick(KStream) < |s.streams|)
    ensures s.Fetcher(s.reqs[r].fetches[i].fetcher) == Fetcher(Some(s.reqs[r].ctx))
    ensures s.reqs[r].fetches[i].response < |s.responses|
    ensures Return(Obj(KResponse, s.reqs[r].fetches[i].response)) in Stack(s, r)
  {
    FetcherBound(s, r, i);
    InPlace(s, r);
    PickBounds(s, KStream);
    Mine(s, r);
    assert s.reqs[r].fetches[i].response < s.Made(KResponse);
  }

  lemma KeepsGoodCallback(s: Sys, r: Id, i: nat)
    requires Inv(s) && r < |s.reqs| && i < |s.reqs[r].fetches| && s.reqs[r].fetches[i].callback == Scheduled(true)
    ensures Inv(DoRunCallback(s, r, i))
  {
    CallbackInUse(s, r, i);
    CallbackReads(s, r, i);
    CallbackGrows(s, r, i);
    CallbackKeeps(s, DoRunCallback(s, r, i), r, i);
  }

  // respondWith's promise settles.

  lemma ResponderFacts(o: Outcome)
    ensures var p := Responder(o);
      && Marks(p, true) == Sends(p) == Bit(!o.ErroredUndefined?)
      && (!o.ErroredUndefined? ==> Delivers(p))
  {
    var d := SendResponse(End);
    assert Marks(d, true) == 0 && Sends(d) == 1 && Delivers(d);
    var m := Mark(d);
    assert Marks(m, true) == 1 && Sends(m) == 1 && Delivers(m);
    var b := WriteBody(m);
    assert Marks(b, true) == 1 && Sends(b) == 1 && Delivers(b);
    var c := WriteBody(d);
    assert Marks(c, true) == 0 && Sends(c) == 1 && Delivers(c);
    forall code ensures var w := WriteStatus(code, c); Marks(w, true) == 0 && Sends(w) == 1 && Delivers(w) {}
    var n := WriteStatus(204, d);
    assert Marks(n, true) == 0 && Sends(n) == 1 && Delivers(n);
  }

  lemma TrioSettleResponse(r: Id, q: Req, x: Ctx, e: Evt, o: Outcome)
    requires Trio(r, q, x, e) && q.respond.Awaiting? && !q.handler.InCall? && SettledFor(q, ByResponse)
    ensures Trio(r, q.(respond := Fired(o), responseThread := Thread(r, Responder(o))), x, e)
  {
    var q' := q.(respond := Fired(o), responseThread := Thread(r, Responder(o)));
    SameOwners(q, q');
    ResponderFacts(o);
    assert ThreadsInv(r, q', e);
    assert MarksInv(q', e) && WakesInv(q', e) && SendsInv(q', e);
    assert WritesInv(q', e);
  }

  lemma PushUntouched(s: Sys, s': Sys, r: Id, q': Req, x': Ctx)
    requires Inv(s) && r < |s.reqs| && s.reqs[r].Open() && s.reqs[r].ctx < |s.ctxs|
    requires s' == s.(reqs := s.reqs[r := q'], ctxs := s.ctxs[s.reqs[r].ctx := x'])
    requires q'.ctx == s.reqs[r].ctx && q'.Open()
    ensures Untouched(s, s', r)
  {
    OwnPair(s, r);
    forall o | o in s.home && s.home[o] != Owned(r) ensures SameObj(s, s', o) {
      assert o != Obj(KContext, s.reqs[r].ctx);
    }
  }

  lemma PushEntries(s: Sys, s': Sys, r: Id, j: nat)
    requires Inv(s) && r < |s.reqs| && s.reqs[r].Open() && Stack(s', r) == Stack(s, r) + [ResetBuffer]
    requires s'.fetchers == s.fetchers && s'.responses == s.responses && s'.streams == s.streams
    requires j < |Stack(s', r)|
    ensures EntryInv(s', s.reqs[r].ctx, Stack(s', r), j)
  {
    var st, st' := Stack(s, r), Stack(s', r);
    if j < |st| {
      assert ReqInv(s, r) && OpenInv(s, r);
      assert EntryInv(s, s.reqs[r].ctx, st, j) && st'[j] == st[j] && st'[..j] == st[..j];
      assert forall c :: c in st ==> c in st';
    }
  }

  lemma PushOwned(s: Sys, s': Sys, r: Id, q': Req)
    requires Inv(s) && r < |s.reqs| && InUse(s.reqs[r]) && s.reqs[r].ctx < |s.ctxs|
    requires s' == s.(reqs := s.reqs[r := q'],
      ctxs := s.ctxs[s.reqs[r].ctx := s.ctxs[s.reqs[r].ctx].RegisterCleanup(ResetBuffer)])
    requires InUse(q') && q'.ctx == s.reqs[r].ctx && q'.fetches == s.reqs[r].fetches && q'.tasks == s.reqs[r].tasks
    ensures Untouched(s, s', r) && OwnInv(s') && HeldInv(s') && Stack(s', r) == Stack(s, r) + [ResetBuffer]
  {
    assert Stack(s', r) == Stack(s, r) + [ResetBuffer] && s.reqs[r].Open() by { InPlace(s, r); }
    PushUntouched(s, s', r, q', s'.ctxs[s.reqs[r].ctx]);
    assert OwnInv(s') by {
      forall i | 0 <= i < |s.reqs| && i != r ensures Stack(s', i) == Stack(s, i) { OtherStack(s, s', r, i); }
      assert forall k :: s'.Made(k) == s.Made(k);
      OwnPush(s, s', r, ResetBuffer);
    }
    HeldKept(s, s', r);
  }

  lemma PushHolds(s: Sys, s': Sys, r: Id, q': Req)
    requires Inv(s) && r < |s.reqs| && InUse(s.reqs[r])
    requires s'.evts == s.evts && s'.responses == s.responses && Stack(s', r) == Stack(s, r) + [ResetBuffer]
    requires q'.ctx == s.reqs[r].ctx && q'.evt == s.reqs[r].evt && q'.fetches == s.reqs[r].fetches
    requires q'.tasks == s.reqs[r].tasks
    ensures HoldingInv(s', q', Stack(s', r))
  {
    InPlace(s, r);
    assert forall c :: c in Stack(s, r) ==> c in Stack(s', r);
  }

  lemma PushKeeps(s: Sys, s': Sys, r: Id, q': Req)
    requires Inv(s) && r < |s.reqs| && InUse(s.reqs[r]) && s.reqs[r].ctx < |s.ctxs|
    requires s' == s.(reqs := s.reqs[r := q'],
      ctxs := s.ctxs[s.reqs[r].ctx := s.ctxs[s.reqs[r].ctx].RegisterCleanup(ResetBuffer)])
    requires InUse(q') && q'.ctx == s.reqs[r].ctx && q'.evt == s.reqs[r].evt && q'.fetches == s.reqs[r].fetches
    requires q'.tasks == s.reqs[r].tasks
    requires s.reqs[r].evt < |s.evts| && Trio(r, q', s'.ctxs[s.reqs[r].ctx], s.evts[s.reqs[r].evt])
    ensures Inv(s')
  {
    PushOwned(s, s', r, q');
    PushHolds(s, s', r, q');
    assert ReqInv(s', r) by {
      forall j | 0 <= j < |Stack(s', r)| ensures EntryInv(s', q'.ctx, Stack(s', r), j) { PushEntries(s, s', r, j); }
      assert RequestInv(q') && ContextInv(r, q', s'.Ctx(q'.ctx)) && EventInv(r, q', s'.Evt(q'.evt));
    }
    Assemble(s, s', r);
  }

  lemma KeepsSettleResponse(s: Sys, r: Id, o: Outcome, text: bool)
    requires Inv(s) && r < |s.reqs| && s.reqs[r].respond.Awaiting? && SettledFor(s.reqs[r], ByResponse)
    requires !s.reqs[r].handler.InCall?
    ensures Inv(DoSettleResponse(s, r, o, text))
  {
    LiveInUse(s, r, ByResponse);
    TrioInPlace(s, r);
    var q, x, e := s.reqs[r], s.ctxs[s.reqs[r].ctx], s.evts[s.reqs[r].evt];
    TrioSettleResponse(r, q, x, e, o);
    var q' := q.(respond := Fired(o), responseThread := Thread(r, Responder(o)));
    var s' := DoSettleResponse(s, r, o, text);
    if text {
      ContextPush(r, q', x, ResetBuffer);
      PushKeeps(s, s', r, q');
    } else {
      ReqKeeps(s, r, q');
    }
  }
}
