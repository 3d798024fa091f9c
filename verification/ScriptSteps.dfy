// The steps of the script that take pooled objects: reading fetch, headers and
// body, calling fetch, and receiving its response.
module ScriptSteps {
  import opened Base
  import opened Objects
  import opened Programs
  import opened Potentials
  import opened Middleware
  import opened Invariants
  import opened Frames
  import opened Ownership
  import opened LocalSteps
  import opened RequestSteps
  import opened FetchSteps
  import opened TakeSteps

  // What reading a lazily made property does to the system, once the event's
  // context is known.

  predicate Reads(s: Sys, r: Id) {
    && r < |s.reqs| && s.reqs[r].Open() && s.reqs[r].ctx < |s.ctxs| && s.reqs[r].evt < |s.evts|
    && s.evts[s.reqs[r].evt].ioContext == Some(s.reqs[r].ctx)
  }

  lemma ReadFetchGrows(s: Sys, r: Id)
    requires Reads(s, r) && s.evts[s.reqs[r].evt].fetcher.None?
    requires s.Queue(KFetcher) != [] ==> s.Pick(KFetcher) < |s.fetchers|
    ensures var s', q, f := DoReadFetch(s, r), s.reqs[r], s.Pick(KFetcher);
      && Grown(s, s', r, KFetcher, []) && s'.reqs == s.reqs
      && s'.ctxs[q.ctx] == s.ctxs[q.ctx].RegisterCleanup(Return(Obj(KFetcher, f)))
      && s'.evts == s.evts[q.evt := s.evts[q.evt].(fetcher := Some(f))]
      && s'.responses == s.responses && f < |s'.fetchers| && s'.Fetcher(f) == Fetcher(Some(q.ctx))
  {
    assert s.Take(KFetcher, r).ctxs == s.ctxs && s.Take(KFetcher, r).evts == s.evts;
  }

  lemma ReadHeadersGrows(s: Sys, r: Id)
    requires Reads(s, r) && s.evts[s.reqs[r].evt].headers.None? && s.evts[s.reqs[r].evt].http.Some?
    requires s.ctxs[s.reqs[r].ctx].hdrPool
    ensures var s', q, h := DoReadHeaders(s, r), s.reqs[r], s.Pick(KHeaders);
      && Grown(s, s', r, KHeaders, []) && s'.reqs == s.reqs
      && s'.ctxs[q.ctx] == s.ctxs[q.ctx].RegisterCleanup(Return(Obj(KHeaders, h)))
      && s'.evts == s.evts[q.evt := s.evts[q.evt].(headers := Some(h))]
      && s'.responses == s.responses
  {
    var t1 := s.Take(KHeaders, r);
    assert t1 == s.(headers := t1.headers, pools := t1.pools, home := t1.home) && s.headers <= t1.headers;
    var q, h := s.reqs[r], s.Pick(KHeaders);
    var t2 := t1.SetHeaders(h, Headers(true));
    var x := s.ctxs[q.ctx].RegisterCleanup(Return(Obj(KHeaders, h)));
    var t3 := t2.(ctxs := s.ctxs[q.ctx := x]);
    var t4 := t3.(evts := s.evts[q.evt := s.evts[q.evt].(headers := Some(h))]);
    assert t4 == DoReadHeaders(s, r);
  }

  lemma ReadBodyGrows(s: Sys, r: Id)
    requires Reads(s, r) && s.evts[s.reqs[r].evt].body.None? && s.evts[s.reqs[r].evt].http.Some?
    requires s.Queue(KStream) != [] ==> s.Pick(KStream) < |s.streams|
    ensures var s', q, t := DoReadBody(s, r), s.reqs[r], s.Pick(KStream);
      && Grown(s, s', r, KStream, []) && s'.reqs == s.reqs
      && s'.ctxs[q.ctx] == s.ctxs[q.ctx].RegisterCleanup(Return(Obj(KStream, t)))
      && s'.evts == s.evts[q.evt := s.evts[q.evt].(body := Some(t))]
      && s'.responses == s.responses && s'.Stream(t) == Stream(true, true)
  {
    assert s.Take(KStream, r).ctxs == s.ctxs && s.Take(KStream, r).evts == s.evts;
  }

  // A picked object is one that exists, or the next to be made.
  lemma PickBounds(s: Sys, k: Kind)
    requires Inv(s)
    ensures k in s.pools && s.Pick(k) <= s.Made(k) && (s.Queue(k) != [] ==> s.Pick(k) < s.Made(k))
  {
    assert QueueInv(s, k);
    if s.Queue(k) != [] { assert IsFree(s, Obj(k, s.Queue(k)[0])); }
  }

  // Enough, given that much, to keep the invariant.
  lemma ReadKeeps(s: Sys, s': Sys, r: Id, k: Kind)
    requires Inv(s) && Reads(s, r) && InUse(s.reqs[r]) && (k.KFetcher? || k.KHeaders? || k.KStream?)
    requires Grown(s, s', r, k, []) && s'.reqs == s.reqs
    requires s'.ctxs[s.reqs[r].ctx] == s.ctxs[s.reqs[r].ctx].RegisterCleanup(Return(Obj(k, s.Pick(k))))
    requires var e, e' := s.evts[s.reqs[r].evt], s'.evts[s.reqs[r].evt];
      && e' == e.(fetcher := e'.fetcher, headers := e'.headers, body := e'.body)
      && e'.fetcher == (if k.KFetcher? then Some(s.Pick(k)) else e.fetcher)
      && (e'.body == e.body || (k.KStream? && e'.body == Some(s.Pick(k))))
    requires k.KFetcher? ==> s'.Fetcher(s.Pick(k)) == Fetcher(Some(s.reqs[r].ctx))
    requires k.KStream? ==> s'.Stream(s.Pick(k)) == Stream(true, true)
    requires forall p :: (s'.Response(p) == s.Response(p) ||
      (s'.Response(p) == s.Response(p).(headers := s'.Response(p).headers) && ResetResponse(p) in Stack(s, r)))
    ensures Inv(s')
  {
    InPlace(s, r);
    assert Placed(s, s', r, k, []);
    SimpleTake(s, s', r, k);
  }

  lemma ReadsHere(s: Sys, r: Id)
    requires Inv(s) && r < |s.reqs| && InUse(s.reqs[r])
    ensures Reads(s, r) && s.evts[s.reqs[r].evt].http.Some? && s.ctxs[s.reqs[r].ctx].hdrPool
  {
    InPlace(s, r);
  }

  lemma KeepsReadFetch(s: Sys, r: Id)
    requires Inv(s) && r < |s.reqs| && InUse(s.reqs[r])
    ensures Inv(DoReadFetch(s, r))
  {
    ReadsHere(s, r);
    PickBounds(s, KFetcher);
    if s.Evt(s.reqs[r].evt).fetcher.None? {
      ReadFetchGrows(s, r);
      ReadKeeps(s, DoReadFetch(s, r), r, KFetcher);
    }
  }

  lemma KeepsReadHeaders(s: Sys, r: Id)
    requires Inv(s) && r < |s.reqs| && InUse(s.reqs[r])
    ensures Inv(DoReadHeaders(s, r))
  {
    ReadsHere(s, r);
    if s.Evt(s.reqs[r].evt).headers.None? {
      ReadHeadersGrows(s, r);
      ReadKeeps(s, DoReadHeaders(s, r), r, KHeaders);
    }
  }

  lemma KeepsReadBody(s: Sys, r: Id)
    requires Inv(s) && r < |s.reqs| && InUse(s.reqs[r])
    ensures Inv(DoReadBody(s, r))
  {
    ReadsHere(s, r);
    PickBounds(s, KStream);
    if s.Evt(s.reqs[r].evt).body.None? {
      ReadBodyGrows(s, r);
      ReadKeeps(s, DoReadBody(s, r), r, KStream);
    }
  }

  // A response the script holds was bound, and its reset is registered.
  lemma ResponseBound(s: Sys, r: Id, i: nat)
    requires Inv(s) && r < |s.reqs| && i < |s.reqs[r].fetches| && InUse(s.reqs[r])
    requires s.reqs[r].fetches[i].callback == Settled(true)
    ensures var p := s.reqs[r].fetches[i].response;
      && Return(Obj(KResponse, p)) in Stack(s, r) && ResetResponse(p) in Stack(s, r)
      && s.Response(p).ioContext == Some(s.reqs[r].ctx) && s.Response(p).resp
  {
    InPlace(s, r);
    var p, st := s.reqs[r].fetches[i].response, Stack(s, r);
    assert Return(Obj(KResponse, p)) in st;
    var j :| 0 <= j < |st| && st[j] == Return(Obj(KResponse, p));
    assert ReqInv(s, r) && OpenInv(s, r);
    assert EntryInv(s, s.reqs[r].ctx, st, j);
  }

  // The system after the headers of a response have been made.
  lemma ResponseHeadersState(s: Sys, r: Id, i: nat)
    requires Reads(s, r) && i < |s.reqs[r].fetches| && s.ctxs[s.reqs[r].ctx].hdrPool
    requires var v := s.Response(s.reqs[r].fetches[i].response);
      v.headers.None? && v.ioContext == Some(s.reqs[r].ctx) && v.resp
    ensures var q, h, p, t1 := s.reqs[r], s.Pick(KHeaders), s.reqs[r].fetches[i].response, s.Take(KHeaders, r);
      && p < |s.responses| && s.headers <= t1.headers
      && DoReadResponseHeaders(s, r, i) == s.(
           pools := t1.pools, home := t1.home, headers := t1.SetHeaders(h, Headers(true)).headers,
           ctxs := s.ctxs[q.ctx := s.ctxs[q.ctx].RegisterCleanup(Return(Obj(KHeaders, h)))],
           responses := s.responses[p := s.responses[p].(headers := Some(h))])
  {
    var t1 := s.Take(KHeaders, r);
    assert t1 == s.(headers := t1.headers, pools := t1.pools, home := t1.home) && s.headers <= t1.headers;
  }

  lemma ResponseHeadersGrows(s: Sys, r: Id, i: nat)
    requires Reads(s, r) && i < |s.reqs[r].fetches| && s.ctxs[s.reqs[r].ctx].hdrPool
    requires var v := s.Response(s.reqs[r].fetches[i].response);
      v.headers.None? && v.ioContext == Some(s.reqs[r].ctx) && v.resp
    requires Return(Obj(KResponse, s.reqs[r].fetches[i].response)) in Stack(s, r)
    ensures var s', q := DoReadResponseHeaders(s, r, i), s.reqs[r];
      var h, p := s.Pick(KHeaders), q.fetches[i].response;
      && Grown(s, s', r, KHeaders, []) && s'.reqs == s.reqs
      && s'.ctxs[q.ctx] == s.ctxs[q.ctx].RegisterCleanup(Return(Obj(KHeaders, h)))
      && s'.evts == s.evts
      && (forall p' :: p' != p ==> s'.Response(p') == s.Response(p'))
      && s'.Response(p) == s.Response(p).(headers := Some(h))
  {
    ResponseHeadersState(s, r, i);
  }

  lemma KeepsReadResponseHeaders(s: Sys, r: Id, i: nat)
    requires Inv(s) && r < |s.reqs| && InUse(s.reqs[r])
    requires i < |s.reqs[r].fetches| && s.reqs[r].fetches[i].callback == Settled(true)
    ensures Inv(DoReadResponseHeaders(s, r, i))
  {
    InPlace(s, r);
    ResponseBound(s, r, i);
    if s.Response(s.reqs[r].fetches[i].response).headers.None? {
      ResponseHeadersGrows(s, r, i);
      ReadKeeps(s, DoReadResponseHeaders(s, r, i), r, KHeaders);
    }
  }

  // Calling fetch: a response proxy is taken and, for a text body, a buffer reset registered.

  lemma PlacedKeeps(s: Sys, s': Sys, r: Id, k: Kind, extra: seq<Cleanup>)
    requires Inv(s) && Grown(s, s', r, k, extra) && Placed(s, s', r, k, extra) && HeldInv(s')
    requires InUse(s'.reqs[r]) && s'.reqs[r].evt < |s'.evts|
    requires Trio(r, s'.reqs[r], s'.ctxs[s.reqs[r].ctx], s'.evts[s'.reqs[r].evt])
    requires HoldingInv(s', s'.reqs[r], Stack(s', r))
    ensures Inv(s')
  {
    forall j | 0 <= j < |Stack(s', r)| ensures EntryInv(s', s.reqs[r].ctx, Stack(s', r), j) {
      EntriesGrow(s, s', r, k, extra, j);
    }
    assert Stack(s', r) != [];
    GrownKeeps(s, s', r, k, extra);
  }

  function NewFetch(s: Sys, r: Id, o: Owner, body: FetchBody): Fetch
    requires r < |s.reqs| && s.Evt(s.reqs[r].evt).fetcher.Some?
  {
    var f, p := s.Evt(s.reqs[r].evt).fetcher.value, s.Pick(KResponse);
    if body.UnsupportedBody? then Fetch(f, p, o, Gone, Scheduled(false)) else Fetch(f, p, o, Start, Unscheduled)
  }

  function BodyCleanups(body: FetchBody): seq<Cleanup> {
    if body.TextBody? then [ResetBuffer] else []
  }

  // The system after a call of fetch.
  lemma FetchCallState(s: Sys, r: Id, o: Owner, body: FetchBody)
    requires Reads(s, r) && s.evts[s.reqs[r].evt].fetcher.Some?
    requires s.Fetcher(s.evts[s.reqs[r].evt].fetcher.value) == Fetcher(Some(s.reqs[r].ctx))
    ensures var q, p, t1 := s.reqs[r], s.Pick(KResponse), s.Take(KResponse, r);
      var y := s.ctxs[q.ctx].RegisterCleanup(Return(Obj(KResponse, p)));
      && s.responses <= t1.responses
      && DoFetchCall(s, r, o, body) == s.(
           pools := t1.pools, home := t1.home, responses := t1.responses,
           ctxs := s.ctxs[q.ctx := if body.TextBody? then y.RegisterCleanup(ResetBuffer) else y],
           reqs := s.reqs[r := q.(fetches := q.fetches + [NewFetch(s, r, o, body)])])
  {
    var t1 := s.Take(KResponse, r);
    assert t1 == s.(responses := t1.responses, pools := t1.pools, home := t1.home) && s.responses <= t1.responses;
  }

  lemma FetchCallGrows(s: Sys, r: Id, o: Owner, body: FetchBody)
    requires Reads(s, r) && s.evts[s.reqs[r].evt].fetcher.Some?
    requires s.Fetcher(s.evts[s.reqs[r].evt].fetcher.value) == Fetcher(Some(s.reqs[r].ctx))
    requires IsReset(s.Take(KResponse, r), Obj(KResponse, s.Pick(KResponse)))
    ensures var s', q, p, x := DoFetchCall(s, r, o, body), s.reqs[r], s.Pick(KResponse), s.ctxs[s.reqs[r].ctx];
      && Grown(s, s', r, KResponse, BodyCleanups(body))
      && s'.reqs == s.reqs[r := q.(fetches := q.fetches + [NewFetch(s, r, o, body)])]
      && s'.ctxs[q.ctx] == (var y := x.RegisterCleanup(Return(Obj(KResponse, p)));
                            if body.TextBody? then y.RegisterCleanup(ResetBuffer) else y)
      && s'.evts == s.evts && s.responses <= s'.responses && s'.Response(p) == NewResponse
  {
    FetchCallState(s, r, o, body);
  }

  // One more fetch for the same request.
  lemma FetchAdded(q: Req, g: Fetch)
    requires RequestInv(q) && InUse(q) && !q.http.Prepared? && FetchInv(q, g) && !IsCounted(g.pc)
    ensures var q' := q.(fetches := q.fetches + [g]);
      && RequestInv(q') && CountedIn(q'.fetches) == CountedIn(q.fetches)
      && (g.pc.Start? || g.pc.Gone? ==> forall c :: HeldIn(q'.fetches, c) == HeldIn(q.fetches, c))
  {
    var q' := q.(fetches := q.fetches + [g]);
    assert q'.fetches[..|q.fetches|] == q.fetches;
    assert forall o :: Live(q', o) == Live(q, o) && Active(q', o) == Active(q, o);
    forall i | 0 <= i < |q'.fetches| ensures FetchInv(q', q'.fetches[i]) {
      assert FetchInv(q, if i < |q.fetches| then q.fetches[i] else g);
    }
    forall i | 0 <= i < |q'.tasks| ensures TaskInv(q', q'.tasks[i]) { assert TaskInv(q, q.tasks[i]); }
  }

  lemma KeepsFetchCall(s: Sys, r: Id, o: Owner, body: FetchBody)
    requires Inv(s) && r < |s.reqs| && Active(s.reqs[r], o) && s.Evt(s.reqs[r].evt).fetcher.Some?
    ensures Inv(DoFetchCall(s, r, o, body))
  {
    LiveInUse(s, r, o);
    TrioInPlace(s, r);
    InPlace(s, r);
    EventFetcherBound(s, r);
    TakenIsReset(s, KResponse, r);
    FetchCallGrows(s, r, o, body);
    FetchCallKeeps(s, DoFetchCall(s, r, o, body), r, NewFetch(s, r, o, body), BodyCleanups(body));
  }

  // The fetcher in the event is on the stack, so it is bound to the context.
  lemma EventFetcherBound(s: Sys, r: Id)
    requires Inv(s) && r < |s.reqs| && InUse(s.reqs[r]) && s.Evt(s.reqs[r].evt).fetcher.Some?
    ensures var f := s.Evt(s.reqs[r].evt).fetcher.value;
      s.Fetcher(f) == Fetcher(Some(s.reqs[r].ctx)) && Return(Obj(KFetcher, f)) in Stack(s, r)
  {
    InPlace(s, r);
    var st, f := Stack(s, r), s.Evt(s.reqs[r].evt).fetcher.value;
    var j :| 0 <= j < |st| && st[j] == Return(Obj(KFetcher, f));
    assert ReqInv(s, r) && OpenInv(s, r);
    assert EntryInv(s, s.reqs[r].ctx, st, j);
  }

  lemma FetchCallKeeps(s: Sys, s': Sys, r: Id, g: Fetch, extra: seq<Cleanup>)
    requires Inv(s) && Grown(s, s', r, KResponse, extra) && InUse(s.reqs[r]) && !s.reqs[r].http.Prepared?
    requires s'.reqs == s.reqs[r := s.reqs[r].(fetches := s.reqs[r].fetches + [g])]
    requires var x := s.ctxs[s.reqs[r].ctx]; var y := x.RegisterCleanup(Return(Obj(KResponse, s.Pick(KResponse))));
      s'.ctxs[s.reqs[r].ctx] == if extra == [] then y else y.RegisterCleanup(extra[0])
    requires extra == [] || extra == [ResetBuffer]
    requires s'.evts == s.evts && s.responses <= s'.responses && s'.Response(s.Pick(KResponse)) == NewResponse
    requires FetchInv(s.reqs[r], g) && g.response == s.Pick(KResponse) && (g.pc.Start? || g.pc.Gone?)
    requires !g.callback.Settled?
    requires Return(Obj(KFetcher, g.fetcher)) in Stack(s, r)
    ensures Inv(s')
  {
    var q, q', x := s.reqs[r], s'.reqs[r], s.ctxs[s.reqs[r].ctx];
    var a := Return(Obj(KResponse, s.Pick(KResponse)));
    TrioInPlace(s, r);
    FetchAdded(q, g);
    ContextPush(r, q, x, a);
    if extra != [] { ContextPush(r, q, x.RegisterCleanup(a), ResetBuffer); }
    EventFrame(r, q, q', s.evts[q.evt]);
    assert s'.ctxs[q.ctx].held == x.held;
    HeldKept(s, s', r);
    FetchCallHolds(s, s', r, g, extra);
    assert Placed(s, s', r, KResponse, extra) by { PlacedFresh(s, s', r, extra); }
    PlacedKeeps(s, s', r, KResponse, extra);
  }

  lemma PlacedFresh(s: Sys, s': Sys, r: Id, extra: seq<Cleanup>)
    requires Inv(s) && Grown(s, s', r, KResponse, extra) && Stack(s, r) != [] && (extra == [] || extra == [ResetBuffer])
    requires s.responses <= s'.responses && s'.Response(s.Pick(KResponse)) == NewResponse
    ensures Placed(s, s', r, KResponse, extra)
  {
    Mine(s, r);
    forall p: Id | Return(Obj(KResponse, p)) in Stack(s, r) ensures s'.Response(p) == s.Response(p) {
      assert p < s.Made(KResponse);
    }
  }

  lemma FetchCallHolds(s: Sys, s': Sys, r: Id, g: Fetch, extra: seq<Cleanup>)
    requires Inv(s) && Grown(s, s', r, KResponse, extra) && InUse(s.reqs[r])
    requires s'.reqs[r] == s.reqs[r].(fetches := s.reqs[r].fetches + [g]) && s'.evts == s.evts
    requires s.responses <= s'.responses
    requires g.response == s.Pick(KResponse) && Return(Obj(KFetcher, g.fetcher)) in Stack(s, r) && !g.callback.Settled?
    ensures HoldingInv(s', s'.reqs[r], Stack(s', r))
  {
    var st, st' := Stack(s, r), Stack(s', r);
    assert HoldingInv(s, s.reqs[r], st) by { InPlace(s, r); }
    assert forall p: Id :: Return(Obj(KResponse, p)) in st ==> s'.Response(p) == s.Response(p) by {
      Mine(s, r);
      assert forall p: Id :: Return(Obj(KResponse, p)) in st ==> p < s.Made(KResponse);
    }
    assert st' == st + [Return(Obj(KResponse, g.response))] + extra;
    HoldsOneMore(s, s', s.reqs[r], g, st, extra);
  }

  lemma HoldsOneMore(s: Sys, s': Sys, q: Req, g: Fetch, st: seq<Cleanup>, extra: seq<Cleanup>)
    requires HoldingInv(s, q, st) && s'.evts == s.evts && Return(Obj(KFetcher, g.fetcher)) in st && !g.callback.Settled?
    requires forall p: Id :: Return(Obj(KResponse, p)) in st ==> s'.Response(p) == s.Response(p)
    requires st != []
    ensures HoldingInv(s', q.(fetches := q.fetches + [g]), st + [Return(Obj(KResponse, g.response))] + extra)
  {
    var q', st' := q.(fetches := q.fetches + [g]), st + [Return(Obj(KResponse, g.response))] + extra;
    assert st'[|st|] == Return(Obj(KResponse, g.response));
    assert forall c :: c in st ==> c in st';
    forall i | 0 <= i < |q'.fetches|
      ensures Return(Obj(KFetcher, q'.fetches[i].fetcher)) in st'
      ensures Return(Obj(KResponse, q'.fetches[i].response)) in st'
    {
      if i < |q.fetches| { assert q'.fetches[i] == q.fetches[i]; }
    }
  }
}
