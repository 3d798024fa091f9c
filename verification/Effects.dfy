// What the script's steps and the callbacks leave behind them among the pooled objects:
// what was made or bound, and what was registered to take it down again.
module Effects {
  import opened Base
  import opened Objects
  import opened Programs
  import opened Middleware
  import opened Invariants
  import opened Frames
  import opened Ownership
  import opened LocalSteps
  import opened TakeSteps
  import opened ScriptSteps
  import opened SettleSteps
  import opened Safety

  // An object of request r: its own, with its return on the request's stack.
  predicate Keeps(s: Sys, r: Id, o: Obj) { o in s.home && s.home[o] == Owned(r) && Return(o) in Stack(s, r) }

  // A lazily made property: made and registered on the first read, left alone by the others.
  predicate MadeOnce(s: Sys, s': Sys, r: Id, before: Option<Id>, after: Option<Id>, k: Kind) {
    && after.Some? && Keeps(s', r, Obj(k, after.value))
    && (before.Some? ==> s' == s)
    && (before.None? ==> Stack(s', r) == Stack(s, r) + [Return(Obj(k, after.value))])
  }

  lemma OnStackKept(s: Sys, r: Id, o: Obj)
    requires Inv(s) && r < |s.reqs| && s.reqs[r].Open() && Return(o) in Stack(s, r)
    ensures Keeps(s, r, o)
  {
    Mine(s, r);
  }

  lemma GrownKept(s: Sys, s': Sys, r: Id, k: Kind)
    requires Inv(s) && Grown(s, s', r, k, [])
    ensures Stack(s', r) == Stack(s, r) + [Return(Obj(k, s.Pick(k)))] && Keeps(s', r, Obj(k, s.Pick(k)))
  {
    TakenIsFresh(s, k, r);
    var st := Stack(s', r);
    assert st == Stack(s, r) + [Return(Obj(k, s.Pick(k)))] + [];
    assert st[|Stack(s, r)|] == Return(Obj(k, s.Pick(k)));
  }

  // The fetch property: a fetcher bound to the request's context.
  lemma FetcherMade(s: Sys, r: Id, o: Owner)
    requires Step(s, ReadFetch(r, o))
    ensures var s', q := DoReadFetch(s, r), s.reqs[r]; var f := s'.Evt(q.evt).fetcher;
      MadeOnce(s, s', r, s.Evt(q.evt).fetcher, f, KFetcher) && s'.Fetcher(f.value).ioContext == Some(q.ctx)
  {
    LiveInUse(s, r, o);
    ReadsHere(s, r);
    if s.Evt(s.reqs[r].evt).fetcher.None? {
      PickBounds(s, KFetcher);
      ReadFetchGrows(s, r);
      GrownKept(s, DoReadFetch(s, r), r, KFetcher);
    } else {
      EventFetcherBound(s, r);
      InPlace(s, r);
      OnStackKept(s, r, Obj(KFetcher, s.Evt(s.reqs[r].evt).fetcher.value));
    }
  }

  // The headers of the request: a proxy that holds a header.
  lemma HeadersMade(s: Sys, r: Id, o: Owner)
    requires Step(s, ReadHeaders(r, o))
    ensures var s', q := DoReadHeaders(s, r), s.reqs[r]; var h := s'.Evt(q.evt).headers;
      if s.Evt(q.evt).headers.Some? then s' == s
      else MadeOnce(s, s', r, None, h, KHeaders) && h.value < |s'.headers| && s'.headers[h.value].header
  {
    LiveInUse(s, r, o);
    ReadsHere(s, r);
    if s.Evt(s.reqs[r].evt).headers.None? {
      ReadHeadersGrows(s, r);
      GrownKept(s, DoReadHeaders(s, r), r, KHeaders);
      HeadersHeld(s, r);
    }
  }

  lemma HeadersHeld(s: Sys, r: Id)
    requires Inv(s) && Reads(s, r) && s.evts[s.reqs[r].evt].headers.None? && s.evts[s.reqs[r].evt].http.Some?
    requires s.ctxs[s.reqs[r].ctx].hdrPool
    ensures var s', h := DoReadHeaders(s, r), s.Pick(KHeaders); h < |s'.headers| && s'.headers[h].header
  {
    PickBounds(s, KHeaders);
  }

  // The body of the request: a stream with a reader of its own.
  lemma BodyMade(s: Sys, r: Id, o: Owner)
    requires Step(s, ReadBody(r, o))
    ensures var s', q := DoReadBody(s, r), s.reqs[r]; var t := s'.Evt(q.evt).body;
      MadeOnce(s, s', r, s.Evt(q.evt).body, t, KStream) && s'.Stream(t.value) == Stream(true, true)
  {
    LiveInUse(s, r, o);
    ReadsHere(s, r);
    if s.Evt(s.reqs[r].evt).body.None? {
      PickBounds(s, KStream);
      ReadBodyGrows(s, r);
      GrownKept(s, DoReadBody(s, r), r, KStream);
    } else {
      InPlace(s, r);
      var t := s.Evt(s.reqs[r].evt).body.value;
      OnStackKept(s, r, Obj(KStream, t));
      StreamOnStack(s, r, t);
    }
  }

  lemma StreamOnStack(s: Sys, r: Id, t: Id)
    requires Inv(s) && r < |s.reqs| && s.reqs[r].Open() && Return(Obj(KStream, t)) in Stack(s, r)
    ensures s.Stream(t) == Stream(true, true)
  {
    var st := Stack(s, r);
    var j :| 0 <= j < |st| && st[j] == Return(Obj(KStream, t));
    assert EntryInv(s, s.reqs[r].ctx, st, j) by { assert ReqInv(s, r) && OpenInv(s, r); }
  }

  // The kv property: every proxy bound to the request's context.
  lemma KVBound(s: Sys, r: Id, o: Owner)
    requires Step(s, ReadKV(r, o))
    ensures DoReadKV(s, r).Evt(s.reqs[r].evt).kv == Some(s.reqs[r].ctx)
  {
    LiveInUse(s, r, o);
    ReadsHere(s, r);
  }

  // A call of fetch: a clean response, and for a text body the buffer's reset above it.
  lemma FetchCalls(s: Sys, r: Id, o: Owner, body: FetchBody)
    requires Step(s, DoFetch(r, o, body))
    ensures var s', q := DoFetchCall(s, r, o, body), s.reqs[r]; var fs := s'.reqs[r].fetches;
      && |fs| == |q.fetches| + 1
      && var g := fs[|q.fetches|];
      && g.owner == o && s'.Fetcher(g.fetcher).ioContext == Some(q.ctx)
      && g.callback == (if body.UnsupportedBody? then Scheduled(false) else Unscheduled)
      && s'.Response(g.response) == NewResponse
      && Stack(s', r)
         == Stack(s, r) + [Return(Obj(KResponse, g.response))] + (if body.TextBody? then [ResetBuffer] else [])
  {
    LiveInUse(s, r, o);
    ReadsHere(s, r);
    EventFetcherBound(s, r);
    TakenIsReset(s, KResponse, r);
    FetchCallGrows(s, r, o, body);
    FetcherStays(s, r, o, body);
  }

  lemma FetcherStays(s: Sys, r: Id, o: Owner, body: FetchBody)
    requires r < |s.reqs| && s.Evt(s.reqs[r].evt).fetcher.Some?
    ensures DoFetchCall(s, r, o, body).fetchers == s.fetchers
  {}

  // A fulfilled fetch: the response bound to its request's context, with its stream; the
  // stream's return right below the response's reset, both above the response's return.
  ghost predicate Fulfilled(s: Sys, r: Id, i: nat) {
    && r < |s.reqs| && i < |s.reqs[r].fetches| && s.reqs[r].fetches[i].callback == Settled(true)
    && var p, st := s.reqs[r].fetches[i].response, Stack(s, r); var v := s.Response(p);
    && v.ioContext == Some(s.reqs[r].ctx) && v.resp && v.body.Some? && s.Stream(v.body.value) == Stream(true, true)
    && exists j :: 0 < j < |st| && st[j] == ResetResponse(p) && st[j - 1] == Return(Obj(KStream, v.body.value))
                   && Return(Obj(KResponse, p)) in st[..j - 1]
  }

  lemma CallbackFulfils(s: Sys, r: Id, i: nat)
    requires Step(s, RunCallback(r, i)) && s.reqs[r].fetches[i].callback.ok
    ensures Fulfilled(DoRunCallback(s, r, i), r, i)
    ensures |Stack(DoRunCallback(s, r, i), r)| == |Stack(s, r)| + 2
  {
    CallbackInUse(s, r, i);
    CallbackReads(s, r, i);
    CallbackGrows(s, r, i);
    BoundOnTop(s, DoRunCallback(s, r, i), r, i);
  }

  lemma BoundOnTop(s: Sys, s': Sys, r: Id, i: nat)
    requires r < |s.reqs| && i < |s.reqs[r].fetches|
    requires Return(Obj(KResponse, s.reqs[r].fetches[i].response)) in Stack(s, r)
    requires var q, g, t := s.reqs[r], s.reqs[r].fetches[i], s.Pick(KStream);
      && Grown(s, s', r, KStream, [ResetResponse(g.response)])
      && s'.reqs == s.reqs[r := SetFetch(q, i, g.(callback := Settled(true)))]
      && s'.Stream(t) == Stream(true, true)
      && s'.Response(g.response).ioContext == Some(q.ctx) && s'.Response(g.response).resp
      && s'.Response(g.response).body == Some(t)
    ensures Fulfilled(s', r, i) && |Stack(s', r)| == |Stack(s, r)| + 2
  {
    var st, st', p := Stack(s, r), Stack(s', r), s.reqs[r].fetches[i].response;
    assert st' == st + [Return(Obj(KStream, s.Pick(KStream)))] + [ResetResponse(p)];
    var j := |st| + 1;
    assert st'[j] == ResetResponse(p) && st'[j - 1] == Return(Obj(KStream, s.Pick(KStream))) && st'[..j - 1] == st;
  }

  // The headers of a fulfilled response.
  lemma ResponseHeadersMade(s: Sys, r: Id, o: Owner, i: nat)
    requires Step(s, ReadResponseHeaders(r, o, i))
    ensures var s', p := DoReadResponseHeaders(s, r, i), s.reqs[r].fetches[i].response;
      if s.Response(p).headers.Some? then s' == s else MadeOnce(s, s', r, None, s'.Response(p).headers, KHeaders)
  {
    LiveInUse(s, r, o);
    ReadsHere(s, r);
    ResponseBound(s, r, i);
    if s.Response(s.reqs[r].fetches[i].response).headers.None? {
      ResponseHeadersGrows(s, r, i);
      GrownKept(s, DoReadResponseHeaders(s, r, i), r, KHeaders);
    }
  }

  // A response with a text body: its buffer is reset when the request is taken down.
  lemma TextRegistered(s: Sys, r: Id, o: Outcome, text: bool)
    requires Step(s, SettleResponse(r, o, text))
    ensures Stack(DoSettleResponse(s, r, o, text), r) == Stack(s, r) + (if text then [ResetBuffer] else [])
  {
    LiveInUse(s, r, ByResponse);
    InPlace(s, r);
  }
}
