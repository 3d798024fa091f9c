// What each step looks up, it finds: the pointers, counters and permits that a step
// would crash without, told for every step of every reachable state.
module Presence {
  import opened Base
  import opened Objects
  import opened Programs
  import opened Middleware
  import opened Invariants
  import opened LocalSteps
  import opened RequestSteps
  import opened FetchSteps
  import opened ScriptSteps
  import opened SettleSteps
  import opened TaskSteps
  import opened EndSteps
  import opened Safety

  // The event in place, with its request's writer, context and headers pool.
  predicate EventThere(s: Sys, r: Id)
    requires r < |s.reqs|
  {
    var e := s.Evt(s.reqs[r].evt);
    e.ioContext == Some(s.reqs[r].ctx) && e.http == Some(r) && s.Ctx(s.reqs[r].ctx).hdrPool
  }

  lemma EventIsThere(s: Sys, r: Id)
    requires Inv(s) && r < |s.reqs| && InUse(s.reqs[r])
    ensures EventThere(s, r)
  {
    InPlace(s, r);
  }

  // The script, and the callbacks of the handler's and the response's promises.
  lemma ScriptFinds(s: Sys, a: Action)
    requires Reachable(s) && Enabled(s, a) && Obeys(s, a)
    requires a.WaitUntil? || a.ReadFetch? || a.ReadHeaders? || a.ReadBody? || a.ReadKV? || a.DoFetch?
          || a.ReadResponseHeaders? || a.Settle? || a.SettleResponse?
    ensures var e := s.Evt(s.reqs[a.r].evt);
      e.ioContext == Some(s.reqs[a.r].ctx) && e.http == Some(a.r) && s.Ctx(s.reqs[a.r].ctx).hdrPool
    ensures a.DoFetch? ==>
      var f := s.Evt(s.reqs[a.r].evt).fetcher; f.Some? && s.Fetcher(f.value).ioContext == Some(s.reqs[a.r].ctx)
    ensures a.ReadResponseHeaders? ==>
      var v := s.Response(s.reqs[a.r].fetches[a.i].response); v.ioContext == Some(s.reqs[a.r].ctx) && v.resp
  {
    var r, q := a.r, s.reqs[a.r];
    ReachableInv(s);
    LiveInUse(s, r, if a.Settle? then ByHandler else if a.SettleResponse? then ByResponse else a.o);
    EventIsThere(s, r);
    if a.DoFetch? { EventFetcherBound(s, r); }
    if a.ReadResponseHeaders? { ResponseBound(s, r, a.i); }
  }

  // A goroutine of the response that has something left to do.
  lemma ResponderFinds(s: Sys, r: Id)
    requires Reachable(s) && r < |s.reqs|
    requires var q := s.reqs[r]; q.handlerThread.prog != End || q.responseThread.prog != End || q.exception != End
    ensures s.Evt(s.reqs[r].evt).http == Some(r)
  {
    ReachableInv(s);
    var q := s.reqs[r];
    RunnerInUse(s, r, if q.handlerThread.prog != End then OfHandler
                      else if q.responseThread.prog != End then OfResponse else OfException);
    EventIsThere(s, r);
  }

  // A fetch, in every stage of its goroutine, and its callback.
  lemma FetchFindsIts(s: Sys, r: Id, i: nat)
    requires Reachable(s) && r < |s.reqs| && i < |s.reqs[r].fetches|
    ensures var g, c := s.reqs[r].fetches[i], s.reqs[r].ctx;
      && (g.callback.Scheduled? ==> s.Fetcher(g.fetcher).ioContext == Some(c))
      && match g.pc
         case Start => s.Fetcher(g.fetcher).ioContext == Some(c)
         case Acquiring(k, _) => k == c && s.Ctx(c).request == Some(r)
         case Admitted(k) => k == c && s.Ctx(c).held >= 1
         case Counted(k) => k == c && s.Fetcher(g.fetcher).ioContext == Some(c)
         case Running(k) => k == c
         case Returning(k) => k == c && s.Ctx(c).fetches >= 1
         case Releasing(k) => k == c && s.Ctx(c).held >= 1
         case Gone => true
  {
    ReachableInv(s);
    var g := s.reqs[r].fetches[i];
    if g.callback.Scheduled? {
      CallbackInUse(s, r, i);
      FetcherBound(s, r, i);
    }
    if g.pc.Releasing? || g.pc.Admitted? { PermitIsThere(s, r, i); }
    if !g.pc.Releasing? && !g.pc.Gone? {
      FetchInUse(s, r, i);
      FetchFacts(s, r, i);
      InPlace(s, r);
    }
  }

  lemma PermitIsThere(s: Sys, r: Id, i: nat)
    requires Inv(s) && r < |s.reqs| && i < |s.reqs[r].fetches|
    requires s.reqs[r].fetches[i].pc.Releasing? || s.reqs[r].fetches[i].pc.Admitted?
    ensures s.reqs[r].fetches[i].pc.ctx == s.reqs[r].ctx && s.Ctx(s.reqs[r].ctx).held >= 1
  {
    assert s.reqs[r].ctx < |s.ctxs| && FetchInv(s.reqs[r], s.reqs[r].fetches[i]) by {
      assert ReqInv(s, r) && RequestInv(s.reqs[r]);
    }
    HeldSome(s.reqs, r, i, s.reqs[r].ctx);
  }

  // The wait and release goroutines, and the functions that release calls.
  lemma EndFinds(s: Sys, r: Id)
    requires Reachable(s) && r < |s.reqs|
    ensures var q, x := s.reqs[r], s.Ctx(s.reqs[r].ctx);
      && (q.waiter.OnReqCtx? ==> x.request == Some(r))
      && (q.waiter.ToCancel? ==> x.extended == Uncancelled)
      && (q.releaser.OnCancelled? ==> x.extended == if q.waiter.Ended? then Cancelled else Uncancelled)
      && (q.releaser.Cleaning? ==> x.hdrPool)
      && (q.releaser.Cleaning? ==> forall j :: 0 <= j < |x.cleanups| && x.cleanups[j].Return? ==>
            x.cleanups[j].obj.kind.KStream? ==> s.Stream(x.cleanups[j].obj.id).reader)
  {
    ReachableInv(s);
    if s.reqs[r].Open() {
      CleanupsFind(s, r);
      assert s.reqs[r].waiter.OnReqCtx? || s.reqs[r].waiter.ToCancel? ==> !s.reqs[r].releaser.Putting? by {
        assert ReqInv(s, r) && RequestInv(s.reqs[r]);
      }
    } else {
      assert s.reqs[r].waiter.Ended? by { assert ReqInv(s, r) && RequestInv(s.reqs[r]); }
    }
  }

  lemma CleanupsFind(s: Sys, r: Id)
    requires Inv(s) && r < |s.reqs| && s.reqs[r].Open()
    ensures ContextInv(r, s.reqs[r], s.Ctx(s.reqs[r].ctx))
    ensures var cs := s.Ctx(s.reqs[r].ctx).cleanups;
      forall j :: 0 <= j < |cs| && cs[j].Return? && cs[j].obj.kind.KStream? ==> s.Stream(cs[j].obj.id).reader
  {
    assert ReqInv(s, r) && OpenInv(s, r);
    var cs := s.Ctx(s.reqs[r].ctx).cleanups;
    forall j | 0 <= j < |cs| && cs[j].Return? && cs[j].obj.kind.KStream? ensures s.Stream(cs[j].obj.id).reader {
      assert EntryInv(s, s.reqs[r].ctx, cs, j);
    }
  }
}
