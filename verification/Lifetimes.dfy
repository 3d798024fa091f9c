// Which context a fetch is given, how long the two contexts live, and what the wait and
// release goroutines wait for: told of every reachable state by the request alone.
module Lifetimes {
  import opened Base
  import opened Objects
  import opened Programs
  import opened Middleware
  import opened Invariants
  import opened LocalSteps
  import opened FetchSteps
  import opened EndSteps
  import opened Safety

  // The wait goroutine has got past what it waits for only if the client has left or a
  // waitUntil was accepted; and it waits for the one or for the other accordingly.
  lemma WaitsForClient(s: Sys, r: Id)
    requires Reachable(s) && r < |s.reqs|
    ensures var q := s.reqs[r];
      && (q.waiter.ToCancel? || q.waiter.Ended? ==> q.gone || q.extenders != [])
      && (q.waiter.OnReqCtx? ==> q.extenders == []) && (q.waiter.OnExtenders? ==> q.extenders != [])
  {
    ReachableInv(s);
    assert RequestInv(s.reqs[r]) by { assert ReqInv(s, r); }
  }

  // While the client is there and no waitUntil was accepted, the extended context is
  // not cancelled, release has not got past it, and no cleanup has run.
  lemma ContextOutlivesClient(s: Sys, r: Id)
    requires Reachable(s) && r < |s.reqs| && !s.reqs[r].gone && s.reqs[r].extenders == []
    ensures var q := s.reqs[r]; var x := s.Ctx(q.ctx);
      && (q.releaser.NoRelease? || q.releaser.OnCancelled?)
      && x.extended == Uncancelled && x.ran == [] && x.cleanups == x.registered
  {
    ReachableInv(s);
    WaitsForClient(s, r);
    BeforeCleaning(s, r);
  }

  lemma BeforeCleaning(s: Sys, r: Id)
    requires Inv(s) && r < |s.reqs| && !s.reqs[r].waiter.Ended?
    ensures var q := s.reqs[r]; var x := s.Ctx(q.ctx);
      && (q.releaser.NoRelease? || q.releaser.OnCancelled?)
      && x.extended == Uncancelled && x.ran == [] && x.cleanups == x.registered
  {
    assert ReqInv(s, r) && OpenInv(s, r);
    var x := s.Ctx(s.reqs[r].ctx);
    assert Reverse(x.ran) == [] && x.cleanups + [] == x.cleanups;
  }

  // Context() is the extended context exactly when a waitUntil was accepted.
  lemma ContextGiven(s: Sys, r: Id)
    requires Reachable(s) && r < |s.reqs| && s.reqs[r].Open() && !s.reqs[r].releaser.Putting?
    ensures s.Ctx(s.reqs[r].ctx).Context() == if s.reqs[r].extenders == [] then OnRequest else OnExtended
  {
    ReachableInv(s);
    assert ReqInv(s, r) && OpenInv(s, r);
  }

  // A fetch asks for its permit under the context of the moment it asks.
  lemma FetchAsks(s: Sys, r: Id, i: nat)
    requires Reachable(s) && Enabled(s, FetchStep(r, i)) && s.reqs[r].fetches[i].pc.Start?
    ensures var q, q' := s.reqs[r], Apply(s, FetchStep(r, i)).reqs[r];
      && i < |q'.fetches|
      && q'.fetches[i].pc == Acquiring(q.ctx, if q.extenders == [] then OnRequest else OnExtended)
  {
    ReachableInv(s);
    FetchInUse(s, r, i);
    FetchFacts(s, r, i);
    ReadMoves(s, r, i);
  }

  // What the guards of the model say of a state that has not crashed.

  lemma AcquireGuards(s: Sys, r: Id, i: nat)
    requires !s.crashed && r < |s.reqs| && i < |s.reqs[r].fetches| && s.reqs[r].fetches[i].pc.Acquiring?
    ensures var pc := s.reqs[r].fetches[i].pc; var x := s.Ctx(pc.ctx);
      && (Enabled(s, FetchStep(r, i)) <==> x.held < 10)
      && (Enabled(s, FetchRefused(r, i)) <==>
            if pc.deadline.OnExtended? then x.extended.Cancelled? else s.IsGone(x.request))
  {}

  lemma WaitGuard(s: Sys, r: Id)
    requires !s.crashed && r < |s.reqs|
    ensures var w, x := s.reqs[r].waiter, s.Ctx(s.reqs[r].ctx);
      Enabled(s, WaitStep(r)) <==>
      || w.Begin? || w.ToCancel? || (w.OnExtenders? && x.extenders == 0)
      || (w.OnReqCtx? && (x.request.None? || s.IsGone(x.request)))
  {}

  lemma ReleaseGuard(s: Sys, r: Id)
    requires !s.crashed && r < |s.reqs|
    ensures var p, x := s.reqs[r].releaser, s.Ctx(s.reqs[r].ctx);
      Enabled(s, ReleaseStep(r)) <==>
      p.Cleaning? || p.Putting? || (p.OnCancelled? && x.extended != Uncancelled) || (p.OnFetches? && x.fetches == 0)
  {}

  // A fetch that waits for a permit waits under the extended context only if a waitUntil
  // was accepted, and can be refused exactly if it waits under the request context and
  // the client has left.
  lemma FetchRefusedExactly(s: Sys, r: Id, i: nat)
    requires Reachable(s) && r < |s.reqs| && i < |s.reqs[r].fetches| && s.reqs[r].fetches[i].pc.Acquiring?
    ensures s.reqs[r].fetches[i].pc.deadline.OnExtended? ==> s.reqs[r].extenders != []
    ensures Enabled(s, FetchRefused(r, i)) <==> s.reqs[r].fetches[i].pc.deadline.OnRequest? && s.reqs[r].gone
  {
    var g, c := s.reqs[r].fetches[i], s.reqs[r].ctx;
    assert !s.crashed && g.pc.ctx == c && s.Ctx(c).extended == Uncancelled && s.Ctx(c).request == Some(r)
        && (g.pc.deadline.OnExtended? ==> s.reqs[r].extenders != []) by {
      ReachableInv(s);
      AskerFacts(s, r, i);
    }
    AcquireGuards(s, r, i);
  }

  // A fetch that waits for a permit goes on exactly when fewer than ten fetches, of this
  // and of earlier requests, have one of that context.
  lemma FetchAdmittedExactly(s: Sys, r: Id, i: nat)
    requires Reachable(s) && r < |s.reqs| && i < |s.reqs[r].fetches| && s.reqs[r].fetches[i].pc.Acquiring?
    ensures Enabled(s, FetchStep(r, i)) <==> HeldBy(s.reqs, s.reqs[r].ctx) < 10
  {
    var c := s.reqs[r].ctx;
    assert !s.crashed && s.reqs[r].fetches[i].pc.ctx == c < |s.ctxs| && s.Ctx(c).held == HeldBy(s.reqs, c) by {
      ReachableInv(s);
      AskerFacts(s, r, i);
    }
    AcquireGuards(s, r, i);
  }

  lemma AskerFacts(s: Sys, r: Id, i: nat)
    requires Inv(s) && r < |s.reqs| && i < |s.reqs[r].fetches| && s.reqs[r].fetches[i].pc.Acquiring?
    ensures var q, g := s.reqs[r], s.reqs[r].fetches[i]; var x := s.Ctx(q.ctx);
      && !s.crashed && g.pc.ctx == q.ctx && (g.pc.deadline.OnExtended? ==> q.extenders != [])
      && x.extended == Uncancelled && x.request == Some(r)
  {
    var q := s.reqs[r];
    assert FetchInv(q, q.fetches[i]) by { assert ReqInv(s, r) && RequestInv(q); }
    FetchInUse(s, r, i);
    LiveInUse(s, r, q.fetches[i].owner);
    InPlace(s, r);
  }

  // What the wait goroutine of a returned request waits for, exactly.
  lemma WaitBlocksExactly(s: Sys, r: Id)
    requires Reachable(s) && r < |s.reqs|
    ensures var q := s.reqs[r];
      Enabled(s, WaitStep(r)) <==>
      match q.waiter
      case NoWait => false
      case Begin => true
      case OnExtenders => forall k :: 0 <= k < |q.wrappers| ==> q.wrappers[k].WrapperDone?
      case OnReqCtx => q.gone
      case ToCancel => true
      case Ended => false
  {
    var q, x := s.reqs[r], s.Ctx(s.reqs[r].ctx);
    assert !s.crashed by { ReachableInv(s); }
    WaitGuard(s, r);
    if !q.waiter.NoWait? && !q.waiter.Ended? {
      assert x.request == Some(r) && x.extenders == Trues(q.extenders) && WrappersInv(q) by {
        ReachableInv(s);
        WaiterFacts(s, r);
      }
      TruesZero(q.extenders);
    }
  }

  lemma WaiterFacts(s: Sys, r: Id)
    requires Inv(s) && r < |s.reqs| && !s.reqs[r].waiter.NoWait? && !s.reqs[r].waiter.Ended?
    ensures var q, x := s.reqs[r], s.Ctx(s.reqs[r].ctx);
      x.request == Some(r) && x.extenders == Trues(q.extenders) && WrappersInv(q)
  {
    WaitRuns(s, r);
    InPlace(s, r);
    assert ReqInv(s, r) && RequestInv(s.reqs[r]);
  }

  // And the release goroutine.
  lemma ReleaseBlocksExactly(s: Sys, r: Id)
    requires Reachable(s) && r < |s.reqs|
    ensures var q := s.reqs[r];
      Enabled(s, ReleaseStep(r)) <==>
      match q.releaser
      case NoRelease => false
      case OnCancelled => q.waiter.Ended?
      case OnFetches => forall i :: 0 <= i < |q.fetches| ==> !IsCounted(q.fetches[i].pc)
      case Closed => false
      case _ => true
  {
    var q, x := s.reqs[r], s.Ctx(s.reqs[r].ctx);
    assert !s.crashed by { ReachableInv(s); }
    ReleaseGuard(s, r);
    if q.releaser.OnCancelled? || q.releaser.OnFetches? {
      assert x.fetches == CountedIn(q.fetches) && x.extended == if q.waiter.Ended? then Cancelled else Uncancelled by {
        ReachableInv(s);
        ReleaserSees(s, r);
      }
      FetchesDone(q.fetches);
    }
  }

  lemma ReleaserSees(s: Sys, r: Id)
    requires Inv(s) && r < |s.reqs| && (s.reqs[r].releaser.OnCancelled? || s.reqs[r].releaser.OnFetches?)
    ensures var q := s.reqs[r]; var x := s.Ctx(q.ctx);
      && !s.crashed && x.fetches == CountedIn(q.fetches)
      && x.extended == if q.waiter.Ended? then Cancelled else Uncancelled
  {
    assert ReqInv(s, r) && OpenInv(s, r);
  }

  lemma FetchesDone(fs: seq<Fetch>)
    ensures CountedIn(fs) == 0 <==> forall i :: 0 <= i < |fs| ==> !IsCounted(fs[i].pc)
  {
    if CountedIn(fs) == 0 { CountedZero(fs); }
    if forall i :: 0 <= i < |fs| ==> !IsCounted(fs[i].pc) { CountedNone(fs); }
  }
}
