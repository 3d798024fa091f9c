// A waitUntil that comes after release has begun to clean up: what it finds depends on
// whose hands the request's event is in by then.
module StaleCalls {
  import opened Base
  import opened Objects
  import opened Programs
  import opened Middleware
  import opened Invariants
  import opened LocalSteps
  import opened ScriptSteps
  import opened EndSteps
  import opened Safety
  import opened Alone
  import opened History
  import opened Theorems

  // Whoever owns an event has it as its own, bound to its own context.
  lemma OwnerOfEvent(s: Sys, e: Id)
    requires Inv(s) && IsOwned(s, Obj(KEvent, e))
    ensures var t := s.home[Obj(KEvent, e)].r;
      && t < |s.reqs| && Stack(s, t) != [] && s.reqs[t].evt == e && s.Evt(e).ioContext == Some(s.reqs[t].ctx)
      && s.reqs[t].Open() && s.reqs[t].ctx < |s.ctxs| && s.Ctx(s.reqs[t].ctx).extenders == Trues(s.reqs[t].extenders)
  {
    var o := Obj(KEvent, e);
    var t := s.home[o].r;
    assert IsHeldBy(s, o, t);
    assert ReqInv(s, t) && OpenInv(s, t);
    var st := Stack(s, t);
    var j :| 0 <= j < |st| && st[j] == Return(o);
    assert EntryInv(s, s.reqs[t].ctx, st, j);
  }

  // The event of a request is its own exactly while its return has not run.
  lemma OwnEvent(s: Sys, r: Id)
    requires Inv(s) && r < |s.reqs|
    ensures IsOwned(s, Obj(KEvent, s.reqs[r].evt)) && s.home[Obj(KEvent, s.reqs[r].evt)].r == r <==> Stack(s, r) != []
  {
    if Stack(s, r) != [] {
      assert Stack(s, r)[0] == Return(Obj(KEvent, s.reqs[r].evt)) by { assert ReqInv(s, r) && OpenInv(s, r); }
    } else if IsOwned(s, Obj(KEvent, s.reqs[r].evt)) {
      OwnerOfEvent(s, s.reqs[r].evt);
    }
  }

  // In nobody's hands, it has no context.
  lemma SpareEvent(s: Sys, e: Id)
    requires Inv(s) && !IsOwned(s, Obj(KEvent, e))
    ensures s.Evt(e).ioContext == None
  {
    if e < |s.evts| {
      assert Obj(KEvent, e).id < s.Made(KEvent);
      assert IsSpare(s, Obj(KEvent, e)) && IsReset(s, Obj(KEvent, e));
    }
  }

  // s with one waitUntil more on the books of request r and of its context.
  function Extra(s: Sys, r: Id): Sys
    requires r < |s.reqs| && s.reqs[r].ctx < |s.ctxs|
  {
    var c := s.reqs[r].ctx;
    s.(ctxs := s.ctxs[c := s.ctxs[c].ExtendContext()], reqs := s.reqs[r := Extended(s.reqs[r])])
  }

  // A cleanup sees of the contexts only whether its own has its headers pool.
  lemma CleanIgnores(s: Sys, ctxs: seq<Ctx>, reqs: seq<Req>, c: Id, entry: Cleanup)
    requires c < |s.ctxs| == |ctxs| && ctxs[c].hdrPool == s.ctxs[c].hdrPool
    ensures Clean(s.(ctxs := ctxs, reqs := reqs), c, entry) == Clean(s, c, entry).(ctxs := ctxs, reqs := reqs)
  {
    if entry.Return? {
      match entry.obj.kind {
        case KStream => CleanStreamIgnores(s, ctxs, reqs, c, entry.obj);
        case KHeaders => CleanHeadersIgnores(s, ctxs, reqs, c, entry.obj);
        case KEvent => GiveIgnores(s.SetEvt(entry.obj.id, s.Evt(entry.obj.id).Reset()), ctxs, reqs, entry.obj);
        case KFetcher => GiveIgnores(s.SetFetcher(entry.obj.id, NewFetcher), ctxs, reqs, entry.obj);
        case _ =>
      }
    }
  }

  lemma GiveIgnores(s: Sys, ctxs: seq<Ctx>, reqs: seq<Req>, o: Obj)
    ensures s.(ctxs := ctxs, reqs := reqs).Give(o) == s.Give(o).(ctxs := ctxs, reqs := reqs)
  {}

  lemma CleanStreamIgnores(s: Sys, ctxs: seq<Ctx>, reqs: seq<Req>, c: Id, o: Obj)
    requires o.kind.KStream?
    ensures Clean(s.(ctxs := ctxs, reqs := reqs), c, Return(o)) == Clean(s, c, Return(o)).(ctxs := ctxs, reqs := reqs)
  {
    GiveIgnores(s.SetStream(o.id, NewStream), ctxs, reqs, o);
  }

  lemma CleanHeadersIgnores(s: Sys, ctxs: seq<Ctx>, reqs: seq<Req>, c: Id, o: Obj)
    requires o.kind.KHeaders? && c < |s.ctxs| == |ctxs| && ctxs[c].hdrPool == s.ctxs[c].hdrPool
    ensures Clean(s.(ctxs := ctxs, reqs := reqs), c, Return(o)) == Clean(s, c, Return(o)).(ctxs := ctxs, reqs := reqs)
  {
    GiveIgnores(s.SetHeaders(o.id, NewHeaders), ctxs, reqs, o);
  }

  // So release goes on over the extra count as it would without it.
  lemma ReleaseIgnores(s: Sys, r: Id)
    requires r < |s.reqs| && s.reqs[r].ctx < |s.ctxs| && (s.reqs[r].releaser.Cleaning? || s.reqs[r].releaser.Putting?)
    ensures var u := DoReleaseStep(s, r);
      r < |u.reqs| && u.reqs[r].ctx == s.reqs[r].ctx < |u.ctxs| && DoReleaseStep(Extra(s, r), r) == Extra(u, r)
  {
    var q, x := s.reqs[r], s.ctxs[s.reqs[r].ctx];
    if q.releaser.Putting? {
      PutIgnores(s, r);
    } else if x.cleanups != [] {
      PopIgnores(s, r);
    } else {
      assert x.ExtendContext().Retire() == x.Retire().ExtendContext();
      RetireIgnores(s, r);
    }
  }

  lemma PutIgnores(s: Sys, r: Id)
    requires r < |s.reqs| && s.reqs[r].ctx < |s.ctxs| && s.reqs[r].releaser.Putting?
    ensures var u := DoReleaseStep(s, r);
      r < |u.reqs| && u.reqs[r].ctx == s.reqs[r].ctx < |u.ctxs| && DoReleaseStep(Extra(s, r), r) == Extra(u, r)
  {
    var q, t := s.reqs[r], s.SetReq(r, s.reqs[r].(releaser := Closed));
    GiveIgnores(t, Extra(t, r).ctxs, Extra(t, r).reqs, Obj(KContext, q.ctx));
    assert Extra(s, r).SetReq(r, Extended(q).(releaser := Closed)) == Extra(t, r);
  }

  lemma RetireIgnores(s: Sys, r: Id)
    requires r < |s.reqs| && s.reqs[r].ctx < |s.ctxs| && s.reqs[r].releaser.Cleaning?
    requires s.ctxs[s.reqs[r].ctx].cleanups == []
    ensures DoReleaseStep(Extra(s, r), r) == Extra(DoReleaseStep(s, r), r)
  {
    var q, x := s.reqs[r], s.ctxs[s.reqs[r].ctx];
    assert DoReleaseStep(s, r) == s.(ctxs := s.ctxs[q.ctx := x.Retire()], reqs := s.reqs[r := q.(releaser := Putting)]);
    assert DoReleaseStep(Extra(s, r), r)
        == s.(ctxs := s.ctxs[q.ctx := x.ExtendContext().Retire()],
            reqs := s.reqs[r := Extended(q).(releaser := Putting)]);
  }

  lemma PoppedExtra(s: Sys, r: Id)
    requires r < |s.reqs| && s.reqs[r].ctx < |s.ctxs| && s.ctxs[s.reqs[r].ctx].cleanups != []
    ensures var c, x := s.reqs[r].ctx, s.ctxs[s.reqs[r].ctx]; var t := s.SetCtx(c, x.PopCleanup());
      Extra(s, r).SetCtx(c, x.ExtendContext().PopCleanup()) == t.(ctxs := Extra(t, r).ctxs, reqs := Extra(t, r).reqs)
  {
    var x := s.ctxs[s.reqs[r].ctx];
    assert x.ExtendContext().PopCleanup() == x.PopCleanup().ExtendContext();
  }

  lemma PopIgnores(s: Sys, r: Id)
    requires r < |s.reqs| && s.reqs[r].ctx < |s.ctxs| && s.reqs[r].releaser.Cleaning?
    requires s.ctxs[s.reqs[r].ctx].cleanups != []
    ensures var u := DoReleaseStep(s, r);
      r < |u.reqs| && u.reqs[r].ctx == s.reqs[r].ctx < |u.ctxs| && DoReleaseStep(Extra(s, r), r) == Extra(u, r)
  {
    var c, x := s.reqs[r].ctx, s.ctxs[s.reqs[r].ctx];
    var top := x.cleanups[|x.cleanups| - 1];
    var t := s.SetCtx(c, x.PopCleanup());
    PoppedExtra(s, r);
    CleanReqs(t, c, top);
    CleanIgnores(t, Extra(t, r).ctxs, Extra(t, r).reqs, c, top);
  }

  function Releases(r: Id, n: nat): seq<Action> { if n == 0 then [] else [ReleaseStep(r)] + Releases(r, n - 1) }

  // Steps of release left once it cleans up.
  function StepsLeft(s: Sys, r: Id): nat
    requires r < |s.reqs|
  {
    |Stack(s, r)| + (if s.reqs[r].releaser.Cleaning? then 2 else 1)
  }

  // The steps of release alone lead from s to a state in which r's context has been
  // put with a count of one, which the next request to take it inherits.
  ghost predicate LeadsToLeak(s: Sys, r: Id, n: nat) {
    && r < |s.reqs| && Runs(s, Releases(r, n))
    && var t := After(s, Releases(r, n)); var c := s.reqs[r].ctx;
    && r < |t.reqs| && t.reqs[r].releaser.Closed? && t.reqs[r].ctx == c && IsSpare(t, Obj(KContext, c))
    && t.Ctx(c).extenders == 1 && t.Ctx(c).Begin(|t.reqs|).extenders == 1
  }

  lemma ClosedLeaks(u: Sys, r: Id)
    requires Inv(u) && r < |u.reqs| && u.reqs[r].releaser.Closed? && IsSpare(u, Obj(KContext, u.reqs[r].ctx))
    requires u.reqs[r].ctx < |u.ctxs|
    ensures LeadsToLeak(Extra(u, r), r, 0)
  {
    assert IsReset(u, Obj(KContext, u.reqs[r].ctx));
  }

  lemma LeakLater(s: Sys, r: Id, n: nat)
    requires !s.crashed && r < |s.reqs| && (s.reqs[r].releaser.Cleaning? || s.reqs[r].releaser.Putting?)
    requires r < |DoReleaseStep(s, r).reqs| && DoReleaseStep(s, r).reqs[r].ctx == s.reqs[r].ctx
    requires LeadsToLeak(DoReleaseStep(s, r), r, n)
    ensures LeadsToLeak(s, r, n + 1)
  {
    var actions := Releases(r, n + 1);
    assert actions[0] == ReleaseStep(r) && actions[1..] == Releases(r, n);
    assert Enabled(s, actions[0]) && Apply(s, actions[0]) == DoReleaseStep(s, r);
  }

  // One step of release, once it cleans up.
  lemma OneLess(s: Sys, r: Id)
    requires Inv(s) && r < |s.reqs| && (s.reqs[r].releaser.Cleaning? || s.reqs[r].releaser.Putting?)
    ensures var u := DoReleaseStep(s, r);
      && Inv(u) && r < |u.reqs| && u.reqs[r].ctx == s.reqs[r].ctx < |u.ctxs|
      && (if s.reqs[r].releaser.Putting? then u.reqs[r].releaser.Closed? && IsSpare(u, Obj(KContext, s.reqs[r].ctx))
          else (u.reqs[r].releaser.Cleaning? || u.reqs[r].releaser.Putting?) && StepsLeft(u, r) == StepsLeft(s, r) - 1)
  {
    assert s.reqs[r].ctx < |s.ctxs| by { assert ReqInv(s, r); }
    if s.reqs[r].releaser.Putting? {
      KeepsPut(s, r);
    } else if Stack(s, r) == [] {
      KeepsRetire(s, r);
    } else {
      KeepsCleanup(s, r);
      TopFacts(s, r);
      CleanShrinks(s, r, Stack(s, r)[|Stack(s, r)| - 1]);
    }
  }

  lemma {:induction false} ExtraLeaks(s: Sys, r: Id)
    requires Inv(s) && r < |s.reqs| && s.reqs[r].ctx < |s.ctxs|
    requires s.reqs[r].releaser.Cleaning? || s.reqs[r].releaser.Putting?
    ensures LeadsToLeak(Extra(s, r), r, StepsLeft(s, r))
    decreases StepsLeft(s, r)
  {
    var u := DoReleaseStep(s, r);
    OneLess(s, r);
    ReleaseIgnores(s, r);
    if s.reqs[r].releaser.Putting? {
      assert Stack(s, r) == [] by { assert ReqInv(s, r) && OpenInv(s, r); }
      ClosedLeaks(u, r);
      LeakLater(Extra(s, r), r, 0);
    } else {
      ExtraLeaks(u, r);
      LeakLater(Extra(s, r), r, StepsLeft(u, r));
    }
  }

  // While the event is still the request's own, the call goes to its own context,
  // whose group nobody waits for any more: the context is put with the count on it.
  lemma OwnStaleCall(s: Sys, r: Id)
    requires Inv(s) && r < |s.reqs| && s.reqs[r].releaser.Cleaning? && Stack(s, r) != []
    ensures LeadsToLeak(DoWaitUntil(s, r), r, StepsLeft(s, r))
  {
    OwnEvent(s, r);
    OwnerOfEvent(s, s.reqs[r].evt);
    assert DoWaitUntil(s, r) == Extra(s, r);
    ExtraLeaks(s, r);
  }

  // Whom the call reaches.
  lemma CallReaches(s: Sys, r: Id)
    requires Inv(s) && r < |s.reqs|
    ensures var o, s' := Obj(KEvent, s.reqs[r].evt), DoWaitUntil(s, r);
      && (s'.crashed <==> !IsOwned(s, o))
      && (IsOwned(s, o) ==>
            && s.home[o].r < |s.reqs|
            && var p := s.reqs[s.home[o].r]; s'.Ctx(p.ctx).extenders == Trues(p.extenders) + 1)
  {
    var e := s.reqs[r].evt;
    if IsOwned(s, Obj(KEvent, e)) { OwnerOfEvent(s, e); } else { SpareEvent(s, e); }
  }

  // A waitUntil after release has begun to clean up, in every case.  With the event in
  // nobody's hands it dereferences nil.  Otherwise it counts on the context of whoever
  // has the event: another request, which never made the call, or, exactly until the
  // event's own return has run, the request itself; and then release puts the
  // context with the count still on it.
  lemma StaleWaitUntil(s: Sys, r: Id)
    requires Reachable(s) && r < |s.reqs|
    requires s.reqs[r].releaser.Cleaning? || s.reqs[r].releaser.Putting? || s.reqs[r].releaser.Closed?
    ensures var o, s' := Obj(KEvent, s.reqs[r].evt), DoWaitUntil(s, r);
      && (s'.crashed <==> !IsOwned(s, o))
      && (IsOwned(s, o) ==>
            && s.home[o].r < |s.reqs|
            && var p := s.reqs[s.home[o].r]; s'.Ctx(p.ctx).extenders == Trues(p.extenders) + 1)
      && (IsOwned(s, o) && s.home[o].r == r <==> Stack(s, r) != [])
    ensures Stack(s, r) != [] ==> LeadsToLeak(DoWaitUntil(s, r), r, StepsLeft(s, r))
  {
    ReachableInv(s);
    CallReaches(s, r);
    OwnEvent(s, r);
    if Stack(s, r) != [] {
      assert s.reqs[r].releaser.Cleaning? by { assert ReqInv(s, r); }
      OwnStaleCall(s, r);
    }
  }
}
