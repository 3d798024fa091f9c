// One request's step leaves the others alone: nothing that another request
// refers to is an object this request owns.
module Frames {
  import opened Base
  import opened Objects
  import opened Programs
  import opened Middleware
  import opened Invariants

  // Permits apart, which a late Release may return to a context in other hands.
  predicate SameCtx(x: Ctx, x': Ctx) { x'.(held := x.held) == x }

  predicate SameObj(s: Sys, s': Sys, o: Obj) {
    match o.kind
    case KContext => SameCtx(s.Ctx(o.id), s'.Ctx(o.id))
    case KEvent => s'.Evt(o.id) == s.Evt(o.id)
    case KFetcher => s'.Fetcher(o.id) == s.Fetcher(o.id)
    case KResponse => s'.Response(o.id) == s.Response(o.id)
    case KStream => s'.Stream(o.id) == s.Stream(o.id)
    case KHeaders => o.id < |s.headers| ==> o.id < |s'.headers| && s'.headers[o.id] == s.headers[o.id]
  }

  predicate IsOthers(s: Sys, r: Id, o: Obj) {
    o in s.home && s.home[o].Owned? && s.home[o].r != r
  }

  ghost predicate Untouched(s: Sys, s': Sys, r: Id) {
    && |s.reqs| <= |s'.reqs| && |s.ctxs| <= |s'.ctxs| && |s.evts| <= |s'.evts|
    && (forall i :: 0 <= i < |s.reqs| && i != r ==> s'.reqs[i] == s.reqs[i])
    && (|s'.reqs| == |s.reqs| || (|s'.reqs| == |s.reqs| + 1 && r == |s.reqs|))
    && (forall o :: IsOthers(s, r, o) ==> o in s'.home && s'.home[o] == s.home[o] && SameObj(s, s', o))
    && (forall o :: IsSpare(s, o) && IsSpare(s', o) ==> SameObj(s, s', o))
  }

  lemma OtherStack(s: Sys, s': Sys, r: Id, i: Id)
    requires Inv(s) && Untouched(s, s', r) && i < |s.reqs| && i != r
    ensures Stack(s', i) == Stack(s, i)
    ensures s.reqs[i].Open() ==> SameCtx(s.Ctx(s.reqs[i].ctx), s'.Ctx(s.reqs[i].ctx))
  {
    if s.reqs[i].Open() {
      assert IsOthers(s, r, Obj(KContext, s.reqs[i].ctx));
      assert SameObj(s, s', Obj(KContext, s.reqs[i].ctx));
    }
  }

  lemma OtherEntry(s: Sys, s': Sys, r: Id, i: Id, j: nat)
    requires Inv(s) && Untouched(s, s', r) && i < |s.reqs| && i != r
    requires j < |Stack(s, i)| && Stack(s, i)[j].Return?
    ensures SameObj(s, s', Stack(s, i)[j].obj)
  {
    assert IsOthers(s, r, Stack(s, i)[j].obj);
  }

  lemma OtherHolding(s: Sys, s': Sys, r: Id, i: Id)
    requires Inv(s) && Untouched(s, s', r) && i < |s.reqs| && i != r && s.reqs[i].Open()
    requires HoldingInv(s, s.reqs[i], Stack(s, i))
    requires Stack(s, i) != [] ==> s'.Evt(s.reqs[i].evt) == s.Evt(s.reqs[i].evt)
    ensures HoldingInv(s', s.reqs[i], Stack(s, i))
  {
    var q, st := s.reqs[i], Stack(s, i);
    forall k | 0 <= k < |q.fetches| && q.fetches[k].callback == Settled(true)
      ensures s'.Response(q.fetches[k].response) == s.Response(q.fetches[k].response)
    {
      var o := Obj(KResponse, q.fetches[k].response);
      assert Return(o) in st;
      var j :| 0 <= j < |st| && st[j] == Return(o);
      OtherEntry(s, s', r, i, j);
    }
  }

  lemma OtherReq(s: Sys, s': Sys, r: Id, i: Id)
    requires Inv(s) && Untouched(s, s', r) && i < |s.reqs| && i != r
    ensures ReqInv(s', i)
  {
    assert ReqInv(s, i);
    var q := s.reqs[i];
    if q.Open() {
      OtherStack(s, s', r, i);
      var st := Stack(s, i);
      assert ContextInv(i, q, s'.Ctx(q.ctx));
      if st != [] {
        OtherEntry(s, s', r, i, 0);
      }
      forall j | 0 <= j < |st| ensures EntryInv(s', q.ctx, st, j) {
        assert EntryInv(s, q.ctx, st, j);
        if st[j].Return? { OtherEntry(s, s', r, i, j); }
      }
      if !q.releaser.Cleaning? && !q.releaser.Putting? {
        OtherHolding(s, s', r, i);
      }
    }
  }

  lemma Assemble(s: Sys, s': Sys, r: Id)
    requires Inv(s) && Untouched(s, s', r)
    requires !s'.crashed && OwnInv(s') && HeldInv(s')
    requires r < |s'.reqs| && ReqInv(s', r)
    requires forall o :: IsSpare(s', o) && !IsSpare(s, o) ==> IsReset(s', o)
    ensures Inv(s')
  {
    forall i | 0 <= i < |s'.reqs| ensures ReqInv(s', i) {
      if i != r { OtherReq(s, s', r, i); }
    }
    forall o | IsSpare(s', o) ensures IsReset(s', o) {
      if IsSpare(s, o) {
        assert IsReset(s, o) && SameObj(s, s', o);
        assert o.id < s.Made(o.kind);
      }
    }
  }
}
