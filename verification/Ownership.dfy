// How taking, registering and returning objects keep ownership exclusive.
module Ownership {
  import opened Base
  import opened Objects
  import opened Programs
  import opened Middleware
  import opened Invariants

  // Nothing about ownership changes except the stack of request r.
  ghost predicate StackOnly(s: Sys, s': Sys, r: Id) {
    && r < |s.reqs| == |s'.reqs|
    && (forall i :: 0 <= i < |s.reqs| && i != r ==> Stack(s', i) == Stack(s, i))
    && (forall i :: 0 <= i < |s.reqs| ==> s'.reqs[i].Open() == s.reqs[i].Open() && s'.reqs[i].ctx == s.reqs[i].ctx)
  }

  ghost predicate SameStore(s: Sys, s': Sys) {
    s'.home == s.home && s'.pools == s.pools && (forall k :: s'.Made(k) == s.Made(k))
  }

  // One queue: left alone, losing its head, gaining a tail.

  lemma QueueKept(s: Sys, s': Sys, k: Kind)
    requires QueueInv(s, k) && s'.Queue(k) == s.Queue(k)
    requires forall id :: IsFree(s', Obj(k, id)) <==> IsFree(s, Obj(k, id))
    ensures QueueInv(s', k)
  {}

  lemma QueuePop(s: Sys, s': Sys, k: Kind)
    requires QueueInv(s, k) && s.Queue(k) != [] && s'.Queue(k) == s.Queue(k)[1..]
    requires forall id :: IsFree(s', Obj(k, id)) <==> IsFree(s, Obj(k, id)) && id != s.Queue(k)[0]
    ensures QueueInv(s', k)
  {
    forall id | IsFree(s', Obj(k, id)) ensures id in s'.Queue(k) {
      var i :| 0 <= i < |s.Queue(k)| && s.Queue(k)[i] == id;
      assert s'.Queue(k)[i - 1] == id;
    }
  }

  lemma QueuePush(s: Sys, s': Sys, a: Obj)
    requires QueueInv(s, a.kind) && !IsFree(s, a)
    requires |s.Queue(a.kind)| < POOL_CAPACITY && s'.Queue(a.kind) == s.Queue(a.kind) + [a.id]
    requires forall id :: IsFree(s', Obj(a.kind, id)) <==> IsFree(s, Obj(a.kind, id)) || id == a.id
    ensures QueueInv(s', a.kind)
  {
    assert s'.Queue(a.kind)[|s.Queue(a.kind)|] == a.id;
  }

  lemma PoolsKept(s: Sys, s': Sys)
    requires PoolsInv(s) && SameStore(s, s')
    ensures PoolsInv(s')
  {
    forall k ensures QueueInv(s', k) { QueueKept(s, s', k); }
  }

  lemma OwnKept(s: Sys, s': Sys, r: Id)
    requires OwnInv(s) && StackOnly(s, s', r) && SameStore(s, s')
    requires Stack(s', r) == Stack(s, r)
    ensures OwnInv(s')
  {
    PoolsKept(s, s');
    assert forall i :: 0 <= i < |s.reqs| ==> Stack(s', i) == Stack(s, i);
    forall o | o in s'.home && s'.home[o].Owned? ensures IsHeldBy(s', o, s'.home[o].r) {
      assert IsHeldBy(s, o, s.home[o].r);
    }
  }

  lemma OwnPush(s: Sys, s': Sys, r: Id, c: Cleanup)
    requires OwnInv(s) && StackOnly(s, s', r) && SameStore(s, s')
    requires !c.Return? && Stack(s', r) == Stack(s, r) + [c]
    ensures OwnInv(s')
  {
    PoolsKept(s, s');
    forall o | o in s'.home && s'.home[o].Owned? ensures IsHeldBy(s', o, s'.home[o].r) {
      assert IsHeldBy(s, o, s.home[o].r);
    }
  }

  // s' differs from s by Take(k, r) in its pools and its history.
  ghost predicate TakesFrom(s: Sys, s': Sys, k: Kind, r: Id) {
    var t := s.Take(k, r);
    s'.home == t.home && s'.pools == t.pools && (forall k' :: s'.Made(k') == t.Made(k'))
  }

  // The object a Take hands out was nobody's.
  lemma TakenIsFresh(s: Sys, k: Kind, r: Id)
    requires OwnInv(s)
    ensures Obj(k, s.Pick(k)) in s.home ==> s.home[Obj(k, s.Pick(k))] == Free
    ensures Obj(k, s.Pick(k)) in s.home <==> s.Queue(k) != []
    ensures s.Take(k, r).home == s.home[Obj(k, s.Pick(k)) := Owned(r)]
    ensures forall i: Id :: Return(Obj(k, s.Pick(k))) !in Stack(s, i)
  {
    assert QueueInv(s, k);
    assert s.Queue(k) != [] ==> IsFree(s, Obj(k, s.Queue(k)[0]));
    forall i: Id, j | 0 <= j < |Stack(s, i)| ensures Stack(s, i)[j] != Return(Obj(k, s.Pick(k))) {
      assert i < |s.reqs|;
    }
  }

  lemma TakePools(s: Sys, s': Sys, k: Kind, r: Id)
    requires OwnInv(s) && TakesFrom(s, s', k, r)
    ensures PoolsInv(s')
  {
    TakenIsFresh(s, k, r);
    TakeMade(s, s', k, r);
    forall k' ensures QueueInv(s', k') {
      assert QueueInv(s, k');
      if k' == k && s.Queue(k) != [] { QueuePop(s, s', k); } else { QueueKept(s, s', k'); }
    }
  }

  lemma TakeMade(s: Sys, s': Sys, k: Kind, r: Id)
    requires AllMade(s) && TakesFrom(s, s', k, r)
    requires Obj(k, s.Pick(k)) in s.home <==> s.Queue(k) != []
    ensures AllMade(s')
  {
    assert s'.home.Keys == s.home.Keys + {Obj(k, s.Pick(k))};
  }

  ghost predicate Pushes(s: Sys, s': Sys, r: Id, k: Kind) {
    && StackOnly(s, s', r) && s.reqs[r].Open() && TakesFrom(s, s', k, r) && !k.KContext?
    && Stack(s', r) == Stack(s, r) + [Return(Obj(k, s.Pick(k)))]
  }

  lemma TakeOwned(s: Sys, s': Sys, r: Id, k: Kind)
    requires OwnInv(s) && Pushes(s, s', r, k)
    ensures StackOwned(s') && StackDistinct(s')
  {
    var a := Obj(k, s.Pick(k));
    TakenIsFresh(s, k, r);
    forall i, j | 0 <= i < |s'.reqs| && 0 <= j < |Stack(s', i)| && Stack(s', i)[j].Return?
      ensures Stack(s', i)[j].obj in s'.home && s'.home[Stack(s', i)[j].obj] == Owned(i)
    {
      if i != r || j < |Stack(s, r)| { assert Stack(s', i)[j] == Stack(s, i)[j] && Stack(s, i)[j] != Return(a); }
    }
  }

  lemma TakeHeld(s: Sys, s': Sys, r: Id, k: Kind)
    requires OwnInv(s) && Pushes(s, s', r, k)
    ensures ContextOwned(s') && OwnedHeld(s')
  {
    var a := Obj(k, s.Pick(k));
    TakenIsFresh(s, k, r);
    assert Stack(s', r)[|Stack(s, r)|] == Return(a);
    forall o | o in s'.home && s'.home[o].Owned? ensures IsHeldBy(s', o, s'.home[o].r) {
      if o != a { assert o in s.home && IsHeldBy(s, o, s.home[o].r); }
    }
  }

  lemma OwnTake(s: Sys, s': Sys, r: Id, k: Kind)
    requires OwnInv(s) && Pushes(s, s', r, k)
    ensures OwnInv(s')
  {
    TakePools(s, s', k, r);
    TakeOwned(s, s', r, k);
    TakeHeld(s, s', r, k);
  }

  // s' differs from s by Give(a) in its pools and its history.
  ghost predicate GivesTo(s: Sys, s': Sys, a: Obj) {
    var t := s.Give(a);
    s'.home == t.home && s'.pools == t.pools && (forall k :: s'.Made(k) == s.Made(k))
  }

  lemma GivePools(s: Sys, s': Sys, a: Obj)
    requires OwnInv(s) && GivesTo(s, s', a) && a in s.home && s.home[a].Owned?
    ensures PoolsInv(s')
  {
    forall k ensures QueueInv(s', k) {
      assert QueueInv(s, k);
      if k == a.kind && |s.Queue(k)| < POOL_CAPACITY { QueuePush(s, s', a); } else { QueueKept(s, s', k); }
    }
  }

  ghost predicate Pops(s: Sys, s': Sys, r: Id, c: Cleanup) {
    StackOnly(s, s', r) && Stack(s, r) == Stack(s', r) + [c]
  }

  lemma PopOwned(s: Sys, s': Sys, r: Id, c: Cleanup)
    requires OwnInv(s) && Pops(s, s', r, c)
    requires if c.Return? then GivesTo(s, s', c.obj) else SameStore(s, s')
    ensures StackOwned(s') && StackDistinct(s')
  {
    forall i, j | 0 <= i < |s'.reqs| && 0 <= j < |Stack(s', i)|
      ensures Stack(s', i)[j] == Stack(s, i)[j]
      ensures Stack(s', i)[j].Return? ==> Stack(s', i)[j].obj in s'.home && s'.home[Stack(s', i)[j].obj] == Owned(i)
    {
      assert Stack(s, r)[|Stack(s', r)|] == c;
      assert Stack(s', i)[j] == Stack(s, i)[j];
      if c.Return? && Stack(s, i)[j].Return? {
        assert s.home[Stack(s, i)[j].obj] == Owned(i) && s.home[c.obj] == Owned(r);
        assert Stack(s, i)[j] != c;
      }
    }
  }

  lemma PopHeld(s: Sys, s': Sys, r: Id, c: Cleanup)
    requires OwnInv(s) && Pops(s, s', r, c)
    requires if c.Return? then GivesTo(s, s', c.obj) && !c.obj.kind.KContext? else SameStore(s, s')
    ensures ContextOwned(s') && OwnedHeld(s')
  {
    assert Stack(s, r)[|Stack(s', r)|] == c;
    forall o | o in s'.home && s'.home[o].Owned? ensures IsHeldBy(s', o, s'.home[o].r) {
      assert s.home[o] == s'.home[o] && IsHeldBy(s, o, s.home[o].r);
    }
  }

  lemma OwnPop(s: Sys, s': Sys, r: Id, c: Cleanup)
    requires OwnInv(s) && Pops(s, s', r, c)
    requires if c.Return? then GivesTo(s, s', c.obj) && !c.obj.kind.KContext? else SameStore(s, s')
    ensures OwnInv(s')
  {
    assert Stack(s, r)[|Stack(s', r)|] == c;
    if c.Return? {
      GivePools(s, s', c.obj);
    } else {
      PoolsKept(s, s');
    }
    PopOwned(s, s', r, c);
    PopHeld(s, s', r, c);
  }

  // A request begins: its context leaves the pool for it, with an empty stack.
  lemma OwnArrive(s: Sys, s': Sys)
    requires OwnInv(s) && TakesFrom(s, s', KContext, |s.reqs|)
    requires |s'.reqs| == |s.reqs| + 1 && s'.reqs[..|s.reqs|] == s.reqs
    requires s'.reqs[|s.reqs|].Open() && s'.reqs[|s.reqs|].ctx == s.Pick(KContext)
    requires forall i :: 0 <= i < |s.reqs| ==> Stack(s', i) == Stack(s, i)
    requires Stack(s', |s.reqs|) == []
    ensures OwnInv(s')
  {
    var r := |s.reqs|;
    TakenIsFresh(s, KContext, r);
    TakePools(s, s', KContext, r);
    assert forall i :: 0 <= i < r ==> s'.reqs[i] == s.reqs[i];
    assert StackOwned(s') && StackDistinct(s') by {
      forall i, j | 0 <= i < |s'.reqs| && 0 <= j < |Stack(s', i)| ensures i < r && Stack(s', i)[j] == Stack(s, i)[j] {}
    }
    forall o | o in s'.home && s'.home[o].Owned? ensures IsHeldBy(s', o, s'.home[o].r) {
      if o != Obj(KContext, s.Pick(KContext)) { assert o in s.home && IsHeldBy(s, o, s.home[o].r); }
    }
  }

  // A request ends: its stack is empty and its context goes back.
  lemma OwnClose(s: Sys, s': Sys, r: Id)
    requires OwnInv(s) && r < |s.reqs| && s.reqs[r].Open() && Stack(s, r) == []
    requires GivesTo(s, s', Obj(KContext, s.reqs[r].ctx))
    requires |s'.reqs| == |s.reqs| && !s'.reqs[r].Open()
    requires forall i :: 0 <= i < |s.reqs| && i != r ==> s'.reqs[i] == s.reqs[i] && Stack(s', i) == Stack(s, i)
    ensures OwnInv(s')
  {
    var a := Obj(KContext, s.reqs[r].ctx);
    GivePools(s, s', a);
    forall o | o in s'.home && s'.home[o].Owned? ensures IsHeldBy(s', o, s'.home[o].r) {
      assert s.home[o] == s'.home[o] && IsHeldBy(s, o, s.home[o].r);
    }
    forall i | 0 <= i < |s'.reqs| && s'.reqs[i].Open()
      ensures Obj(KContext, s'.reqs[i].ctx) in s'.home && s'.home[Obj(KContext, s'.reqs[i].ctx)] == Owned(i)
    {
      assert s.home[Obj(KContext, s.reqs[i].ctx)] == Owned(i);
    }
  }
}
