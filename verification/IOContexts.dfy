// IOContext, field by field, with its cleanup functions in a growing buffer that is
// reused from one request to the next.
module IOContexts {
  import opened Base
  import opened Objects

  // All the cleanups of a context, one after another from the top.
  function Drained(x: Ctx): Ctx
    decreases |x.cleanups|
  {
    if x.cleanups == [] then x else Drained(x.PopCleanup())
  }

  // Each runs once, in reverse order, and nothing else changes.
  lemma {:induction false} DrainedRunsAll(x: Ctx)
    ensures Drained(x) == x.(cleanups := [], ran := x.ran + Reverse(x.cleanups))
    decreases |x.cleanups|
  {
    if x.cleanups == [] {
      assert x.ran + [] == x.ran;
    } else {
      var n := |x.cleanups| - 1;
      DrainedRunsAll(x.PopCleanup());
      assert x.ran + [x.cleanups[n]] + Reverse(x.cleanups[..n]) == x.ran + Reverse(x.cleanups);
    }
  }

  lemma ReverseStep(cs: seq<Cleanup>, i: nat)
    requires i < |cs|
    ensures Reverse(cs[..i + 1]) == [cs[i]] + Reverse(cs[..i])
  {
    assert cs[..i + 1][..i] == cs[..i];
  }

  class IOContext {
    var extenders: int
    var fetches: int
    var held: int
    var shouldExtend: bool
    var extended: Signal
    var request: Option<Id>
    var hdrPool: bool
    var cleanupFuncs: array<Option<Cleanup>>
    var length: nat
    ghost var registered: seq<Cleanup>
    ghost var ran: seq<Cleanup>

    constructor ()
      ensures Valid() && View() == NewCtx && fresh(cleanupFuncs)
      ensures extenders == fetches == held == length == 0 && extended == Nil && request == None && !hdrPool
    {
      extenders, fetches, held, length := 0, 0, 0, 0;
      shouldExtend, extended, request, hdrPool := false, Nil, None, false;
      cleanupFuncs := new Option<Cleanup>[0];
      registered, ran := [], [];
    }

    // The slots in use hold functions, the others hold none: no cleanup function of
    // an earlier request is kept.
    ghost predicate Valid()
      reads this, cleanupFuncs
    {
      && length <= cleanupFuncs.Length
      && (forall i :: 0 <= i < length ==> cleanupFuncs[i].Some?)
      && (forall i :: length <= i < cleanupFuncs.Length ==> cleanupFuncs[i].None?)
    }

    ghost function Cleanups(): (cs: seq<Cleanup>)
      requires Valid()
      reads this, cleanupFuncs
      ensures |cs| == length && forall i :: 0 <= i < length ==> cleanupFuncs[i] == Some(cs[i])
    {
      seq(length, i requires 0 <= i < length && Valid() reads this, cleanupFuncs => cleanupFuncs[i].value)
    }

    ghost function View(): Ctx
      requires Valid()
      reads this, cleanupFuncs
    {
      Ctx(extenders, fetches, held, shouldExtend, extended, request, hdrPool, Cleanups(), registered, ran)
    }

    // IOContextPool.Get, once the pool has handed out the object.
    method Begin(r: Id)
      requires Valid()
      modifies this
      ensures Valid() && cleanupFuncs == old(cleanupFuncs) && View() == old(View()).Begin(r)
      ensures extended == Uncancelled && request == Some(r) && hdrPool && !shouldExtend && ran == []
      ensures unchanged(`extenders, `fetches, `held, `length, `cleanupFuncs) && registered == old(Cleanups())
    {
      extended := Uncancelled;
      request := Some(r);
      hdrPool := true;
      shouldExtend := false;
      registered, ran := Cleanups(), [];
    }

    method ExtendContext()
      requires Valid()
      modifies `shouldExtend, `extenders
      ensures Valid() && View() == old(View()).ExtendContext()
      ensures shouldExtend && extenders == old(extenders) + 1
    {
      shouldExtend := true;
      extenders := extenders + 1;
    }

    // A counter that would go below zero panics.
    method ConcludeExtend() returns (panicked: bool)
      requires Valid()
      modifies `extenders
      ensures panicked <==> old(extenders) < 1
      ensures Valid() && View() == if panicked then old(View()) else old(View()).ConcludeExtend()
      ensures extenders == if panicked then old(extenders) else old(extenders) - 1
    {
      if extenders < 1 { return true; }
      extenders := extenders - 1;
      return false;
    }

    method Context() returns (c: ContextKind)
      requires Valid()
      ensures c == View().Context() == if shouldExtend then OnExtended else OnRequest
    {
      if shouldExtend { return OnExtended; } else { return OnRequest; }
    }

    // Acquire comes back with a permit once there is room, or with an error once the
    // context it was given is done.
    method AcquireFetchToken(refused: bool) returns (err: bool)
      requires Valid() && (!refused ==> held < 10)
      modifies `held, `fetches
      ensures err == refused && Valid()
      ensures View() == if err then old(View()) else old(View()).(held := old(held) + 1, fetches := old(fetches) + 1)
      ensures held <= 10 || held == old(held)
    {
      if refused { return true; }
      held := held + 1;
      fetches := fetches + 1;
      return false;
    }

    method ReleaseFetchToken() returns (panicked: bool)
      requires Valid()
      modifies `held, `fetches
      ensures panicked <==> old(fetches) < 1 || old(held) < 1
      ensures Valid() && (!panicked ==> View() == old(View()).(held := old(held) - 1, fetches := old(fetches) - 1))
    {
      if fetches < 1 { return true; }
      fetches := fetches - 1;
      if held < 1 { return true; }
      held := held - 1;
      return false;
    }

    // append: in place while the buffer has room, else into one twice as large.
    method RegisterCleanup(c: Option<Cleanup>)
      requires Valid()
      modifies this, cleanupFuncs
      ensures Valid() && (cleanupFuncs == old(cleanupFuncs) || fresh(cleanupFuncs))
      ensures View() == if c.None? then old(View()) else old(View()).RegisterCleanup(c.value)
      ensures c.Some? ==> Cleanups() == old(Cleanups()) + [c.value] && registered == old(registered) + [c.value]
    {
      if c.None? { return; }
      ghost var was := Cleanups();
      if length == cleanupFuncs.Length { Grow(); }
      assert Cleanups() == was;
      cleanupFuncs[length] := c;
      length := length + 1;
      registered := registered + [c.value];
      assert Cleanups() == was + [c.value];
    }

    method Grow()
      requires Valid()
      modifies `cleanupFuncs
      ensures Valid() && fresh(cleanupFuncs) && cleanupFuncs.Length > length
      ensures View() == old(View())
    {
      var larger := new Option<Cleanup>[2 * length + 1](i => None);
      forall i | 0 <= i < length { larger[i] := cleanupFuncs[i]; }
      ghost var was := Cleanups();
      cleanupFuncs := larger;
      assert Cleanups() == was;
    }

    // wait: what it waits for, as far as the fields say, has come.
    method WaitOver()
      requires Valid() && extended != Nil && (if shouldExtend then extenders == 0 else request.Some?)
      modifies `extended
      ensures Valid() && View() == old(View()).(extended := Cancelled)
    {
      extended := Cancelled;
    }

    // The loop of release: the functions run from the last to the first and each slot
    // is cleared behind them.
    method RunAll()
      requires Valid()
      modifies `ran, cleanupFuncs
      ensures ran == old(ran) + Reverse(old(Cleanups()))
      ensures forall i :: 0 <= i < cleanupFuncs.Length ==> cleanupFuncs[i].None?
    {
      ghost var cs := Cleanups();
      var i := length;
      assert cs[..i] == cs;
      while i > 0
        invariant 0 <= i <= length == |cs| <= cleanupFuncs.Length
        invariant forall k :: 0 <= k < i ==> cleanupFuncs[k] == Some(cs[k])
        invariant forall k :: i <= k < cleanupFuncs.Length ==> cleanupFuncs[k].None?
        invariant ran + Reverse(cs[..i]) == old(ran) + Reverse(cs)
      {
        i := i - 1;
        ReverseStep(cs, i);
        Call(i);
        cleanupFuncs[i] := None;
      }
    }

    // release, once the extended context is done and the fetches are.
    method Release()
      requires Valid() && extended == Cancelled && fetches == 0
      modifies `length, `ran, cleanupFuncs
      ensures Valid() && length == 0
      ensures View() == Drained(old(View()))
      ensures ran == old(ran) + Reverse(old(Cleanups()))
      ensures forall i :: 0 <= i < cleanupFuncs.Length ==> cleanupFuncs[i].None?
    {
      DrainedRunsAll(View());
      RunAll();
      length := 0;
      assert Cleanups() == [];
    }

    // Running one function: what it does to other objects is not told here.
    method Call(i: nat)
      requires i < cleanupFuncs.Length && cleanupFuncs[i].Some?
      modifies `ran
      ensures ran == old(ran) + [cleanupFuncs[i].value]
    {
      ran := ran + [cleanupFuncs[i].value];
    }

    // The assignments of IOContextPool.Put after release.
    method Retire()
      requires Valid()
      modifies `hdrPool, `request, `extended
      ensures Valid() && View() == old(View()).Retire()
      ensures !hdrPool && request == None && extended == Nil
    {
      hdrPool := false;
      request := None;
      extended := Nil;
    }

    // One whole incarnation ends with the context idle and its buffer empty, ready
    // for the next request.
    method End()
      requires Valid() && extended == Uncancelled && fetches == 0 && extenders == 0 && request.Some?
      modifies this, cleanupFuncs
      ensures Valid() && View().Idle()
      ensures extenders == fetches == length == 0 && extended == Nil && request == None && !hdrPool
      ensures ran == old(ran) + Reverse(old(Cleanups()))
      ensures forall i :: 0 <= i < cleanupFuncs.Length ==> cleanupFuncs[i].None?
    {
      WaitOver();
      ghost var x := View();
      DrainedRunsAll(x);
      Release();
      Retire();
    }
  }
}
