// Any number of LoadScript and Stop calls at once over the atomic shard pointers of
// one runtime, and each of them alone.
module Shards {
  import opened Base
  import RoundRobin

  type Id = nat

  datatype Thread =
    | Loader(shard: nat, pc: LoadPc)
    | Stopper(shard: nat, stage: StopPc)

  // Between shards; in getInstance; waiting for loadProgram; about to swap; about to
  // stop what was swapped out; returned.
  datatype LoadPc =
    | LoadNext
    | Preparing(inst: Id)
    | Loading(inst: Id)
    | Loaded(inst: Id)
    | LoadStopping(out: Id)
    | LoadDone(ok: bool)

  datatype StopPc = StopNext | StopStopping(out: Id) | StopDone

  // An instance's event loop runs from the start; `stops` counts the calls of stop.
  // `place` is history.
  datatype Place = Held(t: Id) | InShard(i: nat) | Stopped | Aborted | LeftOver
  datatype Instance = Instance(stops: nat, running: bool, place: Place)

  datatype Sys = Sys(shards: seq<Option<Id>>, threads: seq<Thread>, instances: seq<Instance>) {
    function SetThread(t: Id, v: Thread): Sys { if t < |threads| then this.(threads := threads[t := v]) else this }
    function SetInstance(k: Id, v: Instance): Sys {
      if k < |instances| then this.(instances := instances[k := v]) else this
    }
    function SetShard(i: nat, v: Option<Id>): Sys { if i < |shards| then this.(shards := shards[i := v]) else this }
    function MoveTo(k: Id, p: Place): Sys {
      if k < |instances| then SetInstance(k, instances[k].(place := p)) else this
    }

    // instance.stop
    function StopInstance(k: Id): Sys {
      if k < |instances| then SetInstance(k, Instance(instances[k].stops + 1, false, Stopped)) else this
    }
  }

  function Init(n: nat): Sys { Sys(seq(n, _ => None), [], []) }

  datatype Action =
    | CallLoad
    | CallStop
    | Begin(t: Id)                // getInstance starts an event loop
    | Prepared(t: Id, ok: bool)   // getInstance returns
    | Program(t: Id, ok: bool)    // loadProgram returns
    | SwapIn(t: Id)
    | StopOld(t: Id)
    | SwapOut(t: Id)

  predicate Enabled(s: Sys, a: Action) {
    (!a.CallLoad? && !a.CallStop? ==> a.t < |s.threads|) &&
    match a
    case CallLoad => true
    case CallStop => true
    case Begin(t) => s.threads[t].Loader? && s.threads[t].pc.LoadNext? && s.threads[t].shard < |s.shards|
    case Prepared(t, _) => s.threads[t].Loader? && s.threads[t].pc.Preparing?
    case Program(t, _) => s.threads[t].Loader? && s.threads[t].pc.Loading?
    case SwapIn(t) => s.threads[t].Loader? && s.threads[t].pc.Loaded? && s.threads[t].shard < |s.shards|
    case StopOld(t) => if s.threads[t].Loader? then s.threads[t].pc.LoadStopping? else s.threads[t].stage.StopStopping?
    case SwapOut(t) => s.threads[t].Stopper? && s.threads[t].stage.StopNext? && s.threads[t].shard < |s.shards|
  }

  // After shard i.
  function LoaderAt(s: Sys, i: nat): Thread { Loader(i, if i < |s.shards| then LoadNext else LoadDone(true)) }

  function StopperAt(s: Sys, i: nat): Thread { Stopper(i, if i < |s.shards| then StopNext else StopDone) }

  function Apply(s: Sys, a: Action): Sys
    requires Enabled(s, a)
  {
    match a
    case CallLoad => s.(threads := s.threads + [LoaderAt(s, 0)])
    case CallStop => s.(threads := s.threads + [StopperAt(s, 0)])
    case Begin(t) =>
      s.(instances := s.instances + [Instance(0, true, Held(t))])
       .SetThread(t, Loader(s.threads[t].shard, Preparing(|s.instances|)))
    case Prepared(t, ok) =>
      var k := s.threads[t].pc.inst;
      if ok then s.SetThread(t, Loader(s.threads[t].shard, Loading(k)))
      else if k < |s.instances| then
        s.SetInstance(k, s.instances[k].(running := false, place := Aborted))
         .SetThread(t, Loader(s.threads[t].shard, LoadDone(false)))
      else s
    case Program(t, ok) =>
      var k := s.threads[t].pc.inst;
      if ok then s.SetThread(t, Loader(s.threads[t].shard, Loaded(k)))
      else s.MoveTo(k, LeftOver).SetThread(t, Loader(s.threads[t].shard, LoadDone(false)))
    case SwapIn(t) =>
      var i := s.threads[t].shard;
      var u := s.SetShard(i, Some(s.threads[t].pc.inst)).MoveTo(s.threads[t].pc.inst, InShard(i));
      (match s.shards[i]
       case None => u.SetThread(t, LoaderAt(s, i + 1))
       case Some(out) => u.MoveTo(out, Held(t)).SetThread(t, Loader(i, LoadStopping(out))))
    case StopOld(t) =>
      var i := s.threads[t].shard;
      if s.threads[t].Loader? then s.StopInstance(s.threads[t].pc.out).SetThread(t, LoaderAt(s, i + 1))
      else s.StopInstance(s.threads[t].stage.out).SetThread(t, StopperAt(s, i + 1))
    case SwapOut(t) =>
      var i := s.threads[t].shard;
      (match s.shards[i]
       case None => s.SetThread(t, StopperAt(s, i + 1))
       case Some(out) => s.SetShard(i, None).MoveTo(out, Held(t)).SetThread(t, Stopper(i, StopStopping(out))))
  }

  // The instance in a thread's hands.
  function InHand(v: Thread): Option<Id> {
    match v
    case Loader(_, Preparing(k)) => Some(k)
    case Loader(_, Loading(k)) => Some(k)
    case Loader(_, Loaded(k)) => Some(k)
    case Loader(_, LoadStopping(k)) => Some(k)
    case Stopper(_, StopStopping(k)) => Some(k)
    case _ => None
  }

  predicate Has(v: Option<Id>, k: Id) { v == Some(k) }

  // Where an instance is, told from the pointers and the threads alone.
  predicate HeldBy(s: Sys, k: Id, t: Id) { t < |s.threads| && Has(InHand(s.threads[t]), k) }

  predicate InstalledAt(s: Sys, k: Id, i: nat) { i < |s.shards| && Has(s.shards[i], k) }

  ghost predicate InstanceInv(s: Sys, k: Id)
    requires k < |s.instances|
  {
    var x := s.instances[k];
    && x.stops == (if x.place == Stopped then 1 else 0)
    && x.running == (x.place != Stopped && x.place != Aborted)
    && (match x.place
        case Held(t) => HeldBy(s, k, t)
        case InShard(i) => InstalledAt(s, k, i)
        case _ => true)
  }

  ghost predicate Inv(s: Sys) {
    && (forall k :: 0 <= k < |s.instances| ==> InstanceInv(s, k))
    && (forall t: Id, k: Id :: HeldBy(s, k, t) ==> k < |s.instances| && s.instances[k].place == Held(t))
    && (forall i: nat, k: Id :: InstalledAt(s, k, i) ==> k < |s.instances| && s.instances[k].place == InShard(i))
  }

  // Thread t keeps or gives up what it holds, and only that instance changes.
  lemma Moves(s: Sys, s': Sys, t: Id, k: Id)
    requires Inv(s) && HeldBy(s, k, t) && |s'.threads| == |s.threads| && |s'.instances| == |s.instances|
    requires k < |s.instances|
    requires forall u :: 0 <= u < |s.threads| && u != t ==> s'.threads[u] == s.threads[u]
    requires forall j :: 0 <= j < |s.instances| && j != k ==> s'.instances[j] == s.instances[j]
    requires s'.shards == s.shards && !s'.instances[k].place.InShard?
    requires InHand(s'.threads[t]) == (if s'.instances[k].place == Held(t) then Some(k) else None)
    requires InstanceInv(s', k)
    ensures Inv(s')
  {
    forall u: Id, j: Id | HeldBy(s', j, u) ensures j < |s'.instances| && s'.instances[j].place == Held(u) {
      if u != t { assert HeldBy(s, j, u); }
    }
    forall i: nat, j: Id | InstalledAt(s', j, i) ensures j < |s'.instances| && s'.instances[j].place == InShard(i) {
      assert InstalledAt(s, j, i);
    }
    forall j | 0 <= j < |s'.instances| ensures InstanceInv(s', j) {
      assert InstanceInv(s, j);
      if j != k && s.instances[j].place.Held? { assert HeldBy(s', j, s.instances[j].place.t); }
      if j != k && s.instances[j].place.InShard? { assert InstalledAt(s', j, s.instances[j].place.i); }
    }
  }

  // Threads and instances are added.
  lemma Grows(s: Sys, s': Sys)
    requires Inv(s) && s'.shards == s.shards && |s.threads| <= |s'.threads| && s.instances <= s'.instances
    requires forall t :: 0 <= t < |s.threads| ==> InHand(s.threads[t]).Some? ==> s'.threads[t] == s.threads[t]
    requires forall t: Id, k: Id :: HeldBy(s', k, t) && !HeldBy(s, k, t) ==>
      k < |s'.instances| && s'.instances[k].place == Held(t)
    requires forall k :: |s.instances| <= k < |s'.instances| ==> InstanceInv(s', k)
    ensures Inv(s')
  {
    forall t: Id, k: Id | HeldBy(s', k, t) ensures k < |s'.instances| && s'.instances[k].place == Held(t) {
      if HeldBy(s, k, t) { assert s'.instances[k] == s.instances[k]; }
    }
    forall i: nat, k: Id | InstalledAt(s', k, i) ensures k < |s'.instances| && s'.instances[k].place == InShard(i) {
      assert InstalledAt(s, k, i);
    }
    forall k | 0 <= k < |s'.instances| ensures InstanceInv(s', k) {
      if k < |s.instances| {
        assert InstanceInv(s, k) && s'.instances[k] == s.instances[k];
        if s.instances[k].place.Held? { assert HeldBy(s', k, s.instances[k].place.t); }
        if s.instances[k].place.InShard? { assert InstalledAt(s', k, s.instances[k].place.i); }
      }
    }
  }

  lemma KeepsCall(s: Sys, v: Thread)
    requires Inv(s) && InHand(v).None?
    ensures Inv(s.(threads := s.threads + [v]))
  {
    var s' := s.(threads := s.threads + [v]);
    forall t: Id, k: Id | HeldBy(s', k, t) ensures HeldBy(s, k, t) {}
    Grows(s, s');
  }

  lemma KeepsBegin(s: Sys, t: Id)
    requires Inv(s) && Enabled(s, Begin(t))
    ensures Inv(Apply(s, Begin(t)))
  {
    var s', n := Apply(s, Begin(t)), |s.instances|;
    assert s'.instances == s.instances + [Instance(0, true, Held(t))];
    assert HeldBy(s', n, t) && InstanceInv(s', n);
    forall u: Id, k: Id | HeldBy(s', k, u) && !HeldBy(s, k, u)
      ensures k < |s'.instances| && s'.instances[k].place == Held(u)
    {
      assert u == t && k == n;
    }
    Grows(s, s');
  }

  lemma KeepsPrepare(s: Sys, t: Id, ok: bool)
    requires Inv(s)
    ensures Enabled(s, Prepared(t, ok)) ==> Inv(Apply(s, Prepared(t, ok)))
    ensures Enabled(s, Program(t, ok)) ==> Inv(Apply(s, Program(t, ok)))
  {
    if Enabled(s, Prepared(t, ok)) {
      var k, s' := s.threads[t].pc.inst, Apply(s, Prepared(t, ok));
      assert HeldBy(s, k, t);
      assert InstanceInv(s, k);
      if ok { assert HeldBy(s', k, t); }
      Moves(s, s', t, k);
    }
    if Enabled(s, Program(t, ok)) {
      var k, s' := s.threads[t].pc.inst, Apply(s, Program(t, ok));
      assert HeldBy(s, k, t);
      assert InstanceInv(s, k);
      if ok { assert HeldBy(s', k, t); }
      Moves(s, s', t, k);
    }
  }

  lemma KeepsStopOld(s: Sys, t: Id)
    requires Inv(s) && Enabled(s, StopOld(t))
    ensures Inv(Apply(s, StopOld(t)))
  {
    var k := if s.threads[t].Loader? then s.threads[t].pc.out else s.threads[t].stage.out;
    assert HeldBy(s, k, t);
    assert InstanceInv(s, k);
    Moves(s, Apply(s, StopOld(t)), t, k);
  }

  // Shard i changes hands: what was in it goes to thread t, and what t held, if it
  // held anything, goes into it.
  lemma Swaps(s: Sys, s': Sys, t: Id, i: nat)
    requires Inv(s) && t < |s.threads| == |s'.threads| && i < |s.shards| == |s'.shards|
    requires |s'.instances| == |s.instances|
    requires forall u :: 0 <= u < |s.threads| && u != t ==> s'.threads[u] == s.threads[u]
    requires forall j :: 0 <= j < |s.shards| && j != i ==> s'.shards[j] == s.shards[j]
    requires s'.shards[i] == InHand(s.threads[t]) && InHand(s'.threads[t]) == s.shards[i]
    requires forall k: Id :: k < |s.instances| ==>
      s'.instances[k] == if HeldBy(s, k, t) then s.instances[k].(place := InShard(i))
                         else if InstalledAt(s, k, i) then s.instances[k].(place := Held(t))
                         else s.instances[k]
    ensures Inv(s')
  {
    forall u: Id, k: Id | HeldBy(s', k, u) ensures k < |s'.instances| && s'.instances[k].place == Held(u) {
      if u != t { assert HeldBy(s, k, u); } else { assert InstalledAt(s, k, i); }
    }
    forall j: nat, k: Id | InstalledAt(s', k, j) ensures k < |s'.instances| && s'.instances[k].place == InShard(j) {
      if j != i { assert InstalledAt(s, k, j); } else { assert HeldBy(s, k, t); }
    }
    forall k: Id | k < |s'.instances| ensures InstanceInv(s', k) {
      assert InstanceInv(s, k);
      if s'.instances[k].place.Held? { assert HeldBy(s', k, s'.instances[k].place.t); }
      if s'.instances[k].place.InShard? { assert InstalledAt(s', k, s'.instances[k].place.i); }
    }
  }

  lemma KeepsSwapIn(s: Sys, t: Id)
    requires Inv(s) && Enabled(s, SwapIn(t))
    ensures Inv(Apply(s, SwapIn(t)))
  {
    var i, k := s.threads[t].shard, s.threads[t].pc.inst;
    assert HeldBy(s, k, t);
    if s.shards[i].Some? { assert InstalledAt(s, s.shards[i].value, i); }
    Swaps(s, Apply(s, SwapIn(t)), t, i);
  }

  lemma KeepsSwapOut(s: Sys, t: Id)
    requires Inv(s) && Enabled(s, SwapOut(t))
    ensures Inv(Apply(s, SwapOut(t)))
  {
    var i := s.threads[t].shard;
    if s.shards[i].Some? { assert InstalledAt(s, s.shards[i].value, i); }
    Swaps(s, Apply(s, SwapOut(t)), t, i);
  }

  lemma StepKeeps(s: Sys, a: Action)
    requires Inv(s) && Enabled(s, a)
    ensures Inv(Apply(s, a))
  {
    match a {
      case CallLoad => KeepsCall(s, LoaderAt(s, 0));
      case CallStop => KeepsCall(s, StopperAt(s, 0));
      case Begin(t) => KeepsBegin(s, t);
      case Prepared(t, ok) => KeepsPrepare(s, t, ok);
      case Program(t, ok) => KeepsPrepare(s, t, ok);
      case SwapIn(t) => KeepsSwapIn(s, t);
      case StopOld(t) => KeepsStopOld(s, t);
      case SwapOut(t) => KeepsSwapOut(s, t);
    }
  }

  predicate Runs(s: Sys, actions: seq<Action>)
    decreases |actions|
  {
    actions == [] || (Enabled(s, actions[0]) && Runs(Apply(s, actions[0]), actions[1..]))
  }

  function After(s: Sys, actions: seq<Action>): Sys
    requires Runs(s, actions)
    decreases |actions|
  {
    if actions == [] then s else After(Apply(s, actions[0]), actions[1..])
  }

  lemma {:induction false} RunKeeps(s: Sys, actions: seq<Action>)
    requires Inv(s) && Runs(s, actions)
    ensures Inv(After(s, actions))
    decreases |actions|
  {
    if actions != [] {
      StepKeeps(s, actions[0]);
      RunKeeps(Apply(s, actions[0]), actions[1..]);
    }
  }

  // Whatever the LoadScript and Stop calls and their interleaving: an instance is in
  // one thread's hands, in one shard, or in neither; it is stopped at most once, and
  // never while it is in a shard or in hand; and an instance in neither place whose
  // event loop still runs is left over from a failed loadProgram.
  lemma EachInstanceOnce(n: nat, actions: seq<Action>, k: Id)
    requires Runs(Init(n), actions) && k < |After(Init(n), actions).instances|
    ensures var s := After(Init(n), actions); var x := s.instances[k];
      && x.stops <= 1
      && (forall t, u :: HeldBy(s, k, t) && HeldBy(s, k, u) ==> t == u)
      && (forall i, j :: InstalledAt(s, k, i) && InstalledAt(s, k, j) ==> i == j)
      && (forall t, i :: !(HeldBy(s, k, t) && InstalledAt(s, k, i)))
      && (x.stops == 1 || !x.running ==> (forall t :: !HeldBy(s, k, t)) && (forall i :: !InstalledAt(s, k, i)))
      && (x.running && (forall t :: !HeldBy(s, k, t)) && (forall i :: !InstalledAt(s, k, i)) ==> x.place == LeftOver)
  {
    RunKeeps(Init(n), actions);
    var s := After(Init(n), actions);
    assert InstanceInv(s, k);
    var p := s.instances[k].place;
    if p.Held? { assert HeldBy(s, k, p.t); }
    if p.InShard? { assert InstalledAt(s, k, p.i); }
  }

  // What a step does to an instance, from where it was: nothing, unless it is the step
  // of the thread that has it or a swap at its shard.
  lemma InstanceMoves(s: Sys, a: Action, k: Id)
    requires Inv(s) && Enabled(s, a) && k < |s.instances|
    ensures |Apply(s, a).instances| == |s.instances| + (if a.Begin? then 1 else 0)
    ensures var x, y := s.instances[k], Apply(s, a).instances[k];
      match x.place
      case Held(t) =>
        y == (if a == Prepared(t, false) then Instance(0, false, Aborted)
              else if a == Program(t, false) then Instance(0, true, LeftOver)
              else if a == StopOld(t) then Instance(1, false, Stopped)
              else if a == SwapIn(t) then Instance(0, true, InShard(s.threads[t].shard))
              else x)
      case InShard(i) =>
        y == if (a.SwapIn? || a.SwapOut?) && s.threads[a.t].shard == i then Instance(0, true, Held(a.t)) else x
      case _ => y == x
  {
    assert InstanceInv(s, k);
    assert a.SwapIn? || a.SwapOut? ==> s.threads[a.t].shard < |s.shards|;
    if !a.CallLoad? && !a.CallStop? {
      assert forall j: Id :: HeldBy(s, j, a.t) ==> s.instances[j].place == Held(a.t);
      if InHand(s.threads[a.t]).Some? { assert HeldBy(s, InHand(s.threads[a.t]).value, a.t); }
      if s.threads[a.t].shard < |s.shards| && s.shards[s.threads[a.t].shard].Some? {
        assert InstalledAt(s, s.shards[s.threads[a.t].shard].value, s.threads[a.t].shard);
      }
    }
  }

  // An instance is left over exactly by loadProgram failing on it, and once left over it
  // is never stopped and never used.
  lemma LeftOverForGood(s: Sys, a: Action, k: Id)
    requires Inv(s) && Enabled(s, a) && k < |s.instances|
    ensures k < |Apply(s, a).instances|
    ensures s.instances[k].place == LeftOver ==> Apply(s, a).instances[k] == s.instances[k]
    ensures s.instances[k].place != LeftOver ==>
      (Apply(s, a).instances[k].place == LeftOver <==> a.Program? && !a.ok && s.threads[a.t].pc == Loading(k))
  {
    InstanceMoves(s, a, k);
    assert InstanceInv(s, k);
    if a.Program? && s.threads[a.t].pc == Loading(k) { assert HeldBy(s, k, a.t); }
  }

  // What a call of LoadScript or Stop has done, told by the run so far: how often it has
  // swapped, and how it came back.
  ghost predicate ToldBy(s: Sys, h: seq<Action>, t: Id)
    requires t < |s.threads|
  {
    match s.threads[t]
    case Loader(i, pc) =>
      && multiset(h)[SwapIn(t)] == i + (if pc.LoadStopping? then 1 else 0)
      && (pc == LoadDone(true) <==> i == |s.shards|) && i <= |s.shards|
      && (pc == LoadDone(false) <==> Prepared(t, false) in h || Program(t, false) in h)
    case Stopper(i, stage) =>
      && i <= |s.shards| && (stage.StopDone? <==> i == |s.shards|)
      && multiset(h)[SwapOut(t)] == i + (if stage.StopStopping? then 1 else 0)
  }

  ghost predicate AllTold(s: Sys, h: seq<Action>) {
    && (forall a :: a in h && !a.CallLoad? && !a.CallStop? ==> a.t < |s.threads|)
    && forall t :: 0 <= t < |s.threads| ==> ToldBy(s, h, t)
  }

  lemma StepTold(s: Sys, h: seq<Action>, a: Action)
    requires Inv(s) && AllTold(s, h) && Enabled(s, a)
    ensures AllTold(Apply(s, a), h + [a])
  {
    forall t | 0 <= t < |Apply(s, a).threads| ensures ToldBy(Apply(s, a), h + [a], t) {
      if t < |s.threads| {
        if !a.CallLoad? && !a.CallStop? && a.t == t { OwnTold(s, h, a); } else { OthersTold(s, h, a, t); }
      } else {
        NotYet(s, h, SwapIn(t));
        NotYet(s, h, SwapOut(t));
        NotYet(s, h, Prepared(t, false));
        NotYet(s, h, Program(t, false));
      }
    }
  }

  lemma OthersTold(s: Sys, h: seq<Action>, a: Action, t: Id)
    requires Enabled(s, a) && t < |s.threads| && ToldBy(s, h, t) && (a.CallLoad? || a.CallStop? || a.t != t)
    ensures t < |Apply(s, a).threads| && ToldBy(Apply(s, a), h + [a], t)
  {
    assert multiset(h + [a]) == multiset(h) + multiset{a};
    assert Apply(s, a).threads[t] == s.threads[t] && |Apply(s, a).shards| == |s.shards|;
  }

  lemma OwnTold(s: Sys, h: seq<Action>, a: Action)
    requires Inv(s) && Enabled(s, a) && !a.CallLoad? && !a.CallStop? && ToldBy(s, h, a.t)
    ensures a.t < |Apply(s, a).threads| && ToldBy(Apply(s, a), h + [a], a.t)
  {
    assert multiset(h + [a]) == multiset(h) + multiset{a};
    assert |Apply(s, a).shards| == |s.shards|;
    if a.Prepared? { assert HeldBy(s, s.threads[a.t].pc.inst, a.t); }
  }

  // Nothing has been done by a thread that is not there.
  lemma NotYet(s: Sys, h: seq<Action>, a: Action)
    requires AllTold(s, h) && !a.CallLoad? && !a.CallStop? && a.t >= |s.threads|
    ensures a !in h && multiset(h)[a] == 0
  {
    assert a in multiset(h) <==> a in h;
  }

  lemma {:induction false} RunTold(s: Sys, h: seq<Action>, actions: seq<Action>)
    requires Inv(s) && AllTold(s, h) && Runs(s, actions)
    ensures AllTold(After(s, actions), h + actions)
    decreases |actions|
  {
    if actions == [] {
      assert h + actions == h;
    } else {
      StepTold(s, h, actions[0]);
      StepKeeps(s, actions[0]);
      RunTold(Apply(s, actions[0]), h + [actions[0]], actions[1..]);
      assert h + actions == h + [actions[0]] + actions[1..];
    }
  }

  // Whatever runs beside it, LoadScript returns nil exactly after as many swaps as there
  // are shards, and an error exactly if getInstance or loadProgram gave it one; and Stop
  // returns exactly after as many swaps.
  lemma CallsToldByTheRun(n: nat, actions: seq<Action>, t: Id)
    requires Runs(Init(n), actions) && t < |After(Init(n), actions).threads|
    ensures var v := After(Init(n), actions).threads[t];
      if v.Loader? then
        && (v.pc == LoadDone(true) <==> multiset(actions)[SwapIn(t)] == n && !v.pc.LoadStopping?)
        && (v.pc == LoadDone(false) <==> Prepared(t, false) in actions || Program(t, false) in actions)
      else
        v.stage.StopDone? <==> multiset(actions)[SwapOut(t)] == n && !v.stage.StopStopping?
  {
    RunTold(Init(n), [], actions);
    assert [] + actions == actions;
    var s := After(Init(n), actions);
    SameShards(Init(n), actions);
    assert ToldBy(s, actions, t);
  }

  lemma {:induction false} SameShards(s: Sys, actions: seq<Action>)
    requires Runs(s, actions)
    ensures |After(s, actions).shards| == |s.shards|
    decreases |actions|
  {
    if actions != [] { SameShards(Apply(s, actions[0]), actions[1..]); }
  }

  // Stop, with and without LoadScript beside it.

  // Thread t is a loader that has still a shard to swap an instance into.
  predicate WillSwap(s: Sys, t: Id) {
    && t < |s.threads| && s.threads[t].Loader?
    && match s.threads[t].pc
       case LoadDone(_) => false
       case LoadStopping(_) => s.threads[t].shard + 1 < |s.shards|
       case _ => s.threads[t].shard < |s.shards|
  }

  ghost predicate NoneWillSwap(s: Sys) { forall t: Id :: !WillSwap(s, t) }

  // What Stop thread t has passed is nil.
  predicate Cleared(s: Sys, t: Id) {
    && t < |s.threads| && s.threads[t].Stopper?
    && (forall i :: 0 <= i < |s.shards| && i < s.threads[t].shard ==> s.shards[i].None?)
    && (s.threads[t].stage.StopStopping? && s.threads[t].shard < |s.shards| ==> s.shards[s.threads[t].shard].None?)
    && (s.threads[t].stage.StopDone? ==> s.threads[t].shard >= |s.shards|)
  }

  lemma StepClears(s: Sys, a: Action, t: Id)
    requires NoneWillSwap(s) && Cleared(s, t) && Enabled(s, a) && !a.CallLoad?
    ensures NoneWillSwap(Apply(s, a)) && Cleared(Apply(s, a), t)
  {
    var s' := Apply(s, a);
    assert !a.CallStop? ==> !WillSwap(s, a.t);
    assert !a.Begin? && !a.SwapIn?;
    assert |s'.shards| == |s.shards| && forall i :: 0 <= i < |s.shards| && s.shards[i].None? ==> s'.shards[i].None?;
    forall u: Id ensures !WillSwap(s', u) { assert !WillSwap(s, u); }
  }

  lemma {:induction false} RunClears(s: Sys, actions: seq<Action>, t: Id)
    requires NoneWillSwap(s) && Cleared(s, t) && Runs(s, actions) && CallLoad !in actions
    ensures Cleared(After(s, actions), t)
    decreases |actions|
  {
    if actions != [] {
      StepClears(s, actions[0], t);
      RunClears(Apply(s, actions[0]), actions[1..], t);
    }
  }

  // Left alone, Stop thread t returns; no other thread moves.
  lemma {:induction false} StopReturns(s: Sys, t: Id) returns (actions: seq<Action>)
    requires t < |s.threads| && s.threads[t].Stopper?
    requires s.threads[t].stage.StopNext? ==> s.threads[t].shard < |s.shards|
    ensures Runs(s, actions) && CallLoad !in actions
    ensures var u := After(s, actions);
      && |u.shards| == |s.shards| && |u.threads| == |s.threads| && u.threads[t].Stopper? && u.threads[t].stage.StopDone?
      && forall v :: 0 <= v < |s.threads| && v != t ==> u.threads[v] == s.threads[v]
    decreases if s.threads[t].shard < |s.shards| then |s.shards| - s.threads[t].shard else 0,
              match s.threads[t].stage case StopNext => 2 case StopStopping(_) => 1 case StopDone => 0
  {
    if s.threads[t].stage.StopDone? {
      actions := [];
    } else {
      var a := if s.threads[t].stage.StopNext? then SwapOut(t) else StopOld(t);
      var rest := StopReturns(Apply(s, a), t);
      actions := [a] + rest;
      Prepend(s, a, rest);
    }
  }

  // Left alone, a loader that will swap does; no other thread moves.
  lemma {:induction false} LoaderSwaps(s: Sys, t: Id) returns (actions: seq<Action>)
    requires WillSwap(s, t)
    ensures Runs(s, actions) && CallLoad !in actions
    ensures var u := After(s, actions);
      && |u.threads| == |s.threads| && (exists i :: 0 <= i < |u.shards| && u.shards[i].Some?)
      && forall v :: 0 <= v < |s.threads| && v != t ==> u.threads[v] == s.threads[v]
    decreases match s.threads[t].pc
              case LoadStopping(_) => 4
              case LoadNext => 3
              case Preparing(_) => 2
              case Loading(_) => 1
              case _ => 0
  {
    var a := match s.threads[t].pc
             case LoadStopping(_) => StopOld(t)
             case LoadNext => Begin(t)
             case Preparing(_) => Prepared(t, true)
             case Loading(_) => Program(t, true)
             case _ => SwapIn(t);
    var rest := [];
    if a == SwapIn(t) {
      assert Apply(s, a).shards[s.threads[t].shard].Some?;
    } else {
      rest := LoaderSwaps(Apply(s, a), t);
    }
    actions := [a] + rest;
    Prepend(s, a, rest);
  }

  // In the run, no LoadScript is called, and the Stop called before it has returned.
  predicate EndsStop(s: Sys, actions: seq<Action>) {
    && Runs(Apply(s, CallStop), actions) && CallLoad !in actions
    && var u := After(Apply(s, CallStop), actions);
    |s.threads| < |u.threads| && u.threads[|s.threads|].Stopper? && u.threads[|s.threads|].stage.StopDone?
  }

  predicate AllNil(s: Sys) { forall i :: 0 <= i < |s.shards| ==> s.shards[i].None? }

  // A call of Stop, beside any threads: once it has returned every shard is nil,
  // whatever the interleaving and however long one waits, exactly when no loader
  // under way at the call has a shard still to swap into.
  lemma StopEmptiesExactly(s: Sys)
    ensures (forall actions :: EndsStop(s, actions) ==> AllNil(After(Apply(s, CallStop), actions))) <==> NoneWillSwap(s)
  {
    var s1, me := Apply(s, CallStop), |s.threads|;
    if NoneWillSwap(s) {
      forall actions | EndsStop(s, actions) ensures AllNil(After(s1, actions)) {
        assert forall t: Id :: WillSwap(s1, t) ==> WillSwap(s, t);
        RunClears(s1, actions, me);
      }
    } else {
      var t: Id :| WillSwap(s, t);
      var first := StopReturns(s1, me);
      var second := LoaderSwaps(After(s1, first), t);
      Joined(s1, first, second);
      assert EndsStop(s, first + second) && !AllNil(After(s1, first + second));
    }
  }

  // Beside a LoadScript it need not be: here both have returned, and the shard holds
  // an instance that nobody will stop.
  lemma StopMissesALoad()
    ensures
      var actions := [CallLoad, Begin(0), Prepared(0, true), Program(0, true)] + [CallStop, SwapOut(1), SwapIn(0)];
      && Runs(Init(1), actions)
      && After(Init(1), actions)
         == Sys([Some(0)], [Loader(1, LoadDone(true)), Stopper(1, StopDone)], [Instance(0, true, InShard(0))])
  {
    LoadUntilSwap();
    StopThenSwap();
    Joined(Init(1), [CallLoad, Begin(0), Prepared(0, true), Program(0, true)], [CallStop, SwapOut(1), SwapIn(0)]);
  }

  lemma LoadUntilSwap()
    ensures var actions := [CallLoad, Begin(0), Prepared(0, true), Program(0, true)];
      && Runs(Init(1), actions)
      && After(Init(1), actions) == Sys([None], [Loader(0, Loaded(0))], [Instance(0, true, Held(0))])
  {
    var held := [Instance(0, true, Held(0))];
    assert Apply(Init(1), CallLoad) == Sys([None], [Loader(0, LoadNext)], []);
    assert Apply(Sys([None], [Loader(0, LoadNext)], []), Begin(0)) == Sys([None], [Loader(0, Preparing(0))], held);
    assert Apply(Sys([None], [Loader(0, Preparing(0))], held), Prepared(0, true))
        == Sys([None], [Loader(0, Loading(0))], held);
    assert Apply(Sys([None], [Loader(0, Loading(0))], held), Program(0, true))
        == Sys([None], [Loader(0, Loaded(0))], held);
    Prepend(Sys([None], [Loader(0, Loading(0))], held), Program(0, true), []);
    Prepend(Sys([None], [Loader(0, Preparing(0))], held), Prepared(0, true), [Program(0, true)]);
    Prepend(Sys([None], [Loader(0, LoadNext)], []), Begin(0), [Prepared(0, true), Program(0, true)]);
    Prepend(Init(1), CallLoad, [Begin(0), Prepared(0, true), Program(0, true)]);
  }

  lemma StopThenSwap()
    ensures var s := Sys([None], [Loader(0, Loaded(0))], [Instance(0, true, Held(0))]);
      && Runs(s, [CallStop, SwapOut(1), SwapIn(0)])
      && After(s, [CallStop, SwapOut(1), SwapIn(0)])
         == Sys([Some(0)], [Loader(1, LoadDone(true)), Stopper(1, StopDone)], [Instance(0, true, InShard(0))])
  {
    var held, v := [Instance(0, true, Held(0))], Loader(0, Loaded(0));
    var s1, s2 := Sys([None], [v, Stopper(0, StopNext)], held), Sys([None], [v, Stopper(1, StopDone)], held);
    assert Apply(Sys([None], [v], held), CallStop) == s1;
    assert Apply(s1, SwapOut(1)) == s2;
    assert Apply(s2, SwapIn(0)) == Sys([Some(0)], [Loader(1, LoadDone(true)), Stopper(1, StopDone)],
        [Instance(0, true, InShard(0))]);
    Prepend(s2, SwapIn(0), []);
    Prepend(s1, SwapOut(1), [SwapIn(0)]);
    Prepend(Sys([None], [v], held), CallStop, [SwapOut(1), SwapIn(0)]);
  }

  lemma Prepend(s: Sys, a: Action, rest: seq<Action>)
    requires Enabled(s, a) && Runs(Apply(s, a), rest)
    ensures Runs(s, [a] + rest) && After(s, [a] + rest) == After(Apply(s, a), rest)
  {
    assert ([a] + rest)[1..] == rest;
  }

  lemma {:induction false} Joined(s: Sys, before: seq<Action>, rest: seq<Action>)
    requires Runs(s, before) && Runs(After(s, before), rest)
    ensures Runs(s, before + rest) && After(s, before + rest) == After(After(s, before), rest)
    decreases |before|
  {
    if before == [] {
      assert before + rest == rest;
    } else {
      assert (before + rest)[0] == before[0] && (before + rest)[1..] == before[1..] + rest;
      Joined(Apply(s, before[0]), before[1..], rest);
    }
  }

  // LoadScript and Stop, each alone.

  datatype Outcome = Fine | NoInstance | NoProgram

  class Runtime {
    const numShards: nat
    const shards: array<Option<Id>>
    var nextShard: nat
    var instances: seq<Instance>

    constructor (n: nat)
      requires n >= 1
      ensures Valid() && numShards == n && fresh(shards) && instances == []
      ensures nextShard == RoundRobin.Counter(0)
      ensures forall i :: 0 <= i < n ==> shards[i] == None
    {
      numShards := n;
      shards := new Option<Id>[n](_ => None);
      nextShard := RoundRobin.WORD - 1;
      instances := [];
    }

    // Each pointer is to an instance of its own, running and not yet stopped.
    ghost predicate Valid()
      reads this, shards
    {
      && numShards == shards.Length >= 1 && nextShard < RoundRobin.WORD
      && (forall i :: 0 <= i < numShards && shards[i].Some? ==>
            shards[i].value < |instances| && instances[shards[i].value] == Instance(0, true, InShard(i)))
    }

    method ShardRun() returns (i: nat, instance: Option<Id>)
      requires Valid()
      modifies `nextShard
      ensures Valid() && i < numShards && instance == shards[i]
      ensures nextShard == RoundRobin.Ticket(old(nextShard)) && i == nextShard % numShards
      ensures forall k: nat :: old(nextShard) == RoundRobin.Counter(k) ==>
        nextShard == RoundRobin.Counter(k + 1) && i == RoundRobin.ShardOf(k, numShards)
    {
      nextShard := RoundRobin.Ticket(nextShard);
      i := nextShard % numShards;
      instance := shards[i];
    }

    // getInstance: a failure stops the event loop again.
    method GetInstance(fails: bool) returns (k: Id)
      modifies `instances
      ensures k == |old(instances)|
      ensures instances == old(instances) + [if fails then Instance(0, false, Aborted) else Instance(0, true, Held(0))]
    {
      k := |instances|;
      instances := instances + [if fails then Instance(0, false, Aborted) else Instance(0, true, Held(0))];
    }

    method Swap(i: nat, v: Option<Id>) returns (out: Option<Id>)
      requires i < shards.Length
      modifies shards
      ensures out == old(shards[i]) && shards[..] == old(shards[..])[i := v]
    {
      out := shards[i];
      shards[i] := v;
    }

    // Reload: if shard `failed` is the first whose instance cannot be made or whose
    // program fails, the shards below it have new instances, the others keep theirs;
    // what was in the shards below has been stopped once, nothing else has; and a
    // program that failed leaves its instance running.
    method LoadScript(outcomes: seq<Outcome>) returns (ok: bool, ghost failed: nat)
      requires Valid() && |outcomes| == numShards
      modifies this, shards
      ensures Valid() && nextShard == old(nextShard)
      ensures failed <= numShards && (ok <==> failed == numShards)
      ensures (forall i :: 0 <= i < failed ==> outcomes[i] == Fine) && (failed < numShards ==> outcomes[failed] != Fine)
      ensures forall i :: 0 <= i < failed ==> shards[i] == Some(|old(instances)| + i)
      ensures forall i :: failed <= i < numShards ==> shards[i] == old(shards[i])
      ensures |instances| == |old(instances)| + failed + (if ok then 0 else 1)
      ensures forall i :: 0 <= i < failed && old(shards[i]).Some? ==>
        instances[old(shards[i]).value] == Instance(1, false, Stopped)
      ensures forall k: Id :: 0 <= k < |old(instances)| && (forall i :: 0 <= i < failed ==> !Has(old(shards[i]), k)) ==>
        instances[k] == old(instances)[k]
      ensures !ok ==>
        instances[|instances| - 1] == (if outcomes[failed] == NoProgram then Instance(0, true, LeftOver)
            else Instance(0, false, Aborted))
    {
      ghost var was := shards[..];
      ghost var n0 := |instances|;
      failed := 0;
      var i := 0;
      while i < numShards
        invariant i == failed <= numShards && Valid() && nextShard == old(nextShard)
        invariant forall j :: 0 <= j < i ==> outcomes[j] == Fine && shards[j] == Some(n0 + j)
        invariant forall j :: i <= j < numShards ==> shards[j] == was[j]
        invariant |instances| == n0 + i
        invariant forall j :: 0 <= j < i && was[j].Some? ==>
          was[j].value < n0 && instances[was[j].value] == Instance(1, false, Stopped)
        invariant forall k: Id :: 0 <= k < n0 && (forall j :: 0 <= j < i ==> !Has(was[j], k)) ==>
          instances[k] == old(instances)[k]
      {
        var done := ReloadShard(i, outcomes[i]);
        if !done { return false, failed; }
        i, failed := i + 1, failed + 1;
      }
      return true, failed;
    }

    // One turn of the loop: a new instance, its program, and the swap.
    method ReloadShard(i: nat, outcome: Outcome) returns (ok: bool)
      requires Valid() && i < numShards
      modifies `instances, shards
      ensures Valid() && |instances| == |old(instances)| + 1 && (ok <==> outcome == Fine)
      ensures shards[..] == if ok then old(shards[..])[i := Some(|old(instances)|)] else old(shards[..])
      ensures !ok ==>
        instances[|old(instances)|]
        == (if outcome == NoProgram then Instance(0, true, LeftOver) else Instance(0, false, Aborted))
      ensures ok && old(shards[i]).Some? ==> instances[old(shards[i]).value] == Instance(1, false, Stopped)
      ensures forall j: Id :: 0 <= j < |old(instances)| && (ok ==> !Has(old(shards[i]), j)) ==>
        instances[j] == old(instances)[j]
    {
      if outcome == NoInstance {
        var _ := GetInstance(true);
        return false;
      }
      var k := GetInstance(false);
      if outcome == NoProgram {
        instances := instances[k := Instance(0, true, LeftOver)];
        return false;
      }
      Replace(i, k);
      return true;
    }

    // Swap in, and stop what comes out.
    method Replace(i: nat, k: Id)
      requires Valid() && i < numShards && k < |instances| && instances[k] == Instance(0, true, Held(0))
      modifies `instances, shards
      ensures Valid() && shards[..] == old(shards[..])[i := Some(k)]
      ensures |instances| == |old(instances)| && instances[k] == Instance(0, true, InShard(i))
      ensures old(shards[i]).Some? ==> instances[old(shards[i]).value] == Instance(1, false, Stopped)
      ensures forall j: Id :: 0 <= j < |instances| && j != k && !Has(old(shards[i]), j) ==>
        instances[j] == old(instances)[j]
    {
      assert forall j :: 0 <= j < numShards && shards[j].Some? ==> shards[j].value != k;
      var out := Swap(i, Some(k));
      instances := instances[k := Instance(0, true, InShard(i))];
      if out.Some? { instances := instances[out.value := Instance(instances[out.value].stops + 1, false, Stopped)]; }
      forall j | 0 <= j < numShards && shards[j].Some?
        ensures shards[j].value < |instances| && instances[shards[j].value] == Instance(0, true, InShard(j))
      {
        if j != i { assert shards[j] == old(shards[j]); }
      }
    }

    // Stop leaves no instance in a shard, and every one that was there is stopped.
    method Stop()
      requires Valid()
      modifies `instances, shards
      ensures Valid() && forall i :: 0 <= i < numShards ==> shards[i] == None
      ensures |instances| == |old(instances)|
      ensures forall i :: 0 <= i < numShards && old(shards[i]).Some? ==>
        instances[old(shards[i]).value] == Instance(1, false, Stopped)
      ensures forall k: Id :: 0 <= k < |instances| && (forall i :: 0 <= i < numShards ==> !Has(old(shards[i]), k)) ==>
        instances[k] == old(instances)[k]
    {
      ghost var was := shards[..];
      var i := 0;
      while i < numShards
        invariant i <= numShards && Valid() && |instances| == |old(instances)|
        invariant forall j :: 0 <= j < i ==> shards[j] == None
        invariant forall j :: i <= j < numShards ==> shards[j] == was[j]
        invariant forall j :: 0 <= j < i && was[j].Some? ==>
          was[j].value < |instances| && instances[was[j].value] == Instance(1, false, Stopped)
        invariant forall k: Id :: 0 <= k < |instances| && (forall j :: 0 <= j < i ==> !Has(was[j], k)) ==>
          instances[k] == old(instances)[k]
      {
        var out := Swap(i, None);
        assert out == was[i];
        if out.Some? { instances := instances[out.value := Instance(instances[out.value].stops + 1, false, Stopped)]; }
        i := i + 1;
      }
    }
  }
}
