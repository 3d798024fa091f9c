// What every step keeps.
module Invariants {
  import opened Base
  import opened Objects
  import opened Programs
  import opened Potentials
  import opened Middleware

  // Counting fetch goroutines.

  predicate IsCounted(pc: FetchPc) { pc.Counted? || pc.Running? || pc.Returning? }

  // Between limiter.Acquire and limiter.Release on context c.
  predicate Holds(pc: FetchPc, c: Id) {
    (pc.Admitted? || pc.Counted? || pc.Running? || pc.Returning? || pc.Releasing?) && pc.ctx == c
  }

  function CountedIn(fs: seq<Fetch>): nat {
    if fs == [] then 0 else CountedIn(fs[..|fs| - 1]) + Bit(IsCounted(fs[|fs| - 1].pc))
  }

  function HeldIn(fs: seq<Fetch>, c: Id): nat {
    if fs == [] then 0 else HeldIn(fs[..|fs| - 1], c) + Bit(Holds(fs[|fs| - 1].pc, c))
  }

  // Over all requests ever served, earlier users of the context included.
  function HeldBy(reqs: seq<Req>, c: Id): nat {
    if reqs == [] then 0 else HeldBy(reqs[..|reqs| - 1], c) + HeldIn(reqs[|reqs| - 1].fetches, c)
  }

  lemma {:induction false} CountedUpdate(fs: seq<Fetch>, i: nat, g: Fetch)
    requires i < |fs|
    ensures CountedIn(fs[i := g]) == CountedIn(fs) - Bit(IsCounted(fs[i].pc)) + Bit(IsCounted(g.pc))
  {
    var t := fs[i := g];
    if i == |fs| - 1 {
      assert t[..|t| - 1] == fs[..|fs| - 1];
    } else {
      assert t[..|t| - 1] == fs[..|fs| - 1][i := g];
      CountedUpdate(fs[..|fs| - 1], i, g);
    }
  }

  lemma {:induction false} CountedZero(fs: seq<Fetch>)
    requires CountedIn(fs) == 0
    ensures forall i :: 0 <= i < |fs| ==> !IsCounted(fs[i].pc)
  {
    if fs != [] {
      CountedZero(fs[..|fs| - 1]);
      assert forall i :: 0 <= i < |fs| - 1 ==> fs[i] == fs[..|fs| - 1][i];
    }
  }

  lemma {:induction false} CountedSome(fs: seq<Fetch>, i: nat)
    requires i < |fs| && IsCounted(fs[i].pc)
    ensures CountedIn(fs) > 0
  {
    if i < |fs| - 1 { CountedSome(fs[..|fs| - 1], i); }
  }

  lemma {:induction false} HeldInUpdate(fs: seq<Fetch>, i: nat, g: Fetch, c: Id)
    requires i < |fs|
    ensures HeldIn(fs[i := g], c) == HeldIn(fs, c) - Bit(Holds(fs[i].pc, c)) + Bit(Holds(g.pc, c))
  {
    var t := fs[i := g];
    if i == |fs| - 1 {
      assert t[..|t| - 1] == fs[..|fs| - 1];
    } else {
      assert t[..|t| - 1] == fs[..|fs| - 1][i := g];
      HeldInUpdate(fs[..|fs| - 1], i, g, c);
    }
  }

  lemma {:induction false} HeldByUpdate(reqs: seq<Req>, r: nat, q: Req, c: Id)
    requires r < |reqs|
    ensures HeldBy(reqs[r := q], c) == HeldBy(reqs, c) - HeldIn(reqs[r].fetches, c) + HeldIn(q.fetches, c)
  {
    var t := reqs[r := q];
    if r == |reqs| - 1 {
      assert t[..|t| - 1] == reqs[..|reqs| - 1];
    } else {
      assert t[..|t| - 1] == reqs[..|reqs| - 1][r := q];
      HeldByUpdate(reqs[..|reqs| - 1], r, q, c);
    }
  }

  lemma {:induction false} HeldSome(reqs: seq<Req>, r: nat, i: nat, c: Id)
    requires r < |reqs| && i < |reqs[r].fetches| && Holds(reqs[r].fetches[i].pc, c)
    ensures HeldBy(reqs, c) > 0
  {
    if r < |reqs| - 1 {
      HeldSome(reqs[..|reqs| - 1], r, i, c);
    } else {
      HeldInSome(reqs[r].fetches, i, c);
    }
  }

  lemma {:induction false} HeldInSome(fs: seq<Fetch>, i: nat, c: Id)
    requires i < |fs| && Holds(fs[i].pc, c)
    ensures HeldIn(fs, c) > 0
  {
    if i < |fs| - 1 { HeldInSome(fs[..|fs| - 1], i, c); }
  }

  // No owner is live: nothing of the request's script can still run.
  ghost predicate Quiet(q: Req) {
    forall o :: !Live(q, o)
  }

  ghost predicate FetchInv(q: Req, g: Fetch) {
    && (!g.callback.Settled? ==> Active(q, g.owner))
    && (g.callback.Unscheduled? <==> !(g.pc.Returning? || g.pc.Releasing? || g.pc.Gone?))
    && (!g.pc.Start? && !g.pc.Gone? ==> g.pc.ctx == q.ctx)
    && (g.pc.Acquiring? && g.pc.deadline.OnExtended? ==> q.extenders != [])
  }

  ghost predicate FetchesInv(q: Req) { forall i :: 0 <= i < |q.fetches| ==> FetchInv(q, q.fetches[i]) }

  // A late read belongs to an active owner, of a request that has the object.
  ghost predicate TaskInv(q: Req, t: Task) {
    && (!t.pc.TaskDone? ==> Active(q, t.owner))
    && (t.late.UseKV? ==> q.kvRead && (t.pc.Queued? ==> t.pc.found == Some(q.ctx)))
  }

  ghost predicate TasksInv(q: Req) { forall i :: 0 <= i < |q.tasks| ==> TaskInv(q, q.tasks[i]) }

  // A waitUntil's count is outstanding until its wrapper has called back.
  ghost predicate WrappersInv(q: Req) {
    |q.wrappers| == |q.extenders| && forall x :: 0 <= x < |q.extenders| ==>
        (q.extenders[x] <==> !q.wrappers[x].WrapperDone?)
  }

  // What settles the request: one wake, one mark, and the writes it leads to.

  function DueWakes(q: Req): nat { Bit(q.handler.Finished? || q.handler.Thrown?) }

  function DueSends(q: Req): nat { Bit(q.respond.Fired? && !q.respond.outcome.ErroredUndefined?) }

  function DueAwaits(q: Req): nat { Bit(q.handler.Finished? && !q.respond.Unused?) }

  function DueMarks(q: Req): nat {
    if q.respond.Unused? then DueWakes(q) else DueSends(q)
  }

  // The response of a request, once its outcome is decided.
  function DueWrites(q: Req): seq<Write> {
    match q.respond
    case Fired(outcome) => Writes(Responder(outcome), true)
    case Awaiting => []
    case Unused =>
      match q.handler
      case Finished(ok) => if ok then [Next] else [Status(500), Body]
      case Thrown => if q.spared then [] else [Status(500), Body]
      case _ => []
  }

  ghost predicate RequestInv(q: Req) {
    && FetchesInv(q) && TasksInv(q) && WrappersInv(q)
    && (q.handler.InCall? ==> !q.respond.Fired?)
    && (q.http.Returned? <==> !q.waiter.NoWait?) && (q.http.Returned? <==> !q.releaser.NoRelease?)
    && (q.http.GotContext? || q.http.Prepared? ==>
          && q.handler.Uncalled? && q.respond.Unused? && q.extenders == [] && q.fetches == [] && q.trace == []
          && q.tasks == [] && !q.kvRead)
    && (q.handler.Uncalled? ==> q.http.GotContext? || q.http.Prepared?)
    && (q.handler.InCall? ==> q.http.Calling?)
    && (q.handler.Thrown? ==> q.respond.Unused?)
    && (q.http.Failing? ==> q.handler.Thrown?)
    && (q.handlerThread.prog != End ==> q.handler.Finished?)
    && (q.responseThread.prog != End ==> q.respond.Fired?)
    && (q.exception != End || q.spared ==> q.handler.Thrown?)
    && (q.http.Returned? ==>
          && (q.handler.Finished? || q.handler.Thrown?) && !q.respond.Awaiting?
          && (q.respond.Fired? ==> !q.respond.outcome.ErroredUndefined?)
          && q.handlerThread.prog == End && q.responseThread.prog == End && q.exception == End
          && q.trace == DueWrites(q))
    && (q.waiter.OnReqCtx? ==> q.extenders == []) && (q.waiter.OnExtenders? ==> q.extenders != [])
    && (q.waiter.ToCancel? || q.waiter.Ended? ==> Quiet(q) && (q.gone || q.extenders != []))
    && (q.spared ==> q.gone)
    && (q.releaser.OnFetches? || q.releaser.Cleaning? || q.releaser.Putting? || q.releaser.Closed? ==> q.waiter.Ended?)
    && (q.releaser.Cleaning? || q.releaser.Putting? || q.releaser.Closed? ==>
          forall i :: 0 <= i < |q.fetches| ==> q.fetches[i].pc.Releasing? || q.fetches[i].pc.Gone?)
  }

  // An open request and its IOContext.
  ghost predicate ContextInv(r: Id, q: Req, x: Ctx) {
    && x.extenders == Trues(q.extenders)
    && x.fetches == CountedIn(q.fetches)
    && x.registered == x.cleanups + Reverse(x.ran)
    && (if q.releaser.Putting? then x.Idle()
        else
          && x.hdrPool && x.request == Some(r)
          && x.shouldExtend == (q.extenders != [])
          && x.extended == (if q.waiter.Ended? then Cancelled else Uncancelled))
    && (!q.releaser.Cleaning? && !q.releaser.Putting? ==> x.ran == [] && (x.cleanups == [] <==> q.http.GotContext?))
    && (x.cleanups != [] ==> x.cleanups[0] == Return(Obj(KEvent, q.evt)))
  }

  // An open request and its FetchEvent, until the event goes back to its pool.
  ghost predicate EventInv(r: Id, q: Req, e: Evt) {
    && e.http == Some(r) && e.ioContext == Some(q.ctx)
    && e.kv == (if q.kvRead then Some(q.ctx) else None)
    && ThreadsInv(r, q, e)
    && MarksInv(q, e) && WakesInv(q, e) && SendsInv(q, e) && WritesInv(q, e)
  }

  // Who may be running, and what the running programs look like.
  ghost predicate ThreadsInv(r: Id, q: Req, e: Evt) {
    var h, p, x := q.handlerThread.prog, q.responseThread.prog, q.exception;
    && e.skipNext == e.useRespondWith == !q.respond.Unused?
    && (h != End ==> q.handler.Finished? && q.handlerThread.w == r && Finishes(h, e.skipNext) && !Asks(h))
    && Awaits(h, e.skipNext) <= Bit(e.skipNext)
    && (e.skipNext ==> Writes(h, true) == [])
    && (x != End ==> q.handler.Thrown? && Finishes(x, e.skipNext) && Awaits(x, e.skipNext) == 0)
    && (p != End ==> q.respond.Fired? && q.responseThread.w == r)
    && (p != End ==> if q.respond.outcome.ErroredUndefined? then p == Responder(ErroredUndefined) else Delivers(p))
    && (q.handler.Thrown? ==> q.respond.Unused?)
    && (q.http.Calling? && q.handler.Thrown? ==> x != End)
    && (q.http.Waiting? && q.handler.Thrown? ==> x == End)
  }

  // responseSent is set once.
  ghost predicate MarksInv(q: Req, e: Evt) {
    var h, p, x := q.handlerThread.prog, q.responseThread.prog, q.exception;
    Bit(e.responseSent) + Marks(p, e.skipNext) + Marks(h, e.skipNext) + Marks(x, e.skipNext) == DueMarks(q)
  }

  // One token goes through requestDone.
  ghost predicate WakesInv(q: Req, e: Evt) {
    var h, x := q.handlerThread.prog, q.exception;
    e.requestDone + Wakes(h, e.skipNext) + Wakes(x, e.skipNext) + Bit(q.http.Returned?) == DueWakes(q)
  }

  // What goes into responseDone comes out.
  ghost predicate SendsInv(q: Req, e: Evt) {
    e.responseDone + Sends(q.responseThread.prog) + DueAwaits(q)
        == DueSends(q) + Awaits(q.handlerThread.prog, e.skipNext)
  }

  // Whose writes are still to come.
  function Owed(q: Req, e: Evt): seq<Write> {
    if e.skipNext then Writes(q.responseThread.prog, true)
    else if q.handler.Thrown? then Writes(q.exception, false)
    else Writes(q.handlerThread.prog, false)
  }

  // What was written and what is still to be written make up one response.
  ghost predicate WritesInv(q: Req, e: Evt) {
    && q.trace + Owed(q, e) == DueWrites(q)
    && (q.handler.Thrown? && q.spared ==> Owed(q, e) == [])
  }

  // The cleanup stack of an open request's context, and the objects on it.
  function Stack(s: Sys, r: Id): seq<Cleanup> {
    if r < |s.reqs| && s.reqs[r].Open() then s.Ctx(s.reqs[r].ctx).cleanups else []
  }

  ghost predicate EntryInv(s: Sys, c: Id, st: seq<Cleanup>, j: nat)
    requires j < |st|
  {
    match st[j]
    case ResetBuffer => true
    case ResetResponse(p) => Return(Obj(KResponse, p)) in st[..j]
    case Return(o) =>
      match o.kind
      case KContext => false
      case KEvent => j == 0
      case KFetcher => s.Fetcher(o.id) == Fetcher(Some(c))
      case KResponse => s.Response(o.id) == NewResponse || ResetResponse(o.id) in st
      case KStream => s.Stream(o.id) == Stream(true, true)
      case KHeaders => true
  }

  // While nothing has been cleaned up, what the script holds is on the stack.
  ghost predicate HoldingInv(s: Sys, q: Req, st: seq<Cleanup>) {
    && (forall i :: 0 <= i < |q.fetches| ==>
          && Return(Obj(KFetcher, q.fetches[i].fetcher)) in st
          && Return(Obj(KResponse, q.fetches[i].response)) in st
          && (q.fetches[i].callback == Settled(true) ==>
                HoldsResponse(s.Response(q.fetches[i].response), q.ctx, st)))
    && (st != [] && s.Evt(q.evt).fetcher.Some? ==> Return(Obj(KFetcher, s.Evt(q.evt).fetcher.value)) in st)
    && (st != [] && s.Evt(q.evt).body.Some? ==> Return(Obj(KStream, s.Evt(q.evt).body.value)) in st)
    && (forall i :: 0 <= i < |q.tasks| && q.tasks[i].late.ReadInto? ==>
          Return(Obj(KStream, q.tasks[i].late.stream)) in st)
  }

  // A response the script holds: bound, with its body's stream on the stack.
  predicate HoldsResponse(v: Response, c: Id, st: seq<Cleanup>) {
    v.ioContext == Some(c) && v.resp && v.body.Some? && Return(Obj(KStream, v.body.value)) in st
  }

  ghost predicate OpenInv(s: Sys, r: Id)
    requires r < |s.reqs|
  {
    var q := s.reqs[r];
    var x := s.Ctx(q.ctx);
    && ContextInv(r, q, x)
    && (x.cleanups != [] ==> q.evt < |s.evts| && EventInv(r, q, s.Evt(q.evt)))
    && (forall j :: 0 <= j < |x.cleanups| ==> EntryInv(s, q.ctx, x.cleanups, j))
    && (!q.releaser.Cleaning? && !q.releaser.Putting? ==> HoldingInv(s, q, x.cleanups))
  }

  ghost predicate ReqInv(s: Sys, r: Id)
    requires r < |s.reqs|
  {
    var q := s.reqs[r];
    q.ctx < |s.ctxs| && RequestInv(q) && (q.Open() ==> OpenInv(s, r))
  }

  // The pools hold each free object once, and nothing else.

  ghost predicate AllMade(s: Sys) {
    && (forall k: Kind :: k in s.pools)
    && (forall o: Obj :: o in s.home <==> o.id < s.Made(o.kind))
  }

  predicate IsFree(s: Sys, o: Obj) { o in s.home && s.home[o] == Free }

  // In no request's hands: in its pool, or dropped by it.
  predicate IsSpare(s: Sys, o: Obj) { o in s.home && !s.home[o].Owned? }

  ghost predicate QueueInv(s: Sys, k: Kind) {
    && |s.Queue(k)| <= POOL_CAPACITY
    && (forall i :: 0 <= i < |s.Queue(k)| ==> IsFree(s, Obj(k, s.Queue(k)[i])))
    && (forall i, j :: 0 <= i < j < |s.Queue(k)| ==> s.Queue(k)[i] != s.Queue(k)[j])
    && (forall id :: IsFree(s, Obj(k, id)) ==> id in s.Queue(k))
  }

  ghost predicate PoolsInv(s: Sys) { AllMade(s) && forall k :: QueueInv(s, k) }

  // Every object on a stack belongs to that request, once; and conversely.

  ghost predicate StackOwned(s: Sys) {
    forall r, j :: 0 <= r < |s.reqs| && 0 <= j < |Stack(s, r)| && Stack(s, r)[j].Return? ==>
      Stack(s, r)[j].obj in s.home && s.home[Stack(s, r)[j].obj] == Owned(r)
  }

  ghost predicate StackDistinct(s: Sys) {
    forall r, i, j :: 0 <= r < |s.reqs| && 0 <= i < j < |Stack(s, r)| && Stack(s, r)[i].Return? ==>
      Stack(s, r)[i] != Stack(s, r)[j]
  }

  ghost predicate ContextOwned(s: Sys) {
    forall r :: 0 <= r < |s.reqs| && s.reqs[r].Open() ==>
      Obj(KContext, s.reqs[r].ctx) in s.home && s.home[Obj(KContext, s.reqs[r].ctx)] == Owned(r)
  }

  // Where an owned object is.
  ghost predicate IsHeldBy(s: Sys, o: Obj, r: Id) {
    && r < |s.reqs| && s.reqs[r].Open()
    && (if o.kind.KContext? then s.reqs[r].ctx == o.id else Return(o) in Stack(s, r))
  }

  ghost predicate OwnedHeld(s: Sys) {
    forall o :: o in s.home && s.home[o].Owned? ==> IsHeldBy(s, o, s.home[o].r)
  }

  ghost predicate StacksInv(s: Sys) {
    StackOwned(s) && StackDistinct(s) && ContextOwned(s) && OwnedHeld(s)
  }

  ghost predicate OwnInv(s: Sys) { PoolsInv(s) && StacksInv(s) }

  // An object that nobody has holds nothing.
  predicate IsReset(s: Sys, o: Obj) {
    match o.kind
    case KContext => s.Ctx(o.id).Idle()
    case KEvent => s.Evt(o.id) == NewEvt
    case KFetcher => s.Fetcher(o.id) == NewFetcher
    case KResponse => s.Response(o.id) == NewResponse
    case KStream => s.Stream(o.id) == NewStream
    case KHeaders => o.id < |s.headers| ==> s.headers[o.id] == NewHeaders
  }

  ghost predicate ResetInv(s: Sys) {
    forall o :: IsSpare(s, o) ==> IsReset(s, o)
  }

  ghost predicate HeldInv(s: Sys) {
    forall c :: 0 <= c < |s.ctxs| ==> s.ctxs[c].held == HeldBy(s.reqs, c) <= CONCURRENCY
  }

  ghost predicate Inv(s: Sys) {
    && !s.crashed
    && OwnInv(s) && ResetInv(s) && HeldInv(s)
    && (forall r :: 0 <= r < |s.reqs| ==> ReqInv(s, r))
  }
}
