// When responseSent is set, against what has been written by then: a response that is
// copied, a 204, next and the rejector's report are marked before their first write, an
// error report of the response and of an exception after their last.
module Marking {
  import opened Base
  import opened Objects
  import opened Programs
  import opened Potentials
  import opened Middleware
  import opened Invariants
  import opened LocalSteps
  import opened Safety
  import opened Alone
  import opened History
  import opened Theorems

  predicate NoMarks(p: Prog) {
    match p
    case End => true
    case Mark(_) => false
    case IfSkip(a, b) => NoMarks(a) && NoMarks(b)
    case IfSent(a, b) => NoMarks(a) && NoMarks(b)
    case IfGone(a, b) => NoMarks(a) && NoMarks(b)
    case _ => NoMarks(p.rest)
  }

  predicate NoWrites(p: Prog) {
    match p
    case End => true
    case WriteStatus(_, _) => false
    case WriteBody(_) => false
    case ServeNext(_) => false
    case IfSkip(a, b) => NoWrites(a) && NoWrites(b)
    case IfSent(a, b) => NoWrites(a) && NoWrites(b)
    case IfGone(a, b) => NoWrites(a) && NoWrites(b)
    case _ => NoWrites(p.rest)
  }

  // No mark after a write.
  predicate Early(p: Prog) {
    match p
    case End => true
    case WriteStatus(_, k) => NoMarks(k) && Early(k)
    case WriteBody(k) => NoMarks(k) && Early(k)
    case ServeNext(k) => NoMarks(k) && Early(k)
    case IfSkip(a, b) => Early(a) && Early(b)
    case IfSent(a, b) => Early(a) && Early(b)
    case IfGone(_, _) => false
    case _ => Early(p.rest)
  }

  // No write after a mark, nor once the client is found gone.
  predicate Late(p: Prog) {
    match p
    case End => true
    case Mark(k) => NoWrites(k) && Late(k)
    case IfSkip(a, b) => Late(a) && Late(b)
    case IfSent(a, b) => Late(a) && Late(b)
    case IfGone(a, b) => NoWrites(a) && Late(a) && Late(b)
    case _ => Late(p.rest)
  }

  lemma {:induction false} NoneLeft(p: Prog, skip: bool)
    ensures NoMarks(p) ==> Marks(p, skip) == 0
    ensures NoWrites(p) ==> Writes(p, skip) == []
  {
    match p {
      case End =>
      case IfSkip(a, b) => NoneLeft(a, skip); NoneLeft(b, skip);
      case IfSent(a, b) => NoneLeft(a, skip); NoneLeft(b, skip);
      case IfGone(a, b) => NoneLeft(a, skip); NoneLeft(b, skip);
      case _ => NoneLeft(p.rest, skip);
    }
  }

  // A program that marks first, and what has been written so far.
  ghost predicate MarksFirst(p: Prog, skip: bool, trace: seq<Write>) {
    Early(p) && (Marks(p, skip) > 0 ==> trace == [])
  }

  // One that marks last.
  ghost predicate MarksLast(p: Prog, skip: bool) { Late(p) && (Marks(p, skip) == 0 ==> Writes(p, skip) == []) }

  ghost predicate InOrder(q: Req) {
    var h, p, x, skip := q.handlerThread.prog, q.responseThread.prog, q.exception, !q.respond.Unused?;
    && (if skip then Early(h) && Marks(h, skip) == 0 else MarksFirst(h, skip, q.trace))
    && (q.handler.Thrown? ==> MarksLast(x, skip))
    && (q.respond.Fired? ==>
          match q.respond.outcome
          case Copied(_) => MarksFirst(p, true, q.trace)
          case NoContent => MarksFirst(p, true, q.trace)
          case Errored => MarksLast(p, true)
          case ErroredUndefined => Early(p) && Marks(p, true) == 0)
  }

  // The programs at their start.

  lemma HandlerStarts(ok: bool)
    ensures var p := if ok then Resolver else Rejector; Marks(p, true) == 0 && Early(p)
  {
    var w := Wake(End);
    assert Early(w) && NoMarks(w) && NoMarks(WriteBody(w)) && Marks(w, true) == 0;
    assert Early(Mark(ServeNext(w))) && Early(AwaitResponse(w)) && Marks(AwaitResponse(w), true) == 0;
    assert Early(WriteStatus(500, WriteBody(w)));
    assert Early(Fail) && Marks(Fail, true) == 0;
    assert Early(AwaitResponse(Fail)) && Marks(AwaitResponse(Fail), true) == 0;
  }

  lemma ExceptionStarts(skip: bool)
    ensures MarksLast(Exception, skip)
  {
    var m := Mark(Wake(End));
    assert NoWrites(Wake(End)) && Late(m) && NoWrites(m) && Marks(m, skip) == 1;
    assert Late(WriteBody(m)) && Marks(WriteBody(m), skip) == 1;
    assert Late(WriteStatus(500, WriteBody(m))) && Marks(WriteStatus(500, WriteBody(m)), skip) == 1;
    var g := IfGone(m, WriteStatus(500, WriteBody(m)));
    assert Late(g) && Marks(g, skip) == 1 && Exception == IfSent(End, g);
  }

  lemma ResponderStarts(o: Outcome)
    ensures match o
      case Copied(_) => Early(Responder(o))
      case NoContent => Early(Responder(o))
      case Errored => MarksLast(Responder(o), true)
      case ErroredUndefined => Early(Responder(o)) && Marks(Responder(o), true) == 0
  {
    var d := SendResponse(End);
    assert Early(d) && NoMarks(d) && NoMarks(WriteBody(d)) && Early(WriteBody(d));
    forall code ensures Early(WriteStatus(code, WriteBody(d))) && Early(WriteStatus(code, d)) {}
    assert NoWrites(d) && Late(Mark(d)) && Marks(Mark(d), true) == 1;
    assert Late(WriteBody(Mark(d))) && Marks(WriteBody(Mark(d)), true) == 1;
    assert Marks(WriteStatus(500, End), true) == 0;
  }

  // One instruction.

  lemma FirstOn(q: Req, p: Prog, trace: seq<Write>)
    requires MarksFirst(p, !q.respond.Unused?, trace)
    ensures MarksFirst(Onward(q, p), !q.respond.Unused?, trace + Emits(p))
  {
    if p.WriteStatus? || p.WriteBody? || p.ServeNext? { NoneLeft(p.rest, !q.respond.Unused?); }
    assert trace + [] == trace;
  }

  lemma LastOn(q: Req, p: Prog)
    requires MarksLast(p, !q.respond.Unused?)
    ensures MarksLast(Onward(q, p), !q.respond.Unused?)
  {
    if p.Mark? { NoneLeft(p.rest, !q.respond.Unused?); }
    if p.IfGone? { NoneLeft(p.yes, !q.respond.Unused?); }
  }

  // One step.

  // Which programs can still run.
  predicate Roles(q: Req) {
    && (q.handlerThread.prog != End ==> q.handler.Finished?)
    && (q.responseThread.prog != End ==> q.respond.Fired?)
    && (q.exception != End ==> q.handler.Thrown?)
    && (q.handler.Thrown? ==> q.respond.Unused?)
  }

  // What the step is found to start from.
  predicate Starts(q: Req, a: Action) {
    && Roles(q) && Takes(q, a)
    && (a.SettleResponse? || (a.Settle? && q.respond.Unused?) ==> q.trace == [])
    && (a.Run? && !q.respond.Unused? ==> Emits(q.handlerThread.prog) == [])
    && (a.RespondWith? ==> q.handler.InCall? || q.handler.Pending?)
  }

  lemma StepStarts(s: Sys, a: Action)
    requires Step(s, a) && !a.Arrive?
    ensures Starts(s.reqs[a.r], a)
  {
    var q := s.reqs[a.r];
    StepTakes(s, a);
    assert Roles(q) by { assert ReqInv(s, a.r) && RequestInv(q); }
    if a.SettleResponse? || (a.Settle? && q.respond.Unused?) { NotYetWritten(s, a); }
    if a.Run? && !q.respond.Unused? { HandlerSilent(s, a.r); }
    if a.RespondWith? { OnlyHandler(s, a.r); }
  }

  // After respondWith the handler's goroutine writes nothing.
  lemma HandlerSilent(s: Sys, r: Id)
    requires Inv(s) && r < |s.reqs| && !s.reqs[r].respond.Unused?
    ensures Emits(s.reqs[r].handlerThread.prog) == []
  {
    if s.reqs[r].handlerThread.prog != End {
      RunnerFacts(s, r, OfHandler);
      NothingEmitted(s.reqs[r].handlerThread.prog);
    }
  }

  lemma OnlyHandler(s: Sys, r: Id)
    requires Enabled(s, RespondWith(r)) && Obeys(s, RespondWith(r))
    ensures s.reqs[r].handler.InCall? || s.reqs[r].handler.Pending?
  {}

  lemma NotYetWritten(s: Sys, a: Action)
    requires Step(s, a) && (a.SettleResponse? || (a.Settle? && s.reqs[a.r].respond.Unused?))
    ensures s.reqs[a.r].trace == []
  {
    TraceDue(s, a.r);
  }

  lemma NothingEmitted(p: Prog)
    ensures Writes(p, true) == [] ==> Emits(p) == []
  {}

  lemma RunInOrder(q: Req, which: Which)
    requires Roles(q) && InOrder(q) && (!q.respond.Unused? ==> Emits(q.handlerThread.prog) == [])
    requires ThreadOf(q, which) != End
    ensures InOrder(OwnRun(q, which))
  {
    var p := ThreadOf(q, which);
    match which {
      case OfHandler =>
        HandlerOn(q);
      case OfResponse =>
        ResponderOn(q);
      case OfException =>
        LastOn(q, p);
    }
  }

  lemma HandlerOn(q: Req)
    requires Roles(q) && InOrder(q) && (!q.respond.Unused? ==> Emits(q.handlerThread.prog) == [])
    requires q.handlerThread.prog != End
    ensures InOrder(OwnRun(q, OfHandler))
  {
    var p := q.handlerThread.prog;
    assert q.trace + [] == q.trace;
    if q.respond.Unused? { FirstOn(q, p, q.trace); }
  }

  lemma ResponderOn(q: Req)
    requires Roles(q) && InOrder(q) && q.responseThread.prog != End
    ensures InOrder(OwnRun(q, OfResponse))
  {
    var p := q.responseThread.prog;
    match q.respond.outcome {
      case Copied(_) => FirstOn(q, p, q.trace);
      case NoContent => FirstOn(q, p, q.trace);
      case Errored => LastOn(q, p);
      case ErroredUndefined =>
    }
  }

  lemma HandlerInOrder(q: Req, a: Action, n: Names)
    requires Starts(q, a) && InOrder(q) && (a.Settle? || a.SettleResponse? || a.Throw? || a.RespondWith?)
    ensures InOrder(Own(q, a, n))
  {
    match a {
      case Settle(_, ok) => HandlerStarts(ok);
      case SettleResponse(_, o, _) => ResponderStarts(o);
      case Throw(_) => ExceptionStarts(!q.respond.Unused?);
      case RespondWith(_) =>
    }
  }

  lemma OthersKeep(q: Req, a: Action, n: Names)
    requires Takes(q, a) && !a.Settle? && !a.SettleResponse? && !a.Throw? && !a.RespondWith? && !a.Run?
    ensures var q' := Own(q, a, n);
      && q'.handlerThread == q.handlerThread && q'.responseThread == q.responseThread && q'.exception == q.exception
      && q'.respond == q.respond && q'.trace == q.trace && (q'.handler.Thrown? ==> q.handler.Thrown?)
  {
    KeepsThreads(q, a, n);
  }

  lemma KeepsThreads(q: Req, a: Action, n: Names)
    requires !a.Settle? && !a.SettleResponse? && !a.Throw? && !a.Run?
    ensures Own(q, a, n).handlerThread == q.handlerThread && Own(q, a, n).responseThread == q.responseThread
    ensures Own(q, a, n).exception == q.exception && Own(q, a, n).trace == q.trace
  {
    KeepsWritten(q, a, n);
  }

  lemma KeepsWritten(q: Req, a: Action, n: Names)
    requires !a.Throw? && !a.Run?
    ensures Own(q, a, n).exception == q.exception && Own(q, a, n).trace == q.trace
  {}

  lemma OwnInOrder(q: Req, a: Action, n: Names)
    requires Starts(q, a) && InOrder(q)
    ensures InOrder(Own(q, a, n))
  {
    if a.Run? { RunInOrder(q, a.which); }
    else if a.Settle? || a.SettleResponse? || a.Throw? || a.RespondWith? { HandlerInOrder(q, a, n); }
    else { OthersKeep(q, a, n); }
  }

  ghost predicate AllInOrder(s: Sys) { forall r :: 0 <= r < |s.reqs| ==> InOrder(s.reqs[r]) }

  lemma StepInOrder(s: Sys, a: Action)
    requires Step(s, a) && AllInOrder(s)
    ensures AllInOrder(Apply(s, a))
  {
    if a.Arrive? {
      ArriveAdds(s);
      assert Early(End) && Marks(End, false) == 0;
    } else {
      var n := StepOwn(s, a);
      StepStarts(s, a);
      OwnInOrder(s.reqs[a.r], a, n);
    }
  }

  lemma {:induction false} RunKeepsOrder(s: Sys, actions: seq<Action>)
    requires Inv(s) && AllInOrder(s) && Runs(s, actions)
    ensures AllInOrder(After(s, actions))
    decreases |actions|
  {
    if actions != [] {
      StepKeeps(s, actions[0]);
      StepInOrder(s, actions[0]);
      RunKeepsOrder(Apply(s, actions[0]), actions[1..]);
    }
  }

  lemma ReachableInOrder(s: Sys, r: Id)
    requires Reachable(s) && r < |s.reqs|
    ensures InOrder(s.reqs[r])
  {
    var actions :| Runs(Init(), actions) && After(Init(), actions) == s;
    InitInv();
    RunKeepsOrder(Init(), actions);
  }

  // While the event is in place: next, the rejector's report, a copied response and a 204
  // are written only once responseSent is set; the reports of a failed response and of an
  // exception are all written once it is; and with nothing decided it is not set.
  lemma SentTellsWritten(s: Sys, r: Id)
    requires Reachable(s) && r < |s.reqs| && InUse(s.reqs[r])
    ensures var q, sent := s.reqs[r], s.Evt(s.reqs[r].evt).responseSent;
      match q.respond
      case Awaiting => !sent
      case Fired(ErroredUndefined) => !sent
      case Fired(Errored) => sent ==> q.trace == [Status(500), Body]
      case Fired(_) => q.trace != [] ==> sent
      case Unused =>
        match q.handler
        case Finished(_) => q.trace != [] ==> sent
        case Thrown => sent ==> q.trace == if q.spared then [] else [Status(500), Body]
        case _ => !sent
  {
    var q, e := s.reqs[r], s.Evt(s.reqs[r].evt);
    assert Roles(q) && EventInv(r, q, e) by {
      ReachableInv(s);
      InPlace(s, r);
      assert ReqInv(s, r) && RequestInv(q);
    }
    ReachableInOrder(s, r);
    SentFlag(r, q, e);
  }

  lemma SentFlag(r: Id, q: Req, e: Evt)
    requires Roles(q) && EventInv(r, q, e) && InOrder(q)
    ensures var sent := e.responseSent;
      match q.respond
      case Awaiting => !sent
      case Fired(ErroredUndefined) => !sent
      case Fired(Errored) => sent ==> q.trace == [Status(500), Body]
      case Fired(_) => q.trace != [] ==> sent
      case Unused =>
        match q.handler
        case Finished(_) => q.trace != [] ==> sent
        case Thrown => sent ==> q.trace == if q.spared then [] else [Status(500), Body]
        case _ => !sent
  {
    if q.respond.Fired? { ResponderWrites(q.respond.outcome); }
    assert q.trace + [] == q.trace;
  }
}
