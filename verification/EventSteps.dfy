// A goroutine of the response protocol takes one step: the tokens, the response
// mark and the writes it still owes move by exactly what it did.
module EventSteps {
  import opened Base
  import opened Objects
  import opened Programs
  import opened Potentials
  import opened Middleware
  import opened Invariants

  // A request after one step of a goroutine; g says whether the request context is done.
  function Ran(r: Id, q: Req, e: Evt, which: Which, g: bool): Req {
    var p := ThreadOf(q, which);
    var n := Rest(p, e, g);
    var q' := match which
              case OfHandler => q.(handlerThread := Thread(r, n))
              case OfResponse => q.(responseThread := Thread(r, n))
              case OfException => q.(exception := n, spared := q.spared || (p.IfGone? && g));
    q'.(trace := q.trace + Emits(p))
  }

  // The responder finishes before its waker reads responseSent; when nobody
  // responded, only the waker sets it.
  lemma SentIffSkip(r: Id, q: Req, e: Evt)
    requires EventInv(r, q, e) && (q.handlerThread.prog.IfSent? || q.exception.IfSent?)
    ensures e.responseSent == e.skipNext
  {
    var h, p, x := q.handlerThread.prog, q.responseThread.prog, q.exception;
    if h.IfSent? {
      assert x == End && Finishes(h, e.skipNext);
      if e.skipNext {
        assert Awaits(h, true) == 0 && Marks(h, true) == 0;
        assert Sends(p) == 0 && DueSends(q) == 1;
        if p != End { DeliversSendsOnce(p); }
      } else {
        assert p == End && Marks(h, false) == 1;
      }
    } else {
      assert h == End && p == End && Finishes(x, false);
      assert Marks(x, false) == 1;
    }
  }

  // The first instruction's output comes first.
  lemma EmitsFirst(p: Prog, e: Evt, g: bool, skip: bool)
    requires p.IfSkip? ==> e.skipNext == skip
    requires p.IfSent? ==> e.responseSent == skip
    requires p.IfGone? ==> !g
    ensures Writes(p, skip) == Emits(p) + Writes(Rest(p, e, g), skip)
  {}

  lemma MoveOver(trace: seq<Write>, emitted: seq<Write>, owed: seq<Write>, due: seq<Write>)
    requires trace + (emitted + owed) == due
    ensures (trace + emitted) + owed == due
  {
    assert trace + (emitted + owed) == (trace + emitted) + owed;
  }

  lemma HandlerCounts(r: Id, q: Req, e: Evt, g: bool)
    requires EventInv(r, q, e) && Ready(q.handlerThread.prog, e)
    ensures var q', e' := Ran(r, q, e, OfHandler, g), Effect(q.handlerThread.prog, e);
      ThreadsInv(r, q', e') && MarksInv(q', e') && WakesInv(q', e') && SendsInv(q', e')
  {
    var h := q.handlerThread.prog;
    var q', e' := Ran(r, q, e, OfHandler, g), Effect(h, e);
    if h.IfSent? { SentIffSkip(r, q, e); }
    assert ThreadsInv(r, q', e');
    assert MarksInv(q', e');
    assert WakesInv(q', e');
    assert SendsInv(q', e');
  }

  lemma HandlerWrites(r: Id, q: Req, e: Evt, g: bool)
    requires EventInv(r, q, e) && Ready(q.handlerThread.prog, e)
    ensures WritesInv(Ran(r, q, e, OfHandler, g), Effect(q.handlerThread.prog, e))
  {
    var h := q.handlerThread.prog;
    if h.IfSent? { SentIffSkip(r, q, e); }
    EmitsFirst(h, e, g, e.skipNext);
    var q', e' := Ran(r, q, e, OfHandler, g), Effect(h, e);
    if e.skipNext {
      assert Emits(h) == [] && q'.trace == q.trace && Owed(q', e') == Owed(q, e);
    } else {
      assert Owed(q, e) == Emits(h) + Owed(q', e');
      MoveOver(q.trace, Emits(h), Owed(q', e'), DueWrites(q));
    }
    assert DueWrites(q') == DueWrites(q);
  }

  lemma HandlerRuns(r: Id, q: Req, e: Evt, g: bool)
    requires EventInv(r, q, e) && Ready(q.handlerThread.prog, e)
    ensures EventInv(r, Ran(r, q, e, OfHandler, g), Effect(q.handlerThread.prog, e))
  {
    HandlerCounts(r, q, e, g);
    HandlerWrites(r, q, e, g);
  }

  lemma ResponseCounts(r: Id, q: Req, e: Evt, g: bool)
    requires EventInv(r, q, e) && Ready(q.responseThread.prog, e)
    ensures var q', e' := Ran(r, q, e, OfResponse, g), Effect(q.responseThread.prog, e);
      ThreadsInv(r, q', e') && MarksInv(q', e') && WakesInv(q', e') && SendsInv(q', e')
  {
    var q', e' := Ran(r, q, e, OfResponse, g), Effect(q.responseThread.prog, e);
    assert ThreadsInv(r, q', e');
    assert MarksInv(q', e');
    assert WakesInv(q', e');
    assert SendsInv(q', e');
  }

  lemma ResponseWrites(r: Id, q: Req, e: Evt, g: bool)
    requires EventInv(r, q, e) && Ready(q.responseThread.prog, e)
    ensures WritesInv(Ran(r, q, e, OfResponse, g), Effect(q.responseThread.prog, e))
  {
    var p := q.responseThread.prog;
    EmitsFirst(p, e, g, true);
    var q', e' := Ran(r, q, e, OfResponse, g), Effect(p, e);
    assert Owed(q, e) == Emits(p) + Owed(q', e');
    MoveOver(q.trace, Emits(p), Owed(q', e'), DueWrites(q));
    assert DueWrites(q') == DueWrites(q);
  }

  lemma ResponseRuns(r: Id, q: Req, e: Evt, g: bool)
    requires EventInv(r, q, e) && Ready(q.responseThread.prog, e)
    ensures EventInv(r, Ran(r, q, e, OfResponse, g), Effect(q.responseThread.prog, e))
  {
    ResponseCounts(r, q, e, g);
    ResponseWrites(r, q, e, g);
  }

  lemma ExceptionCounts(r: Id, q: Req, e: Evt, g: bool)
    requires EventInv(r, q, e) && Ready(q.exception, e) && q.http.Failing?
    ensures var q', e' := Ran(r, q, e, OfException, g), Effect(q.exception, e);
      ThreadsInv(r, q', e') && MarksInv(q', e') && WakesInv(q', e') && SendsInv(q', e')
  {
    var x := q.exception;
    if x.IfSent? { SentIffSkip(r, q, e); }
    if x.IfGone? { FinishesWakesOnce(x.yes, e.skipNext); FinishesWakesOnce(x.no, e.skipNext); }
  }

  lemma ExceptionWrites(r: Id, q: Req, e: Evt, g: bool)
    requires EventInv(r, q, e) && Ready(q.exception, e) && q.http.Failing?
    ensures WritesInv(Ran(r, q, e, OfException, g), Effect(q.exception, e))
  {
    var x := q.exception;
    var q', e' := Ran(r, q, e, OfException, g), Effect(x, e);
    if x.IfSent? { SentIffSkip(r, q, e); }
    if !x.IfGone? || !g {
      EmitsFirst(x, e, g, e.skipNext);
      assert Owed(q, e) == Emits(x) + Owed(q', e');
      MoveOver(q.trace, Emits(x), Owed(q', e'), DueWrites(q));
    } else {
      assert Owed(q', e') == [];
    }
  }

  lemma ExceptionRuns(r: Id, q: Req, e: Evt, g: bool)
    requires EventInv(r, q, e) && Ready(q.exception, e) && q.http.Failing?
    ensures EventInv(r, Ran(r, q, e, OfException, g), Effect(q.exception, e))
  {
    ExceptionCounts(r, q, e, g);
    ExceptionWrites(r, q, e, g);
  }
}
