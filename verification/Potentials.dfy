// What a program has still to do on the path it will take.  The path is fixed by
// whether respondWith was used: IfSkip follows the flag, and IfSent finds the
// response sent exactly when it was used.
module Potentials {
  import opened Base
  import opened Objects
  import opened Programs

  function Bit(b: bool): nat { if b then 1 else 0 }

  function Marks(p: Prog, skip: bool): nat {
    match p
    case End => 0
    case Mark(k) => 1 + Marks(k, skip)
    case IfSkip(a, b) => if skip then Marks(a, skip) else Marks(b, skip)
    case IfSent(a, b) => if skip then Marks(a, skip) else Marks(b, skip)
    case IfGone(_, b) => Marks(b, skip)
    case _ => Marks(p.rest, skip)
  }

  function Wakes(p: Prog, skip: bool): nat {
    match p
    case End => 0
    case Wake(k) => 1 + Wakes(k, skip)
    case IfSkip(a, b) => if skip then Wakes(a, skip) else Wakes(b, skip)
    case IfSent(a, b) => if skip then Wakes(a, skip) else Wakes(b, skip)
    case IfGone(_, b) => Wakes(b, skip)
    case _ => Wakes(p.rest, skip)
  }

  function Sends(p: Prog): nat {
    match p
    case End => 0
    case SendResponse(k) => 1 + Sends(k)
    case IfSkip(a, b) => 0
    case IfSent(a, b) => 0
    case IfGone(a, b) => 0
    case _ => Sends(p.rest)
  }

  function Awaits(p: Prog, skip: bool): nat {
    match p
    case End => 0
    case AwaitResponse(k) => 1 + Awaits(k, skip)
    case IfSkip(a, b) => if skip then Awaits(a, skip) else Awaits(b, skip)
    case IfSent(a, b) => if skip then Awaits(a, skip) else Awaits(b, skip)
    case IfGone(_, b) => Awaits(b, skip)
    case _ => Awaits(p.rest, skip)
  }

  function Writes(p: Prog, skip: bool): seq<Write> {
    match p
    case End => []
    case WriteStatus(code, k) => [Status(code)] + Writes(k, skip)
    case WriteBody(k) => [Body] + Writes(k, skip)
    case ServeNext(k) => [Next] + Writes(k, skip)
    case IfSkip(a, b) => if skip then Writes(a, skip) else Writes(b, skip)
    case IfSent(a, b) => if skip then Writes(a, skip) else Writes(b, skip)
    case IfGone(_, b) => Writes(b, skip)
    case _ => Writes(p.rest, skip)
  }

  // A responder: straight-line, with its one send last.
  predicate Delivers(p: Prog) {
    match p
    case SendResponse(k) => k == End
    case Mark(k) => Delivers(k)
    case WriteStatus(_, k) => Delivers(k)
    case WriteBody(k) => Delivers(k)
    case _ => false
  }

  // A waker: its one wake is last; after it tests responseSent, it no longer
  // waits, and marks the response only if it found it unsent; and its two ways
  // past a test of the request context differ only in what they write.
  predicate Finishes(p: Prog, skip: bool) {
    match p
    case End => false
    case SendResponse(_) => false
    case Wake(k) => k == End
    case IfSkip(a, b) => if skip then Finishes(a, skip) else Finishes(b, skip)
    case IfSent(a, b) =>
      if skip then Finishes(a, skip) && Marks(a, skip) == 0 && Awaits(a, skip) == 0
      else Finishes(b, skip) && Marks(b, skip) == 1
    case IfGone(a, b) =>
      && Finishes(a, skip) && Finishes(b, skip)
      && Marks(a, skip) == Marks(b, skip) && Awaits(a, skip) == Awaits(b, skip)
      && Writes(a, skip) == [] && Writes(b, skip) == [Status(500), Body]
    case _ => Finishes(p.rest, skip)
  }

  // Tests the request context.
  predicate Asks(p: Prog) {
    match p
    case End => false
    case IfGone(_, _) => true
    case IfSkip(a, b) => Asks(a) || Asks(b)
    case IfSent(a, b) => Asks(a) || Asks(b)
    case _ => Asks(p.rest)
  }

  lemma {:induction false} FinishesWakesOnce(p: Prog, skip: bool)
    requires Finishes(p, skip)
    ensures Wakes(p, skip) == 1
  {
    if p.IfSkip? {
      FinishesWakesOnce(if skip then p.yes else p.no, skip);
    } else if p.IfSent? {
      FinishesWakesOnce(if skip then p.yes else p.no, skip);
    } else if p.IfGone? {
      FinishesWakesOnce(p.no, skip);
    } else if !p.Wake? {
      FinishesWakesOnce(p.rest, skip);
    }
  }

  lemma {:induction false} DeliversSendsOnce(p: Prog)
    requires Delivers(p)
    ensures Sends(p) == 1
  {
    if !p.SendResponse? { DeliversSendsOnce(p.rest); }
  }
}
