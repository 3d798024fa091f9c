// The goroutines of the FetchEvent protocol as small programs.  A program is what
// a goroutine has still to do; running it takes off the first instruction.
module Programs {
  import opened Base
  import opened Objects

  // What reaches the http.ResponseWriter.
  datatype Write = Status(code: int) | Body | Next

  datatype Prog =
    | End
    | Mark(rest: Prog)                   // evt.responseSent = true
    | WriteStatus(code: int, rest: Prog) // w.WriteHeader(code)
    | WriteBody(rest: Prog)              // Fprintf or io.CopyBuffer to w
    | ServeNext(rest: Prog)              // evt.httpNext.ServeHTTP(w, r)
    | SendResponse(rest: Prog)           // evt.responseDone <- struct{}{}
    | AwaitResponse(rest: Prog)          // <-evt.responseDone
    | Wake(rest: Prog)                   // evt.requestDone <- struct{}{}
    | IfSkip(yes: Prog, no: Prog)        // if evt.skipNext
    | IfSent(yes: Prog, no: Prog)        // if evt.responseSent
    | IfGone(yes: Prog, no: Prog)        // select on the request context

  // getNativeRequestResolver, getNativeRequestRejector, Exception
  const Resolver := IfSkip(AwaitResponse(Wake(End)), Mark(ServeNext(Wake(End))))
  const Fail := IfSent(Wake(End), Mark(WriteStatus(500, WriteBody(Wake(End)))))
  const Rejector := IfSkip(AwaitResponse(Fail), Fail)
  const Exception :=
    IfSent(End, IfGone(Mark(Wake(End)), WriteStatus(500, WriteBody(Mark(Wake(End))))))

  // How an accepted respondWith settles: a Response whose body is copied, not a
  // Response, an error value, or the undefined error.
  datatype Outcome = Copied(code: int) | NoContent | Errored | ErroredUndefined

  // getNativeResponseResolver and getNativeResponseRejector
  function Responder(o: Outcome): Prog {
    match o
    case Copied(code) => Mark(WriteStatus(code, WriteBody(SendResponse(End))))
    case NoContent => Mark(WriteStatus(204, SendResponse(End)))
    case Errored => WriteStatus(500, WriteBody(Mark(SendResponse(End))))
    case ErroredUndefined => WriteStatus(500, End)
  }

  // A send waits for room in the channel, a receive for a token.
  predicate Ready(p: Prog, e: Evt) {
    match p
    case End => false
    case SendResponse(_) => e.responseDone < 1
    case AwaitResponse(_) => e.responseDone > 0
    case Wake(_) => e.requestDone < 1
    case _ => true
  }

  function Rest(p: Prog, e: Evt, gone: bool): Prog {
    match p
    case End => End
    case IfSkip(a, b) => if e.skipNext then a else b
    case IfSent(a, b) => if e.responseSent then a else b
    case IfGone(a, b) => if gone then a else b
    case _ => p.rest
  }

  function Effect(p: Prog, e: Evt): Evt {
    match p
    case Mark(_) => e.(responseSent := true)
    case SendResponse(_) => e.(responseDone := e.responseDone + 1)
    case AwaitResponse(_) => if e.responseDone > 0 then e.(responseDone := e.responseDone - 1) else e
    case Wake(_) => e.(requestDone := e.requestDone + 1)
    case _ => e
  }

  function Emits(p: Prog): seq<Write> {
    match p
    case WriteStatus(code, _) => [Status(code)]
    case WriteBody(_) => [Body]
    case ServeNext(_) => [Next]
    case _ => []
  }
}
