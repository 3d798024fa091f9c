// FetchEvent, field by field, with its goroutines as they are written; run without
// interruption, each does what its program in Programs does when executed to its
// end.
module FetchEvents {
  import opened Base
  import opened Objects
  import opened Programs
  import opened Promises

  // A program executed to its end: the event after it, and what it wrote.
  function Execute(p: Prog, e: Evt, gone: bool): (Evt, seq<Write>)
    decreases p
  {
    if p == End then (e, [])
    else
      var (e', w) := Execute(Rest(p, e, gone), Effect(p, e), gone);
      (e', Emits(p) + w)
  }

  // It never has to wait on the way.
  predicate Unblocked(p: Prog, e: Evt, gone: bool)
    decreases p
  {
    p == End || (Ready(p, e) && Unblocked(Rest(p, e, gone), Effect(p, e), gone))
  }

  // Executed, p takes e to e' and writes w.
  predicate Does(p: Prog, e: Evt, gone: bool, e': Evt, w: seq<Write>) {
    Execute(p, e, gone).0 == e' && Execute(p, e, gone).1 == w
  }

  // What the goroutines' ends come to.

  lemma WakeEnd(e: Evt, gone: bool)
    ensures Does(Wake(End), e, gone, e.(requestDone := e.requestDone + 1), [])
    ensures Does(SendResponse(End), e, gone, e.(responseDone := e.responseDone + 1), [])
  {
    assert Execute(End, Effect(Wake(End), e), gone) == (Effect(Wake(End), e), []);
    assert Execute(End, Effect(SendResponse(End), e), gone) == (Effect(SendResponse(End), e), []);
  }

  lemma OneMore(p: Prog, e: Evt, gone: bool)
    requires p != End
    ensures var r := Execute(Rest(p, e, gone), Effect(p, e), gone); Does(p, e, gone, r.0, Emits(p) + r.1)
  {}

  class FetchEvent {
    var http: Option<Id>
    var ioContext: Option<Id>
    var fetcher: Option<Id>
    var headers: Option<Id>
    var body: Option<Id>
    var kv: Option<Id>
    var skipNext: bool
    var useRespondWith: bool
    var responseSent: bool
    var requestDone: nat
    var responseDone: nat
    // what the writer of the current request has been given
    var trace: seq<Write>

    constructor ()
      ensures View() == NewEvt && trace == []
    {
      http, ioContext, fetcher, headers, body, kv := None, None, None, None, None, None;
      skipNext, useRespondWith, responseSent := false, false, false;
      requestDone, responseDone, trace := 0, 0, [];
    }

    ghost function View(): Evt
      reads this
    {
      Evt(http, ioContext, fetcher, headers, body, kv,
          skipNext, useRespondWith, responseSent, requestDone, responseDone)
    }

    // FetchEventPool.Get and WithHttp
    method WithHttp(c: Id, r: Id)
      modifies this
      ensures View() == old(View()).(ioContext := Some(c), http := Some(r)) && trace == []
    {
      ioContext := Some(c);
      http := Some(r);
      trace := [];
    }

    method Reset()
      modifies this
      ensures View() == old(View()).Reset() && trace == old(trace)
      ensures View() == NewEvt.(requestDone := old(requestDone), responseDone := old(responseDone))
    {
      http := None;
      fetcher := None;
      skipNext := false;
      useRespondWith := false;
      responseSent := false;
      headers, body := None, None;
      kv := None;
      ioContext := None;
    }

    // A second respondWith, or one without an argument, is a TypeError.
    method RespondWith(given: bool) returns (thrown: bool)
      modifies this
      ensures thrown <==> !given || old(useRespondWith)
      ensures View() == if thrown then old(View()) else old(View()).(useRespondWith := true, skipNext := true)
      ensures trace == old(trace)
    {
      if !given { return true; }
      if useRespondWith { return true; }
      useRespondWith := true;
      skipNext := true;
      return false;
    }

    method Wake()
      modifies `requestDone
      ensures requestDone == old(requestDone) + 1
    {
      requestDone := requestDone + 1;
    }

    method WriteHeader(code: int)
      modifies `trace
      ensures trace == old(trace) + [Status(code)]
    {
      trace := trace + [Status(code)];
    }

    method WriteBody()
      modifies `trace
      ensures trace == old(trace) + [Body]
    {
      trace := trace + [Body];
    }

    method ExceptionNow(gone: bool)
      modifies this
      ensures View() == Execute(Exception, old(View()), gone).0
      ensures trace == old(trace) + Execute(Exception, old(View()), gone).1
      ensures old(responseSent) ==> View() == old(View()) && trace == old(trace)
      ensures !old(responseSent) ==>
        && View() == old(View()).(responseSent := true, requestDone := old(requestDone) + 1)
        && trace == old(trace) + (if gone then [] else [Status(500), Body])
    {
      ghost var e := View();
      ExceptionMeans(e, gone);
      if responseSent { return; }
      if !gone {
        WriteHeader(500);
        WriteBody();
      }
      responseSent := true;
      Wake();
    }

    // The goroutine of the request resolver.
    method ResolveRequest(gone: bool)
      requires skipNext ==> responseDone > 0
      modifies this
      ensures View() == Execute(Resolver, old(View()), gone).0
      ensures trace == old(trace) + Execute(Resolver, old(View()), gone).1
      ensures View() == if old(skipNext)
        then old(View()).(responseDone := old(responseDone) - 1, requestDone := old(requestDone) + 1)
        else old(View()).(responseSent := true, requestDone := old(requestDone) + 1)
      ensures trace == old(trace) + (if old(skipNext) then [] else [Next])
    {
      ResolverMeans(View(), gone);
      if skipNext {
        responseDone := responseDone - 1;
      } else {
        responseSent := true;
        trace := trace + [Next];
      }
      Wake();
    }

    // The goroutine of the request rejector, from the test of responseSent on.
    method FailRequest(gone: bool)
      modifies this
      ensures View() == Execute(Fail, old(View()), gone).0
      ensures trace == old(trace) + Execute(Fail, old(View()), gone).1
      ensures View() == old(View()).(responseSent := true, requestDone := old(requestDone) + 1)
      ensures trace == old(trace) + (if old(responseSent) then [] else [Status(500), Body])
    {
      FailMeans(View(), gone);
      if responseSent {
        Wake();
        return;
      }
      responseSent := true;
      WriteHeader(500);
      WriteBody();
      Wake();
    }

    // The goroutine of the request rejector.
    method RejectRequest(gone: bool)
      requires skipNext ==> responseDone > 0
      modifies this
      ensures View() == Execute(Rejector, old(View()), gone).0
      ensures trace == old(trace) + Execute(Rejector, old(View()), gone).1
      ensures View() == old(View()).(
        responseDone := if old(skipNext) then old(responseDone) - 1 else old(responseDone),
        responseSent := true, requestDone := old(requestDone) + 1)
      ensures trace == old(trace) + (if old(responseSent) then [] else [Status(500), Body])
    {
      RejectorMeans(View(), gone);
      if skipNext { responseDone := responseDone - 1; }
      ghost var e := View();
      FailRequest(gone);
      assert View() == Execute(Fail, e, gone).0;
    }

    // The response resolver, with the goroutine that copies the body.
    method ResolveResponse(a: Answer) returns (thrown: bool)
      modifies this
      ensures thrown <==> a.Unreadable?
      ensures thrown ==> View() == old(View()) && trace == old(trace)
      ensures !thrown ==> View() == old(View()).(responseSent := true, responseDone := old(responseDone) + 1)
      ensures a.NotResponse? ==> trace == old(trace) + [Status(204)]
      ensures a.NoBody? || a.TextBody? || a.ReaderBody? ==> trace == old(trace) + [Status(a.status), Body]
    {
      if a.NotResponse? {
        responseSent := true;
        WriteHeader(204);
        responseDone := responseDone + 1;
        return false;
      }
      if a.Unreadable? { return true; }
      responseSent := true;
      WriteHeader(a.status);
      WriteBody();
      responseDone := responseDone + 1;
      return false;
    }

    // The response rejector.
    method RejectResponse(undefined: bool)
      modifies this
      ensures View() == if undefined then old(View())
        else old(View()).(responseSent := true, responseDone := old(responseDone) + 1)
      ensures trace == old(trace) + (if undefined then [Status(500)] else [Status(500), Body])
    {
      WriteHeader(500);
      if undefined { return; }
      WriteBody();
      responseSent := true;
      responseDone := responseDone + 1;
    }

    // The wrapper of respondWith's promise and its two callbacks do what the
    // responder of the outcome does.
    method SettleResponse(p: Settled<Answer>, gone: bool) returns (ghost calls: seq<Callback>)
      modifies this
      ensures View() == Execute(Responder(OutcomeOf(p)), old(View()), gone).0
      ensures trace == old(trace) + Execute(Responder(OutcomeOf(p)), old(View()), gone).1
      ensures calls == Callbacks(p, p.Fulfilled? && p.value.Unreadable?)
        == if p.RejectedWith? then [OnReject] else if p.value.Unreadable? then [OnResolve, OnReject] else [OnResolve]
      ensures View() == if p == RejectedWith(true) then old(View())
        else old(View()).(responseSent := true, responseDone := old(responseDone) + 1)
      ensures p.Fulfilled? ==> (trace == old(trace) + (
        match p.value
        case NotResponse => [Status(204)]
        case NoBody(n) => [Status(n), Body]
        case TextBody(n) => [Status(n), Body]
        case ReaderBody(n) => [Status(n), Body]
        case Unreadable(_) => [Status(500), Body]))
      ensures p.RejectedWith? ==> trace == old(trace) + (if p.undefined then [Status(500)] else [Status(500), Body])
    {
      ResponderMeans(OutcomeOf(p), View(), gone);
      match p {
        case Fulfilled(a) =>
          var thrown := ResolveResponse(a);
          if thrown { RejectResponse(false); }
          calls := [OnResolve] + (if thrown then [OnReject] else []);
        case RejectedWith(undefined) =>
          RejectResponse(undefined);
          calls := [OnReject];
      }
    }

    // Wait receives the token; it is called once the channel holds one.
    method Wait()
      requires requestDone > 0
      modifies `requestDone
      ensures requestDone == old(requestDone) - 1
    {
      requestDone := requestDone - 1;
    }

    // The handler's promise settles.
    method SettleRequest(ok: bool, gone: bool)
      requires if skipNext then responseSent && responseDone > 0 else !responseSent
      modifies this
      ensures old(skipNext) ==>
        && trace == old(trace)
        && View() == old(View()).(responseDone := old(responseDone) - 1, requestDone := old(requestDone) + 1)
      ensures !old(skipNext) ==>
        && trace == old(trace) + (if ok then [Next] else [Status(500), Body])
        && View() == old(View()).(responseSent := true, requestDone := old(requestDone) + 1)
    {
      RequestMeans(ok, View(), gone);
      assert trace + [] == trace;
      if ok { ResolveRequest(gone); } else { RejectRequest(gone); }
    }

    // A request from the pool and back, with nothing between its goroutines: it is
    // answered once, by the outcome its script calls for, and the event goes back
    // as a new one.  (A promise rejected with undefined would leave it waiting for ever.)
    method Serve(c: Id, r: Id, script: Script, gone: bool)
      requires View() == NewEvt && (script.Responds? ==> script.p != RejectedWith(true))
      modifies this
      ensures View() == NewEvt
      ensures script.Throws? ==> trace == if gone then [] else [Status(500), Body]
      ensures script.Passes? ==> trace == if script.ok then [Next] else [Status(500), Body]
      ensures script.Responds? && script.p.RejectedWith? ==> trace == [Status(500), Body]
      ensures script.Responds? && script.p.Fulfilled? ==> (trace ==
        match script.p.value
        case NotResponse => [Status(204)]
        case NoBody(n) => [Status(n), Body]
        case TextBody(n) => [Status(n), Body]
        case ReaderBody(n) => [Status(n), Body]
        case Unreadable(_) => [Status(500), Body])
    {
      WithHttp(c, r);
      match script {
        case Throws =>
          ExceptionMeans(View(), gone);
          ExceptionNow(gone);
        case Passes(ok) =>
          SettleRequest(ok, gone);
        case Responds(p, ok) =>
          var _ := RespondWith(true);
          ResponderMeans(OutcomeOf(p), View(), gone);
          var _ := SettleResponse(p, gone);
          SettleRequest(ok, gone);
      }
      Wait();
      Reset();
    }
  }

  // What the script of a request does: throws at once, returns a promise that resolves
  // or rejects, or calls respondWith before it does that.
  datatype Script = Throws | Passes(ok: bool) | Responds(p: Settled<Answer>, ok: bool)

  // The programs, executed.

  lemma ExceptionMeans(e: Evt, gone: bool)
    ensures if e.responseSent then Does(Exception, e, gone, e, [])
            else Does(Exception, e, gone, e.(responseSent := true, requestDone := e.requestDone + 1),
                      if gone then [] else [Status(500), Body])
  {
    var m := Mark(Wake(End));
    WakeEnd(e.(responseSent := true), gone);
    OneMore(m, e, gone);
    OneMore(WriteBody(m), e, gone);
    OneMore(WriteStatus(500, WriteBody(m)), e, gone);
    OneMore(IfGone(m, WriteStatus(500, WriteBody(m))), e, gone);
    OneMore(Exception, e, gone);
    assert Execute(End, e, gone) == (e, []);
  }

  lemma ResolverMeans(e: Evt, gone: bool)
    requires e.skipNext ==> e.responseDone > 0
    ensures if e.skipNext
            then Does(Resolver, e, gone, e.(responseDone := e.responseDone - 1, requestDone := e.requestDone + 1), [])
            else Does(Resolver, e, gone, e.(responseSent := true, requestDone := e.requestDone + 1), [Next])
  {
    OneMore(Resolver, e, gone);
    if e.skipNext {
      OneMore(AwaitResponse(Wake(End)), e, gone);
      WakeEnd(e.(responseDone := e.responseDone - 1), gone);
    } else {
      OneMore(Mark(ServeNext(Wake(End))), e, gone);
      OneMore(ServeNext(Wake(End)), e.(responseSent := true), gone);
      WakeEnd(e.(responseSent := true), gone);
    }
  }

  lemma FailMeans(e: Evt, gone: bool)
    ensures if e.responseSent then Does(Fail, e, gone, e.(requestDone := e.requestDone + 1), [])
            else Does(Fail, e, gone, e.(responseSent := true, requestDone := e.requestDone + 1), [Status(500), Body])
  {
    OneMore(Fail, e, gone);
    WakeEnd(e, gone);
    var sent := e.(responseSent := true);
    WakeEnd(sent, gone);
    OneMore(WriteBody(Wake(End)), sent, gone);
    OneMore(WriteStatus(500, WriteBody(Wake(End))), sent, gone);
    OneMore(Mark(WriteStatus(500, WriteBody(Wake(End)))), e, gone);
  }

  // The rejector takes the token, if respondWith was used, and then may fail.
  lemma RejectorMeans(e: Evt, gone: bool)
    requires e.skipNext ==> e.responseDone > 0
    ensures var f := Execute(Fail, if e.skipNext then e.(responseDone := e.responseDone - 1) else e, gone);
      Does(Rejector, e, gone, f.0, f.1)
  {
    OneMore(Rejector, e, gone);
    if e.skipNext { OneMore(AwaitResponse(Fail), e, gone); }
  }

  // Either way the handler's promise settles.
  lemma RequestMeans(ok: bool, e: Evt, gone: bool)
    requires if e.skipNext then e.responseSent && e.responseDone > 0 else !e.responseSent
    ensures var p := if ok then Resolver else Rejector;
      if e.skipNext then Does(p, e, gone, e.(responseDone := e.responseDone - 1, requestDone := e.requestDone + 1), [])
      else Does(p, e, gone, e.(responseSent := true, requestDone := e.requestDone + 1),
                if ok then [Next] else [Status(500), Body])
  {
    if ok {
      ResolverMeans(e, gone);
    } else {
      RejectorMeans(e, gone);
      FailMeans(if e.skipNext then e.(responseDone := e.responseDone - 1) else e, gone);
    }
  }

  // What the response writes, and whether it is sent.
  function Told(o: Outcome): seq<Write> {
    match o
    case Copied(code) => [Status(code), Body]
    case NoContent => [Status(204)]
    case Errored => [Status(500), Body]
    case ErroredUndefined => [Status(500)]
  }

  lemma ResponderMeans(o: Outcome, e: Evt, gone: bool)
    ensures Does(Responder(o), e, gone,
                 if o.ErroredUndefined? then e else e.(responseSent := true, responseDone := e.responseDone + 1),
                 Told(o))
  {
    var d, marked := SendResponse(End), e.(responseSent := true);
    WakeEnd(marked, gone);
    OneMore(Responder(o), e, gone);
    match o {
      case Copied(code) =>
        OneMore(WriteBody(d), marked, gone);
        OneMore(WriteStatus(code, WriteBody(d)), marked, gone);
      case NoContent =>
        OneMore(WriteStatus(204, d), marked, gone);
      case Errored =>
        OneMore(Mark(d), e, gone);
        OneMore(WriteBody(Mark(d)), e, gone);
      case ErroredUndefined =>
        assert Execute(End, e, gone) == (e, []);
    }
  }

  // With nothing between them, a request's goroutines find what they wait for: an
  // accepted response is sent before the resolver waits for it, and the request ends
  // with one token in requestDone and none in responseDone.
  lemma ResponseThenRequest(o: Outcome, ok: bool, e: Evt, gone: bool)
    requires e.skipNext && !o.ErroredUndefined? && e.requestDone == 0 && e.responseDone == 0
    ensures var a := Execute(Responder(o), e, gone).0; var p := if ok then Resolver else Rejector;
      && Unblocked(Responder(o), e, gone) && Unblocked(p, a, gone)
      && Does(p, a, gone, e.(responseSent := true, requestDone := 1), [])
  {
    ResponderMeans(o, e, gone);
    var a := Execute(Responder(o), e, gone).0;
    if ok { ResolverMeans(a, gone); } else { RejectorMeans(a, gone); FailMeans(a.(responseDone := 0), gone); }
    ResponderUnblocked(o, e, gone);
    TakerUnblocked(ok, a, gone);
  }

  lemma ResponderUnblocked(o: Outcome, e: Evt, gone: bool)
    requires e.responseDone == 0
    ensures Unblocked(Responder(o), e, gone)
  {
    var d, sent := SendResponse(End), e.(responseSent := true);
    assert Unblocked(d, e, gone) && Unblocked(d, sent, gone) && Unblocked(Mark(d), e, gone);
    assert Unblocked(WriteBody(d), sent, gone) && Unblocked(WriteBody(Mark(d)), e, gone);
  }

  lemma TakerUnblocked(ok: bool, e: Evt, gone: bool)
    requires e.skipNext && e.responseSent && e.responseDone == 1 && e.requestDone == 0
    ensures Unblocked(if ok then Resolver else Rejector, e, gone)
  {
    var d := e.(responseDone := 0);
    assert Unblocked(Wake(End), d, gone);
    assert Unblocked(Fail, d, gone);
    assert Unblocked(AwaitResponse(Wake(End)), e, gone) && Unblocked(AwaitResponse(Fail), e, gone);
  }
}
