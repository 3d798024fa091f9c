// RequestContext and contextResponse, field by field; each method does to the fields
// what Express says of the state.
module ExpressContext {
  import opened Base
  import opened HttpHeaders
  import E = Express

  // The http.ResponseWriter, and what has reached it.
  class ResponseWriter {
    var header: Header
    var trace: seq<E.Emit>

    constructor (h: Header)
      ensures header == h && trace == []
    {
      header, trace := h, [];
    }

    method WriteHeader(code: int)
      modifies `trace
      ensures trace == old(trace) + [E.Commit(code, header)]
    {
      trace := trace + [E.Commit(code, header)];
    }

    method Write(content: string)
      modifies `trace
      ensures trace == old(trace) + [E.Write(content)]
    {
      trace := trace + [E.Write(content)];
    }

    // The next handler, given this writer.
    method ServeNext()
      modifies `trace
      ensures trace == old(trace) + [E.ServeNext]
    {
      trace := trace + [E.ServeNext];
    }
  }

  class RequestContext {
    var httpResp: ResponseWriter?
    var responseProxy: ContextResponse?
    var requestDone: nat
    var nextInvoked: bool
    var responseSent: bool
    var statusSet: bool

    constructor ()
      ensures responseProxy == null && httpResp == null && requestDone == 0
      ensures !nextInvoked && !responseSent && !statusSet
    {
      httpResp, responseProxy, requestDone := null, null, 0;
      nextInvoked, responseSent, statusSet := false, false, false;
    }

    // A request is in progress, and the proxy, if made, is this context's.
    ghost predicate Bound()
      reads this, responseProxy
    {
      httpResp != null && (responseProxy != null ==> responseProxy.ctx == this)
    }

    ghost function View(): E.State
      requires Bound()
      reads this, responseProxy, httpResp
    {
      E.State(nextInvoked, responseSent, statusSet, if responseProxy == null then 204 else responseProxy.statusCode,
              responseProxy != null, requestDone, httpResp.header, httpResp.trace)
    }

    method WithHttp(w: ResponseWriter)
      modifies this
      ensures httpResp == w
      ensures unchanged(`responseProxy, `requestDone, `nextInvoked, `responseSent, `statusSet)
    {
      httpResp := w;
    }

    // Get("res")
    method Res() returns (res: ContextResponse)
      requires Bound()
      modifies `responseProxy
      ensures Bound() && httpResp == old(httpResp) && responseProxy == res
      ensures View() == E.Touch(old(View()))
      ensures responseProxy.statusCode == if old(responseProxy) == null then 204 else old(responseProxy.statusCode)
      ensures old(responseProxy) != null ==> res == old(responseProxy)
      ensures old(responseProxy) == null ==> fresh(res)
    {
      if responseProxy == null {
        responseProxy := new ContextResponse(this);
      }
      res := responseProxy;
    }

    method Next()
      requires Bound()
      modifies this, httpResp
      ensures Bound() && httpResp == old(httpResp) && responseProxy == old(responseProxy)
      ensures View() == E.Next(old(View()))
      ensures old(nextInvoked) ==> View() == old(View())
      ensures !old(nextInvoked) ==>
        View() == old(View()).(nextInvoked := true, responseSent := true, trace := old(httpResp.trace) + [E.ServeNext])
    {
      if nextInvoked { return; }
      nextInvoked := true;
      responseSent := true;
      httpResp.ServeNext();
    }

    method Wake()
      modifies `requestDone
      ensures requestDone == old(requestDone) + 1
    {
      requestDone := requestDone + 1;
    }

    // Wait receives the token; it is called once the channel holds one.
    method Wait()
      requires requestDone > 0
      modifies `requestDone
      ensures requestDone == old(requestDone) - 1
    {
      requestDone := requestDone - 1;
    }

    method Exception(report: string, gone: bool)
      requires Bound()
      modifies this, httpResp
      ensures Bound() && httpResp == old(httpResp) && responseProxy == old(responseProxy)
      ensures View() == E.Exception(old(View()), report, gone)
        == old(View()).(responseSent := true, requestDone := old(requestDone) + 1, trace := httpResp.trace)
      ensures httpResp.trace == old(httpResp.trace) +
        (if gone then [] else [E.Commit(500, httpResp.header), E.Write(report)])
    {
      if !gone {
        httpResp.WriteHeader(500);
        httpResp.Write(report);
      }
      responseSent := true;
      Wake();
    }

    // The resolver; `crashed` is the nil dereference.
    method Resolve(gone: bool) returns (crashed: bool)
      requires Bound()
      modifies this, httpResp
      ensures Bound() && httpResp == old(httpResp) && responseProxy == old(responseProxy)
      ensures crashed <==> E.Resolve(old(View()), gone).None?
      ensures !crashed ==> View() == E.Resolve(old(View()), gone).value
      ensures var idle := !old(nextInvoked) && !old(responseSent) && !gone && !old(statusSet);
        && (crashed <==> idle && old(responseProxy) == null)
        && (crashed || httpResp.trace == old(httpResp.trace) +
              (if idle then [E.Commit(old(View()).statusCode, httpResp.header)] else []))
      ensures !crashed ==>
        View() == old(View()).(responseSent := old(responseSent) || !old(nextInvoked),
                               requestDone := old(requestDone) + 1, trace := httpResp.trace)
    {
      crashed := false;
      if nextInvoked || responseSent {
        Wake();
        return;
      }
      if !gone {
        if !(statusSet || responseSent) {
          if responseProxy == null { return true; }
          httpResp.WriteHeader(responseProxy.statusCode);
        }
      }
      responseSent := true;
      Wake();
    }

    method Reject(silent: bool, report: string, gone: bool)
      requires Bound()
      modifies this, httpResp
      ensures Bound() && httpResp == old(httpResp) && responseProxy == old(responseProxy)
      ensures View() == E.Reject(old(View()), silent, report, gone)
        == old(View()).(responseSent := old(responseSent) || !old(nextInvoked),
                        requestDone := old(requestDone) + 1, trace := httpResp.trace)
      ensures httpResp.trace == old(httpResp.trace) +
        (if old(nextInvoked) || old(responseSent) || gone then []
         else if silent then [E.Commit(500, httpResp.header)]
         else [E.Commit(500, httpResp.header), E.Write(report)])
    {
      if nextInvoked || responseSent {
        Wake();
        return;
      }
      if !gone {
        httpResp.WriteHeader(500);
        if !silent { httpResp.Write(report); }
      }
      responseSent := true;
      Wake();
    }

    // reset, which also drops the writer.
    method Reset()
      requires Bound()
      modifies this, responseProxy
      ensures httpResp == null && responseProxy == old(responseProxy) && requestDone == old(requestDone)
      ensures !nextInvoked && !responseSent && !statusSet
      ensures responseProxy != null ==> responseProxy.statusCode == 204
    {
      httpResp := null;
      nextInvoked := false;
      responseSent := false;
      statusSet := false;
      if responseProxy != null { responseProxy.Reset(); }
    }

    // One call of the script.
    method Perform(c: E.Call) returns (thrown: bool)
      requires Bound()
      modifies this, responseProxy, httpResp
      ensures Bound() && httpResp == old(httpResp)
      ensures responseProxy == old(responseProxy) || fresh(responseProxy)
      ensures (View(), thrown) == E.Do(old(View()), c)
    {
      if c.CallNext? {
        Next();
        return false;
      }
      var res := Res();
      match c {
        case CallRead => thrown := false;
        case CallStatus(a) => thrown := res.Status(a);
        case CallJson(b) => thrown := res.Json(b);
        case CallSend(b) => thrown := res.Send(b);
        case CallEnd(b) => thrown := res.End(b);
        case CallSet(name, v) => thrown := res.Set(name, v);
        case CallSetMany(fs) => thrown := res.SetMany(fs);
        case CallNext =>
      }
    }

    // All of them, one after another.
    method PerformAll(calls: seq<E.Call>)
      requires Bound()
      modifies this, responseProxy, httpResp
      ensures Bound() && httpResp == old(httpResp)
      ensures responseProxy == old(responseProxy) || fresh(responseProxy)
      ensures View() == E.Run(old(View()), calls)
    {
      var i := 0;
      while i < |calls|
        invariant i <= |calls| && Bound() && httpResp == old(httpResp)
        invariant responseProxy == old(responseProxy) || fresh(responseProxy)
        invariant View() == E.Run(old(View()), calls[..i])
      {
        var _ := Perform(calls[i]);
        E.SplitAt(old(View()), calls, i);
        i := i + 1;
      }
      assert calls[..i] == calls;
    }

    // The handler's ending, in the goroutine or callback that answers it.
    method Conclude(end: E.Ending) returns (crashed: bool)
      requires Bound()
      modifies this, httpResp
      ensures Bound() && httpResp == old(httpResp) && responseProxy == old(responseProxy)
      ensures crashed <==> E.Finish(old(View()), end).None?
      ensures !crashed ==> View() == E.Finish(old(View()), end).value
    {
      crashed := false;
      match end {
        case Resolved(gone) => crashed := Resolve(gone);
        case Rejected(silent, report, gone) => Reject(silent, report, gone);
        case Threw(report, gone) => Exception(report, gone);
      }
    }

    // In the pool.
    ghost predicate Idle()
      reads this, responseProxy
    {
      && httpResp == null && requestDone == 0 && !nextInvoked && !responseSent && !statusSet
      && (responseProxy != null ==> responseProxy.ctx == this && responseProxy.statusCode == 204)
    }

    // A request from its pool and back: WithHttp, the handler's calls, its ending, Wait
    // and Reset.
    method Serve(q: E.Request, w: ResponseWriter) returns (crashed: bool)
      requires Idle() && w.header == q.header && w.trace == []
      modifies this, responseProxy, w
      ensures responseProxy == old(responseProxy) || fresh(responseProxy)
      ensures crashed <==> E.Serve(E.Fresh(map[], old(responseProxy) != null), q).None?
      ensures !crashed ==>
        var p := E.Serve(E.Fresh(map[], old(responseProxy) != null), q).value;
        Idle() && p == (E.Fresh(map[], responseProxy != null), w.trace)
    {
      ghost var st := E.Fresh(q.header, responseProxy != null);
      assert E.Fresh(map[], responseProxy != null).(header := q.header) == st;
      WithHttp(w);
      assert View() == st;
      PerformAll(q.calls);
      crashed := Conclude(q.end);
      E.OneWake(q.header, old(responseProxy) != null, q.calls, q.end);
      if !crashed { Leave(); }
    }

    // The request goroutine is woken, and the context goes back.
    method Leave()
      requires Bound() && requestDone == 1
      modifies this, responseProxy
      ensures Idle() && responseProxy == old(responseProxy)
    {
      Wait();
      Reset();
    }

    // With a writer of its own, and a handler that does not crash.
    method ServeNew(q: E.Request) returns (out: seq<E.Emit>)
      requires Idle() && !E.Crashes(responseProxy != null, q.calls, q.end)
      modifies this, responseProxy
      ensures Idle() && (responseProxy == old(responseProxy) || fresh(responseProxy))
      ensures out == E.AnswerTo(q)
    {
      E.ServedOutput(responseProxy != null, q);
      var w := new ResponseWriter(q.header);
      var _ := Serve(q, w);
      out := w.trace;
    }

    // One context serves requests one after another: each is answered as its own calls
    // and ending say.
    method ServeAll(qs: seq<E.Request>) returns (outs: seq<seq<E.Emit>>)
      requires Idle() && E.NoneCrashes(qs)
      modifies this, responseProxy
      ensures Idle() && outs == E.AnswersTo(qs)
    {
      outs := [];
      var i := 0;
      while i < |qs|
        invariant i <= |qs| && Idle() && (responseProxy == old(responseProxy) || fresh(responseProxy))
        invariant outs == E.AnswersTo(qs[..i])
      {
        var out := ServeNew(qs[i]);
        MapLast(qs, E.AnswerTo, i);
        outs := outs + [out];
        i := i + 1;
      }
      assert qs[..i] == qs;
    }
  }

  class ContextResponse {
    const ctx: RequestContext
    var statusCode: int

    constructor (c: RequestContext)
      ensures ctx == c && statusCode == 204
    {
      ctx, statusCode := c, 204;
    }

    ghost predicate Mine()
      reads this, ctx, ctx.responseProxy
    {
      ctx.Bound() && ctx.responseProxy == this
    }

    // The header as it stands is committed under the accepted status, or 200, and then
    // comes the body.
    ghost predicate Sends(st: E.State, body: seq<E.Emit>)
      requires Mine()
      reads this, ctx, ctx.responseProxy, ctx.httpResp
    {
      var code := if st.statusSet then st.statusCode else 200;
      && ctx.View() == st.(statusSet := true, responseSent := true,
                           header := ctx.httpResp.header, trace := ctx.httpResp.trace)
      && ctx.httpResp.trace == st.trace + ([E.Commit(code, ctx.httpResp.header)] + body)
    }

    method Reset()
      modifies this, ctx`statusSet
      ensures statusCode == 204 && !ctx.statusSet
    {
      statusCode := 204;
      ctx.statusSet := false;
    }

    method Status(a: E.StatusArg) returns (thrown: bool)
      requires Mine()
      modifies this, ctx`statusSet
      ensures Mine() && ctx.httpResp == old(ctx.httpResp)
      ensures (ctx.View(), thrown) == E.Status(old(ctx.View()), a)
      ensures thrown <==> old(ctx.responseSent) || !a.Code? || !E.KnownStatus(a.code)
      ensures ctx.View() == if thrown then old(ctx.View())
        else old(ctx.View()).(statusCode := a.code, statusSet := true)
    {
      if ctx.responseSent { return true; }
      match a {
        case Missing => return true;
        case NotANumber => return true;
        case Code(code) =>
          if !E.KnownStatus(code) { return true; }
          statusCode := code;
          ctx.statusSet := true;
          return false;
      }
    }

    method SendHeaders()
      requires Mine()
      modifies ctx`statusSet, ctx`responseSent, ctx.httpResp`trace
      ensures Mine() && ctx.httpResp == old(ctx.httpResp)
      ensures ctx.View() == E.SendHeaders(old(ctx.View()))
        == old(ctx.View()).(statusSet := true, responseSent := true, trace := ctx.httpResp.trace)
      ensures ctx.httpResp.trace == old(ctx.httpResp.trace) +
        [E.Commit(if old(ctx.statusSet) then statusCode else 200, ctx.httpResp.header)]
    {
      var w := ctx.httpResp;
      if ctx.statusSet {
        w.WriteHeader(statusCode);
      } else {
        w.WriteHeader(200);
        ctx.statusSet := true;
      }
      ctx.responseSent := true;
    }

    method Json(a: E.Arg) returns (thrown: bool)
      requires Mine()
      modifies ctx`statusSet, ctx`responseSent, ctx.httpResp
      ensures Mine() && ctx.httpResp == old(ctx.httpResp)
      ensures (ctx.View(), thrown) == E.Json(old(ctx.View()), a)
      ensures thrown <==> old(ctx.responseSent)
      ensures thrown ==> ctx.View() == old(ctx.View())
      ensures !thrown ==> Retyped(old(ctx.httpResp.header), ctx.httpResp.header, "application/json")
      ensures !thrown ==>
        Sends(old(ctx.View()), [E.Write(if a.Undefined? then "{}" else if a.Null? then "null" else a.json)])
    {
      if ctx.responseSent { return true; }
      var w := ctx.httpResp;
      PutRetypes(w.header, "application/json");
      w.header := Put(w.header, "content-type", "application/json");
      var content := match a case Undefined => "{}" case Null => "null" case _ => a.json;
      SendHeaders();
      w.Write(content);
      return false;
    }

    method Send(a: E.Arg) returns (thrown: bool)
      requires Mine()
      modifies ctx`statusSet, ctx`responseSent, ctx.httpResp
      ensures Mine() && ctx.httpResp == old(ctx.httpResp)
      ensures (ctx.View(), thrown) == E.Send(old(ctx.View()), a)
      ensures thrown <==> old(ctx.responseSent)
      ensures thrown || a.Undefined? ==> ctx.View() == old(ctx.View())
      ensures !thrown && a.Text? ==>
        && Sends(old(ctx.View()), [E.Write(a.text)])
        && var so := Values(old(ctx.httpResp.header), "content-type");
        if so != [] && so[0] != "" then ctx.httpResp.header == old(ctx.httpResp.header)
        else Retyped(old(ctx.httpResp.header), ctx.httpResp.header, "text/html")
      ensures !thrown && a.Plain? ==>
        Sends(old(ctx.View()), [E.Write("")]) && ctx.httpResp.header == old(ctx.httpResp.header)
      ensures !thrown && (a.Null? || a.Structured?) ==>
        && Sends(old(ctx.View()), [E.Write(if a.Null? then "null" else a.json)])
        && Retyped(old(ctx.httpResp.header), ctx.httpResp.header, "application/json")
    {
      if ctx.responseSent { return true; }
      if a.Undefined? { return false; }
      PutRetypes(ctx.httpResp.header, "text/html");
      var w, content := ctx.httpResp, "";
      if a.Null? {
        thrown := Json(a);
        return;
      }
      match a {
        case Text(text, _) =>
          if Get(w.header, "content-type") == "" { w.header := Put(w.header, "content-type", "text/html"); }
          content := text;
        case Structured(_) =>
          thrown := Json(a);
          return;
        case _ =>
      }
      SendHeaders();
      w.Write(content);
      return false;
    }

    method End(a: E.Arg) returns (thrown: bool)
      requires Mine()
      modifies ctx`statusSet, ctx`responseSent, ctx.httpResp`trace
      ensures Mine() && ctx.httpResp == old(ctx.httpResp)
      ensures (ctx.View(), thrown) == E.End(old(ctx.View()), a)
      ensures thrown <==> old(ctx.responseSent)
      ensures thrown ==> ctx.View() == old(ctx.View())
      ensures !thrown ==>
        && Sends(old(ctx.View()), if a.Text? then [E.Write(a.text)] else [])
        && ctx.httpResp.header == old(ctx.httpResp.header)
    {
      if ctx.responseSent { return true; }
      var w := ctx.httpResp;
      SendHeaders();
      if a.Text? { w.Write(a.text); }
      return false;
    }

    // set(field, value)
    method Set(name: string, v: Value) returns (thrown: bool)
      requires Mine()
      modifies ctx.httpResp`header
      ensures Mine() && ctx.httpResp == old(ctx.httpResp)
      ensures (ctx.View(), thrown) == E.SetOne(old(ctx.View()), name, v)
      ensures thrown <==> v.slice && ToLower(name) == "content-type"
      ensures ctx.View() == old(ctx.View()).(header := ctx.httpResp.header)
      ensures thrown ==> ctx.httpResp.header == old(ctx.httpResp.header)
      ensures !thrown ==>
        var so := Values(old(ctx.httpResp.header), name);
        && Values(ctx.httpResp.header, name) == (if so == [] || so[0] == "" then [v.text] else so + [v.text])
        && forall n :: Canonical(n) != Canonical(name) ==>
             Values(ctx.httpResp.header, n) == Values(old(ctx.httpResp.header), n)
    {
      if ToLower(name) == "content-type" && v.slice { return true; }
      var w := ctx.httpResp;
      if Get(w.header, name) == "" {
        w.header := Put(w.header, name, v.text);
      } else {
        w.header := Add(w.header, name, v.text);
      }
      return false;
    }

    // set(object), its fields in the order the map gives them
    method SetMany(fields: seq<Field>) returns (thrown: bool)
      requires Mine()
      modifies ctx.httpResp`header
      ensures Mine() && ctx.httpResp == old(ctx.httpResp)
      ensures (ctx.View(), thrown) == E.SetMany(old(ctx.View()), fields)
      ensures thrown <==> exists i :: 0 <= i < |fields| && Refused(fields[i].name, fields[i].value)
      ensures ctx.View() == old(ctx.View()).(header := ctx.httpResp.header)
      ensures !thrown ==> forall n ::
        Values(ctx.httpResp.header, n) == SetValues(Values(old(ctx.httpResp.header), n), TextsOf(fields, n))
    {
      ghost var h := ctx.httpResp.header;
      SetFieldsEach(h, fields);
      var i := 0;
      while i < |fields|
        invariant 0 <= i <= |fields| && Mine() && ctx.httpResp == old(ctx.httpResp)
        invariant ctx.View() == old(ctx.View()).(header := ctx.httpResp.header)
        invariant SetFields(h, fields) == SetFields(ctx.httpResp.header, fields[i..])
      {
        var refused := Set(fields[i].name, fields[i].value);
        if refused {
          assert Refused(fields[i].name, fields[i].value);
          return true;
        }
        assert fields[i..][1..] == fields[i + 1..];
        i := i + 1;
      }
      return false;
    }
  }
}
