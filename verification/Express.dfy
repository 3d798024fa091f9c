// The Express response of one request: what a handler's calls on `res` and `next`,
// and the way the handler ends, put on the wire.
module Express {
  import opened Base
  import opened HttpHeaders

  // What reaches the ResponseWriter: WriteHeader with the header as it stands,
  // Write, and the next handler's ServeHTTP.
  datatype Emit = Commit(code: int, header: Header) | Write(content: string) | ServeNext

  // RequestContext and its contextResponse (if it has been made), with the header
  // and the output of the ResponseWriter.
  datatype State = State(
    nextInvoked: bool,
    responseSent: bool,
    statusSet: bool,
    statusCode: int,
    proxy: bool,
    requestDone: nat,
    header: Header,
    trace: seq<Emit>)

  // The codes that http.StatusText has a text for.
  predicate KnownStatus(code: int) {
    || 100 <= code <= 103 || 200 <= code <= 208 || code == 226
    || 300 <= code <= 305 || 307 <= code <= 308
    || 400 <= code <= 418 || 421 <= code <= 426 || code == 428 || code == 429 || code == 431 || code == 451
    || 500 <= code <= 508 || 510 <= code <= 511
  }

  // They are these.
  lemma KnownCodes(code: int)
    ensures KnownStatus(code) <==> code in {
      100, 101, 102, 103, 200, 201, 202, 203, 204, 205, 206, 207, 208, 226,
      300, 301, 302, 303, 304, 305, 307, 308,
      400, 401, 402, 403, 404, 405, 406, 407, 408, 409, 410, 411, 412, 413, 414, 415, 416, 417, 418,
      421, 422, 423, 424, 425, 426, 428, 429, 431, 451,
      500, 501, 502, 503, 504, 505, 506, 507, 508, 510, 511}
  {}

  datatype StatusArg = Missing | NotANumber | Code(code: int)

  // A body argument: `json` is its JSON form.
  datatype Arg = Undefined | Null | Text(text: string, json: string) | Structured(json: string) | Plain(json: string)

  function JsonOf(a: Arg): string {
    match a
    case Undefined => "{}"
    case Null => "null"
    case _ => a.json
  }

  // The operations: the state after, and whether a TypeError was thrown.

  function Status(st: State, a: StatusArg): (State, bool) {
    if st.responseSent || !a.Code? || !KnownStatus(a.code) then (st, true)
    else (st.(statusCode := a.code, statusSet := true), false)
  }

  function SendHeaders(st: State): State {
    st.(trace := st.trace + [Commit(if st.statusSet then st.statusCode else 200, st.header)],
        statusSet := true, responseSent := true)
  }

  function Print(st: State, content: string): State { st.(trace := st.trace + [Write(content)]) }

  function Json(st: State, a: Arg): (State, bool) {
    if st.responseSent then (st, true)
    else (Print(SendHeaders(st.(header := Put(st.header, "content-type", "application/json"))), JsonOf(a)), false)
  }

  function Html(h: Header): Header {
    if Get(h, "content-type") == "" then Put(h, "content-type", "text/html") else h
  }

  function Send(st: State, a: Arg): (State, bool) {
    if st.responseSent then (st, true)
    else
      match a
      case Undefined => (st, false)
      case Null => Json(st, a)
      case Structured(_) => Json(st, a)
      case Text(text, _) => (Print(SendHeaders(st.(header := Html(st.header))), text), false)
      case Plain(_) => (Print(SendHeaders(st), ""), false)
  }

  function End(st: State, a: Arg): (State, bool) {
    if st.responseSent then (st, true)
    else (if a.Text? then Print(SendHeaders(st), a.text) else SendHeaders(st), false)
  }

  function SetOne(st: State, name: string, v: Value): (State, bool) {
    match SetField(st.header, name, v)
    case None => (st, true)
    case Some(h) => (st.(header := h), false)
  }

  function SetMany(st: State, fs: seq<Field>): (State, bool) {
    (st.(header := SetFields(st.header, fs).0), !SetFields(st.header, fs).1)
  }

  function Next(st: State): State {
    if st.nextInvoked then st
    else st.(nextInvoked := true, responseSent := true, trace := st.trace + [ServeNext])
  }

  function Wake(st: State): State { st.(requestDone := st.requestDone + 1) }

  // The first read of `res` makes the proxy.
  function Touch(st: State): State { if st.proxy then st else st.(proxy := true, statusCode := 204) }

  // How the handler ends: its promise resolves or rejects, or it throws at once;
  // `gone` says that the request context is done by then.
  datatype Ending =
    | Resolved(gone: bool)
    | Rejected(silent: bool, report: string, gone: bool)
    | Threw(report: string, gone: bool)

  // The resolver; None is the nil dereference of a proxy that was never made.
  function Resolve(st: State, gone: bool): Option<State> {
    if st.nextInvoked || st.responseSent then Some(Wake(st))
    else if gone || st.statusSet then Some(Wake(st.(responseSent := true)))
    else if !st.proxy then None
    else Some(Wake(st.(trace := st.trace + [Commit(st.statusCode, st.header)], responseSent := true)))
  }

  function Reject(st: State, silent: bool, report: string, gone: bool): State {
    if st.nextInvoked || st.responseSent then Wake(st)
    else if gone then Wake(st.(responseSent := true))
    else
      var t := st.(trace := st.trace + [Commit(500, st.header)]);
      Wake((if silent then t else Print(t, report)).(responseSent := true))
  }

  function Exception(st: State, report: string, gone: bool): State {
    var t := if gone then st else Print(st.(trace := st.trace + [Commit(500, st.header)]), report);
    Wake(t.(responseSent := true))
  }

  function Finish(st: State, end: Ending): Option<State> {
    match end
    case Resolved(gone) => Resolve(st, gone)
    case Rejected(silent, report, gone) => Some(Reject(st, silent, report, gone))
    case Threw(report, gone) => Some(Exception(st, report, gone))
  }

  // reset, when the context goes back to its pool; the writer is let go.
  function Reset(st: State): State {
    State(false, false, false, 204, st.proxy, st.requestDone, map[], [])
  }

  // What a handler does, call by call; CallRead is res.get or res.headersSent.
  datatype Call =
    | CallRead
    | CallStatus(code: StatusArg)
    | CallJson(body: Arg)
    | CallSend(body: Arg)
    | CallEnd(body: Arg)
    | CallSet(name: string, value: Value)
    | CallSetMany(fields: seq<Field>)
    | CallNext

  function Do(st: State, c: Call): (State, bool) {
    match c
    case CallRead => (Touch(st), false)
    case CallStatus(a) => Status(Touch(st), a)
    case CallJson(b) => Json(Touch(st), b)
    case CallSend(b) => Send(Touch(st), b)
    case CallEnd(b) => End(Touch(st), b)
    case CallSet(name, v) => SetOne(Touch(st), name, v)
    case CallSetMany(fs) => SetMany(Touch(st), fs)
    case CallNext => (Next(st), false)
  }

  function Run(st: State, calls: seq<Call>): State
    decreases |calls|
  {
    if calls == [] then st else Run(Do(st, calls[0]).0, calls[1..])
  }

  // A context as its pool hands it out, with a writer whose header is h.
  function Fresh(h: Header, proxy: bool): State { State(false, false, false, 204, proxy, 0, h, []) }

  // The same output, told from the list of calls alone.

  predicate Commits(c: Call) { c.CallJson? || c.CallEnd? || (c.CallSend? && !c.body.Undefined?) }

  // The first call that commits, if no next comes before it; else the length.
  function CommitAt(calls: seq<Call>): (k: nat)
    ensures k <= |calls|
    ensures k < |calls| ==> Commits(calls[k])
  {
    if calls == [] then 0
    else if calls[0].CallNext? then |calls|
    else if Commits(calls[0]) then 0
    else 1 + CommitAt(calls[1..])
  }

  function NextAt(calls: seq<Call>): (k: nat)
    ensures k <= |calls|
  {
    if calls == [] then 0 else if calls[0].CallNext? then 0 else 1 + NextAt(calls[1..])
  }

  // The last status() that was accepted.
  function Accepted(calls: seq<Call>): Option<int> {
    if calls == [] then None
    else
      var c := calls[|calls| - 1];
      if c.CallStatus? && c.code.Code? && KnownStatus(c.code.code) then Some(c.code.code)
      else Accepted(calls[..|calls| - 1])
  }

  // The header as the calls of set leave it.
  function HeaderStep(h: Header, c: Call): Header {
    match c
    case CallSet(name, v) => (match SetField(h, name, v) case None => h case Some(g) => g)
    case CallSetMany(fs) => SetFields(h, fs).0
    case _ => h
  }

  function HeaderAfter(h: Header, calls: seq<Call>): Header
    decreases |calls|
  {
    if calls == [] then h else HeaderAfter(HeaderStep(h, calls[0]), calls[1..])
  }

  // The header with the content type that a committing call adds.
  function Typed(h: Header, c: Call): Header {
    if c.CallEnd? then h
    else if c.CallSend? && c.body.Text? then Html(h)
    else if c.CallSend? && c.body.Plain? then h
    else Put(h, "content-type", "application/json")
  }

  function BodyOf(c: Call): seq<Emit>
    requires Commits(c)
  {
    match c
    case CallJson(b) => [Write(JsonOf(b))]
    case CallSend(b) =>
      if b.Text? then [Write(b.text)] else if b.Plain? then [Write("")] else [Write(JsonOf(b))]
    case CallEnd(b) => if b.Text? then [Write(b.text)] else []
    case _ => []
  }

  function Default(code: Option<int>, otherwise: int): int { if code.Some? then code.value else otherwise }

  function Committed(h: Header, calls: seq<Call>): seq<Emit> {
    var k := CommitAt(calls);
    if k == |calls| then []
    else [Commit(Default(Accepted(calls[..k]), 200), Typed(HeaderAfter(h, calls[..k]), calls[k]))] + BodyOf(calls[k])
  }

  // The header at the end of the handler.
  function FinalHeader(h: Header, calls: seq<Call>): Header {
    var k := CommitAt(calls);
    if k == |calls| then HeaderAfter(h, calls)
    else HeaderAfter(Typed(HeaderAfter(h, calls[..k]), calls[k]), calls[k + 1..])
  }

  function Output(h: Header, calls: seq<Call>): seq<Emit> {
    Committed(h, calls) + (if NextAt(calls) < |calls| then [ServeNext] else [])
  }

  // The calls before the commit or next.

  predicate IsOpen(st: State) { !st.nextInvoked && !st.responseSent }

  predicate Quiet(calls: seq<Call>) { forall i :: 0 <= i < |calls| ==> !Commits(calls[i]) && !calls[i].CallNext? }

  lemma RunSplit(st: State, calls: seq<Call>, more: seq<Call>)
    ensures Run(st, calls + more) == Run(Run(st, calls), more)
    decreases |calls|
  {
    if calls == [] {
      assert calls + more == more;
    } else {
      assert (calls + more)[0] == calls[0] && (calls + more)[1..] == calls[1..] + more;
      RunSplit(Do(st, calls[0]).0, calls[1..], more);
    }
  }

  lemma {:induction false} HeaderSplit(h: Header, calls: seq<Call>, more: seq<Call>)
    ensures HeaderAfter(h, calls + more) == HeaderAfter(HeaderAfter(h, calls), more)
    decreases |calls|
  {
    if calls == [] {
      assert calls + more == more;
    } else {
      assert (calls + more)[0] == calls[0] && (calls + more)[1..] == calls[1..] + more;
      HeaderSplit(HeaderStep(h, calls[0]), calls[1..], more);
    }
  }

  // They write nothing; they choose the status and set the header.
  lemma {:induction false} QuietRun(st: State, calls: seq<Call>)
    requires IsOpen(st) && Quiet(calls)
    ensures var t := Run(st, calls);
      && IsOpen(t) && t.trace == st.trace && t.requestDone == st.requestDone
      && t.header == HeaderAfter(st.header, calls)
      && t.statusSet == (st.statusSet || Accepted(calls).Some?)
      && (Accepted(calls).Some? ==> t.statusCode == Accepted(calls).value)
      && (Accepted(calls).None? ==> t.statusCode == (if st.proxy || calls == [] then st.statusCode else 204))
      && t.proxy == (st.proxy || calls != [])
    decreases |calls|
  {
    if calls != [] {
      var n := |calls| - 1;
      var p, c := calls[..n], calls[n];
      QuietRun(st, p);
      RunSplit(st, p, [c]);
      HeaderSplit(st.header, p, [c]);
      assert calls == p + [c] && [c][1..] == [];
      QuietDo(Run(st, p), c);
    }
  }

  lemma QuietDo(st: State, c: Call)
    requires IsOpen(st) && !Commits(c) && !c.CallNext?
    ensures var t := Run(st, [c]); var a := Accepted([c]);
      && IsOpen(t) && t.trace == st.trace && t.requestDone == st.requestDone && t.proxy
      && t.header == HeaderAfter(st.header, [c])
      && t.statusSet == (st.statusSet || a.Some?)
      && t.statusCode == (if a.Some? then a.value else if st.proxy then st.statusCode else 204)
      && a == if c.CallStatus? && c.code.Code? && KnownStatus(c.code.code) then Some(c.code.code) else None
  {
    assert [c][1..] == [] && [c][..0] == [];
    assert Run(st, [c]) == Do(st, c).0;
    assert Accepted([]) == None;
  }

  // Once the response is sent only next can write, and only once.
  lemma {:induction false} SentRun(st: State, calls: seq<Call>)
    requires st.responseSent
    ensures var t := Run(st, calls);
      && t.responseSent && t.requestDone == st.requestDone && (st.proxy ==> t.proxy)
      && t.header == HeaderAfter(st.header, calls)
      && t.nextInvoked == (st.nextInvoked || NextAt(calls) < |calls|)
      && t.trace == st.trace + (if !st.nextInvoked && NextAt(calls) < |calls| then [ServeNext] else [])
    decreases |calls|
  {
    if calls != [] {
      SentDo(st, calls[0]);
      SentRun(Do(st, calls[0]).0, calls[1..]);
    }
  }

  lemma SentDo(st: State, c: Call)
    requires st.responseSent
    ensures var t := Do(st, c).0;
      && t.responseSent && t.requestDone == st.requestDone && (st.proxy ==> t.proxy)
      && t.header == HeaderStep(st.header, c)
      && t.nextInvoked == (st.nextInvoked || c.CallNext?)
      && t.trace == st.trace + (if !st.nextInvoked && c.CallNext? then [ServeNext] else [])
    ensures c.CallStatus? || c.CallJson? || c.CallSend? || c.CallEnd? ==> Do(st, c) == (Touch(st), true)
  {}

  // The call that commits.
  lemma CommitDo(st: State, c: Call)
    requires IsOpen(st) && Commits(c)
    ensures var t := Do(st, c).0;
      && t.responseSent && !t.nextInvoked && t.requestDone == st.requestDone && t.proxy
      && t.header == Typed(st.header, c)
      && var code := if st.statusSet then Touch(st).statusCode else 200;
      t.trace == st.trace + ([Commit(code, Typed(st.header, c))] + BodyOf(c))
  {
    var h, code := Typed(st.header, c), if st.statusSet then Touch(st).statusCode else 200;
    var u := SendHeaders(Touch(st).(header := h));
    assert u.trace == st.trace + [Commit(code, h)];
    if BodyOf(c) == [] {
      assert Do(st, c).0 == u;
    } else {
      assert Do(st, c).0 == Print(u, BodyOf(c)[0].content);
    }
  }

  lemma {:induction false} CommitOrNext(calls: seq<Call>)
    ensures CommitAt(calls) < |calls| ==> Quiet(calls[..CommitAt(calls)]) && Commits(calls[CommitAt(calls)])
    ensures CommitAt(calls) < |calls| && NextAt(calls) < |calls| ==> CommitAt(calls) < NextAt(calls)
    ensures CommitAt(calls) == |calls| ==> Quiet(calls[..NextAt(calls)])
    ensures NextAt(calls) < |calls| ==> calls[NextAt(calls)].CallNext?
    ensures forall i :: 0 <= i < NextAt(calls) ==> !calls[i].CallNext?
  {
    if calls != [] {
      CommitOrNext(calls[1..]);
      assert forall i :: 1 <= i < |calls| ==> calls[i] == calls[1..][i - 1];
    }
  }

  predicate Answered(calls: seq<Call>) { CommitAt(calls) < |calls| || NextAt(calls) < |calls| }

  // What the handler has done before it ends.
  predicate Told(h: Header, calls: seq<Call>, st: State) {
    && st.trace == Output(h, calls) && st.header == FinalHeader(h, calls) && st.requestDone == 0
    && st.responseSent == Answered(calls) && st.nextInvoked == (NextAt(calls) < |calls|)
  }

  // The state just after the call that answered.
  lemma AfterCommit(h: Header, proxy: bool, calls: seq<Call>, k: nat)
    requires k < |calls| && Quiet(calls[..k]) && Commits(calls[k])
    ensures var t := Run(Fresh(h, proxy), calls[..k + 1]); var g := HeaderAfter(h, calls[..k]);
      && t.responseSent && !t.nextInvoked && t.requestDone == 0 && t.header == Typed(g, calls[k])
      && t.trace == [Commit(Default(Accepted(calls[..k]), 200), Typed(g, calls[k]))] + BodyOf(calls[k])
  {
    var st := Fresh(h, proxy);
    SplitAt(st, calls, k);
    QuietRun(st, calls[..k]);
    var u := Run(st, calls[..k]);
    CommitDo(u, calls[k]);
    var out := [Commit(if u.statusSet then Touch(u).statusCode else 200, Typed(u.header, calls[k]))] + BodyOf(calls[k]);
    assert [] + out == out;
  }

  // The commit itself, in the protocol's terms: the status last accepted, or 200; one
  // content type, where the call brings one and, for a text, where none is set that is
  // not empty; every other field as set; and the body.
  lemma CommitWrites(h: Header, proxy: bool, calls: seq<Call>, k: nat)
    requires k < |calls| && Quiet(calls[..k])
    requires var c := calls[k]; c.CallJson? || c.CallEnd? || (c.CallSend? && !c.body.Undefined?)
    ensures var t := Run(Fresh(h, proxy), calls[..k + 1]).trace; var so := HeaderAfter(h, calls[..k]);
      && 1 <= |t| <= 2 && t[0].Commit? && (|t| == 2 ==> t[1].Write?)
      && t[0].code == (if Accepted(calls[..k]).Some? then Accepted(calls[..k]).value else 200)
      && var b, g := calls[k].body, t[0].header;
      if calls[k].CallEnd? then
        g == so && t[1..] == if b.Text? then [Write(b.text)] else []
      else if calls[k].CallSend? && b.Text? then
        && t[1..] == [Write(b.text)]
        && if Values(so, "content-type") != [] && Values(so, "content-type")[0] != "" then g == so
           else Retyped(so, g, "text/html")
      else if calls[k].CallSend? && b.Plain? then
        g == so && t[1..] == [Write("")]
      else
        && Retyped(so, g, "application/json")
        && t[1..] == [Write(if b.Undefined? then "{}" else if b.Null? then "null" else b.json)]
  {
    AfterCommit(h, proxy, calls, k);
    PutRetypes(HeaderAfter(h, calls[..k]), "text/html");
    PutRetypes(HeaderAfter(h, calls[..k]), "application/json");
  }

  lemma CommittedOutput(h: Header, proxy: bool, calls: seq<Call>)
    requires CommitAt(calls) < |calls|
    ensures Told(h, calls, Run(Fresh(h, proxy), calls))
  {
    CommittedRun(h, proxy, calls);
    NextIsLater(calls);
  }

  lemma CommittedRun(h: Header, proxy: bool, calls: seq<Call>)
    requires CommitAt(calls) < |calls|
    ensures var t := Run(Fresh(h, proxy), calls); var rest := calls[CommitAt(calls) + 1..];
      && t.responseSent && t.requestDone == 0 && t.header == FinalHeader(h, calls)
      && t.nextInvoked == (NextAt(rest) < |rest|)
      && t.trace == Committed(h, calls) + (if NextAt(rest) < |rest| then [ServeNext] else [])
  {
    var st, k := Fresh(h, proxy), CommitAt(calls);
    CommitOrNext(calls);
    AfterCommit(h, proxy, calls, k);
    SplitAt(st, calls, k);
    SentRun(Run(st, calls[..k + 1]), calls[k + 1..]);
  }

  // Before the commit there is no next.
  lemma NextIsLater(calls: seq<Call>)
    requires CommitAt(calls) < |calls|
    ensures var rest := calls[CommitAt(calls) + 1..]; NextAt(rest) < |rest| <==> NextAt(calls) < |calls|
  {
    var k := CommitAt(calls);
    CommitOrNext(calls);
    assert forall i :: 0 <= i < k ==> calls[i] == calls[..k][i];
    NextAfter(calls, k + 1);
  }

  lemma AfterNext(h: Header, proxy: bool, calls: seq<Call>, n: nat)
    requires n < |calls| && Quiet(calls[..n]) && calls[n].CallNext?
    ensures var t := Run(Fresh(h, proxy), calls[..n + 1]);
      t.responseSent && t.nextInvoked && t.requestDone == 0 && t.header == HeaderAfter(h, calls[..n]) &&
          t.trace == [ServeNext]
  {
    var st := Fresh(h, proxy);
    SplitAt(st, calls, n);
    QuietRun(st, calls[..n]);
  }

  lemma PassedOutput(h: Header, proxy: bool, calls: seq<Call>)
    requires CommitAt(calls) == |calls| && NextAt(calls) < |calls|
    ensures Told(h, calls, Run(Fresh(h, proxy), calls))
  {
    var st, n := Fresh(h, proxy), NextAt(calls);
    CommitOrNext(calls);
    AfterNext(h, proxy, calls, n);
    SplitAt(st, calls, n);
    SentRun(Run(st, calls[..n + 1]), calls[n + 1..]);
    HeaderPastNext(h, calls, n);
    assert [ServeNext] + [] == [ServeNext] && [] + [ServeNext] == [ServeNext];
  }

  lemma HeaderPastNext(h: Header, calls: seq<Call>, n: nat)
    requires n < |calls| && calls[n].CallNext?
    ensures HeaderAfter(h, calls) == HeaderAfter(HeaderAfter(h, calls[..n]), calls[n + 1..])
  {
    var more := [calls[n]] + calls[n + 1..];
    assert calls == calls[..n] + more && more[1..] == calls[n + 1..];
    HeaderSplit(h, calls[..n], more);
  }

  // The whole handler, before it ends.  Its output is what the calls say.
  lemma HandlerOutput(h: Header, proxy: bool, calls: seq<Call>)
    ensures Told(h, calls, Run(Fresh(h, proxy), calls))
  {
    if CommitAt(calls) < |calls| {
      CommittedOutput(h, proxy, calls);
    } else if NextAt(calls) < |calls| {
      PassedOutput(h, proxy, calls);
    } else {
      CommitOrNext(calls);
      assert calls[..NextAt(calls)] == calls;
      QuietRun(Fresh(h, proxy), calls);
    }
  }

  lemma SplitAt(st: State, calls: seq<Call>, k: nat)
    requires k < |calls|
    ensures Run(st, calls[..k + 1]) == Do(Run(st, calls[..k]), calls[k]).0
    ensures Run(st, calls) == Run(Run(st, calls[..k + 1]), calls[k + 1..])
  {
    assert calls[..k + 1] == calls[..k] + [calls[k]] && [calls[k]][1..] == [];
    RunSplit(st, calls[..k], [calls[k]]);
    assert Run(Run(st, calls[..k]), [calls[k]]) == Do(Run(st, calls[..k]), calls[k]).0;
    assert calls == calls[..k + 1] + calls[k + 1..];
    RunSplit(st, calls[..k + 1], calls[k + 1..]);
  }

  // next, looked for later on.
  lemma {:induction false} NextAfter(calls: seq<Call>, k: nat)
    requires k <= |calls| && (forall i :: 0 <= i < k ==> !calls[i].CallNext?)
    ensures NextAt(calls[k..]) < |calls[k..]| <==> NextAt(calls) < |calls|
  {
    if k > 0 {
      assert calls[1..][k - 1..] == calls[k..];
      NextAfter(calls[1..], k - 1);
    } else {
      assert calls[0..] == calls;
    }
  }

  // How the handler ends.

  // What the ending adds: a normal return writes 204 only if nothing was answered
  // and status() was never accepted; a rejection writes 500 if nothing was
  // answered; a throw writes 500 whatever was.
  function EndOutput(h: Header, calls: seq<Call>, end: Ending): seq<Emit> {
    match end
    case Resolved(gone) =>
      if !gone && !Answered(calls) && Accepted(calls).None? then [Commit(204, HeaderAfter(h, calls))] else []
    case Rejected(silent, report, gone) =>
      if gone || Answered(calls) then []
      else [Commit(500, HeaderAfter(h, calls))] + (if silent then [] else [Write(report)])
    case Threw(report, gone) =>
      if gone then [] else [Commit(500, FinalHeader(h, calls)), Write(report)]
  }

  // It crashes only if a handler that never read `res` returns having answered nothing.
  predicate Crashes(proxy: bool, calls: seq<Call>, end: Ending) {
    end.Resolved? && !end.gone && !proxy && calls == []
  }

  lemma UnansweredIsQuiet(h: Header, proxy: bool, calls: seq<Call>)
    requires !Answered(calls)
    ensures Quiet(calls) && Output(h, calls) == []
  {
    CommitOrNext(calls);
    assert calls[..NextAt(calls)] == calls;
  }

  // The whole request: the output, one wake, and no crash but that one.
  lemma RequestOutput(h: Header, proxy: bool, calls: seq<Call>, end: Ending)
    ensures var t := Finish(Run(Fresh(h, proxy), calls), end);
      && (t.None? <==> Crashes(proxy, calls, end))
      && (t.Some? ==>
            && t.value.trace == Output(h, calls) + EndOutput(h, calls, end)
            && t.value.requestDone == 1 && t.value.responseSent)
  {
    var st := Run(Fresh(h, proxy), calls);
    HandlerOutput(h, proxy, calls);
    assert st.trace + [] == st.trace;
    if !Answered(calls) {
      UnansweredIsQuiet(h, proxy, calls);
      QuietRun(Fresh(h, proxy), calls);
    } else {
      assert calls != [];
    }
    EndAdds(h, st, calls, end);
  }

  lemma OneWake(h: Header, proxy: bool, calls: seq<Call>, end: Ending)
    ensures var t := Finish(Run(Fresh(h, proxy), calls), end); t.Some? ==> t.value.requestDone == 1
  {
    RequestOutput(h, proxy, calls, end);
  }

  lemma EndAdds(h: Header, st: State, calls: seq<Call>, end: Ending)
    requires st.requestDone == 0 && st.responseSent == Answered(calls) && (st.nextInvoked ==> st.responseSent)
    requires st.header == FinalHeader(h, calls)
    requires !Answered(calls) ==>
      && FinalHeader(h, calls) == HeaderAfter(h, calls) && st.statusSet == Accepted(calls).Some?
      && (Accepted(calls).None? ==> st.statusCode == 204)
    ensures var t := Finish(st, end);
      && (t.None? <==> end.Resolved? && !end.gone && !Answered(calls) && Accepted(calls).None? && !st.proxy)
      && (t.Some? ==>
            && t.value.trace == st.trace + EndOutput(h, calls, end)
            && t.value.requestDone == 1 && t.value.responseSent)
  {
    var c := [Commit(500, st.header)];
    assert st.trace + [] == st.trace && c + [] == c;
    forall r: string ensures st.trace + c + [Write(r)] == st.trace + (c + [Write(r)]) {}
    forall r: string ensures c + [Write(r)] == [Commit(500, st.header), Write(r)] {}
  }

  // Counting.

  function CommitCount(trace: seq<Emit>): nat {
    if trace == [] then 0 else (if trace[0].Commit? then 1 else 0) + CommitCount(trace[1..])
  }

  function NextCount(trace: seq<Emit>): nat {
    if trace == [] then 0 else (if trace[0].ServeNext? then 1 else 0) + NextCount(trace[1..])
  }

  lemma {:induction false} CountsAdd(a: seq<Emit>, b: seq<Emit>)
    ensures CommitCount(a + b) == CommitCount(a) + CommitCount(b)
    ensures NextCount(a + b) == NextCount(a) + NextCount(b)
  {
    if a == [] {
      assert a + b == b;
    } else {
      assert (a + b)[0] == a[0] && (a + b)[1..] == a[1..] + b;
      CountsAdd(a[1..], b);
    }
  }

  lemma CountShort(t: seq<Emit>)
    requires |t| <= 2
    ensures CommitCount(t) == (if |t| > 0 && t[0].Commit? then 1 else 0) + (if |t| > 1 && t[1].Commit? then 1 else 0)
    ensures NextCount(t)
         == (if |t| > 0 && t[0].ServeNext? then 1 else 0) + (if |t| > 1 && t[1].ServeNext? then 1 else 0)
  {
    if |t| == 2 { assert t[1..] == [t[1]] && t[1..][1..] == []; }
    if |t| == 1 { assert t[1..] == []; }
  }

  // next is served at most once; the status is committed at most once unless the
  // handler throws after it committed, with the client still there; and never after
  // next unless it throws then.
  lemma SingleCommitExactly(h: Header, proxy: bool, calls: seq<Call>, end: Ending)
    requires !Crashes(proxy, calls, end)
    ensures Finish(Run(Fresh(h, proxy), calls), end).Some?
    ensures var trace := Finish(Run(Fresh(h, proxy), calls), end).value.trace;
      && NextCount(trace) <= 1
      && (CommitCount(trace) > 1 <==> end.Threw? && !end.gone && CommitAt(calls) < |calls|)
      && CommitCount(trace) <= 2
  {
    RequestOutput(h, proxy, calls, end);
    HandlerCounts(h, calls);
    CountsAdd(Output(h, calls), EndOutput(h, calls, end));
    CountShort(EndOutput(h, calls, end));
  }

  lemma HandlerCounts(h: Header, calls: seq<Call>)
    ensures CommitCount(Output(h, calls)) == if CommitAt(calls) < |calls| then 1 else 0
    ensures NextCount(Output(h, calls)) == if NextAt(calls) < |calls| then 1 else 0
  {
    var next := if NextAt(calls) < |calls| then [ServeNext] else [];
    CountsAdd(Committed(h, calls), next);
    CommittedCounts(h, calls);
    CountShort(next);
  }

  lemma CommittedCounts(h: Header, calls: seq<Call>)
    ensures CommitCount(Committed(h, calls)) == if CommitAt(calls) < |calls| then 1 else 0
    ensures NextCount(Committed(h, calls)) == 0
  {
    var k := CommitAt(calls);
    if k < |calls| {
      var e := Commit(Default(Accepted(calls[..k]), 200), Typed(HeaderAfter(h, calls[..k]), calls[k]));
      BodyCounts(calls[k]);
      assert ([e] + BodyOf(calls[k]))[1..] == BodyOf(calls[k]);
    }
  }

  lemma BodyCounts(c: Call)
    requires Commits(c)
    ensures CommitCount(BodyOf(c)) == 0 && NextCount(BodyOf(c)) == 0
  {
    forall w: string ensures CommitCount([Write(w)]) == 0 && NextCount([Write(w)]) == 0 {
      assert [Write(w)][1..] == [];
    }
  }

  // A handler that only called status() and returned writes no status at all.
  lemma StatusAloneWritesNothing(h: Header, proxy: bool, calls: seq<Call>, gone: bool)
    requires !Answered(calls) && Accepted(calls).Some?
    ensures Finish(Run(Fresh(h, proxy), calls), Resolved(gone)).Some?
    ensures Finish(Run(Fresh(h, proxy), calls), Resolved(gone)).value.trace == []
  {
    assert calls != [];
    RequestOutput(h, proxy, calls, Resolved(gone));
    UnansweredIsQuiet(h, proxy, calls);
  }

  // One context, many requests.

  datatype Request = Request(header: Header, calls: seq<Call>, end: Ending)

  // WithHttp, the handler, its ending, Wait, and the return to the pool.
  function Serve(st: State, q: Request): Option<(State, seq<Emit>)> {
    match Finish(Run(st.(header := q.header), q.calls), q.end)
    case None => None
    case Some(t) => if t.requestDone == 0 then None else Some((Reset(t.(requestDone := t.requestDone - 1)), t.trace))
  }

  function ServeAll(st: State, qs: seq<Request>): Option<(State, seq<seq<Emit>>)>
    decreases |qs|
  {
    if qs == [] then Some((st, []))
    else match Serve(st, qs[0])
         case None => None
         case Some(p) =>
           match ServeAll(p.0, qs[1..])
           case None => None
           case Some(u) => Some((u.0, [p.1] + u.1))
  }

  // What a request is answered with, told from its calls and its ending alone.
  function AnswerTo(q: Request): seq<Emit> { Output(q.header, q.calls) + EndOutput(q.header, q.calls, q.end) }

  function AnswersTo(qs: seq<Request>): seq<seq<Emit>> { Map(qs, AnswerTo) }

  predicate NoneCrashes(qs: seq<Request>) {
    forall i :: 0 <= i < |qs| ==> qs[i].calls != [] || !qs[i].end.Resolved? || qs[i].end.gone
  }

  lemma ServedOutput(proxy: bool, q: Request)
    requires !Crashes(proxy, q.calls, q.end)
    ensures Serve(Fresh(map[], proxy), q).Some?
    ensures var (t, out) := Serve(Fresh(map[], proxy), q).value;
      t == Fresh(map[], t.proxy) && out == AnswerTo(q)
  {
    assert Fresh(map[], proxy).(header := q.header) == Fresh(q.header, proxy);
    RequestOutput(q.header, proxy, q.calls, q.end);
  }

  // What each request gets is decided by it alone, whichever requests the context
  // served before, and the context comes back as a fresh one with no token in its
  // channel.
  lemma {:induction false} NothingCarriesOver(proxy: bool, qs: seq<Request>)
    requires NoneCrashes(qs)
    ensures ServeAll(Fresh(map[], proxy), qs).Some?
    ensures var (t, outs) := ServeAll(Fresh(map[], proxy), qs).value;
      t == Fresh(map[], t.proxy) && outs == AnswersTo(qs)
    decreases |qs|
  {
    if qs != [] {
      ServedOutput(proxy, qs[0]);
      var p := Serve(Fresh(map[], proxy), qs[0]).value;
      NothingCarriesOver(p.0.proxy, qs[1..]);
      MapFirst(qs, AnswerTo);
    }
  }
}
