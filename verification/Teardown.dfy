// The order in which a fetched response is taken down: its headers are returned, the
// proxy is reset, the stream is drained and returned, and last the proxy goes back
// to its pool.
module Teardown {
  import opened Base
  import opened Objects
  import opened Programs
  import opened Middleware
  import opened Invariants
  import opened Frames
  import opened Ownership
  import opened EventSteps
  import opened LocalSteps
  import opened RequestSteps
  import opened FetchSteps
  import opened TakeSteps
  import opened TaskSteps
  import opened ScriptSteps
  import opened SettleSteps
  import opened EndSteps
  import opened Safety
  import opened Alone
  import opened History
  import opened Completion
  import opened Ending

  // Right below a registered reset is the return of the response's stream, and
  // further below that of the proxy.
  ghost predicate StreamBelow(s: Sys, st: seq<Cleanup>, j: nat)
    requires j < |st| && st[j].ResetResponse?
  {
    && j > 0 && s.Response(st[j].id).body.Some?
    && st[j - 1] == Return(Obj(KStream, s.Response(st[j].id).body.value))
    && Return(Obj(KResponse, st[j].id)) in st[..j - 1]
  }

  // Above it is the return of the response's headers, if they were read.
  ghost predicate HeadersAbove(s: Sys, st: seq<Cleanup>, j: nat)
    requires j < |st| && st[j].ResetResponse?
  {
    s.Response(st[j].id).headers.Some? ==> Return(Obj(KHeaders, s.Response(st[j].id).headers.value)) in st[j + 1..]
  }

  ghost predicate FetchOrder(s: Sys, q: Req, st: seq<Cleanup>) {
    && (forall i, k :: 0 <= i < k < |q.fetches| ==> q.fetches[i].response != q.fetches[k].response)
    && (forall i :: 0 <= i < |q.fetches| && q.fetches[i].callback != Settled(true) ==>
          s.Response(q.fetches[i].response) == NewResponse && ResetResponse(q.fetches[i].response) !in st)
  }

  ghost predicate InOrder(s: Sys, q: Req, st: seq<Cleanup>) {
    && (forall j :: 0 <= j < |st| && st[j].ResetResponse? ==> StreamBelow(s, st, j))
    && (InUse(q) ==> FetchOrder(s, q, st) && forall j :: 0 <= j < |st| && st[j].ResetResponse? ==>
          HeadersAbove(s, st, j))
  }

  ghost predicate OrderedAt(s: Sys, r: Id) {
    r < |s.reqs| && (s.reqs[r].Open() ==> InOrder(s, s.reqs[r], Stack(s, r)))
  }

  ghost predicate Ordered(s: Sys) { forall r: Id :: r < |s.reqs| ==> OrderedAt(s, r) }

  // The responses a stack mentions do not change.
  ghost predicate SameResponses(s: Sys, s': Sys, st: seq<Cleanup>) {
    forall p: Id :: Return(Obj(KResponse, p)) in st ==> s'.Response(p) == s.Response(p)
  }

  ghost predicate Compatible(q: Req, q': Req) {
    && |q'.fetches| == |q.fetches| && (InUse(q') ==> InUse(q))
    && (forall i :: 0 <= i < |q.fetches| ==>
          && q'.fetches[i].response == q.fetches[i].response
          && (q.fetches[i].callback == Settled(true) ==> q'.fetches[i].callback == Settled(true)))
  }

  // Pushing anything but a reset keeps the order.
  lemma PushInOrder(s: Sys, s': Sys, q: Req, q': Req, st: seq<Cleanup>, added: seq<Cleanup>)
    requires InOrder(s, q, st) && Compatible(q, q') && SameResponses(s, s', st)
    requires forall c :: c in added ==> !c.ResetResponse?
    requires InUse(q) ==> forall i :: 0 <= i < |q.fetches| ==> Return(Obj(KResponse, q.fetches[i].response)) in st
    ensures InOrder(s', q', st + added)
  {
    var st' := st + added;
    forall j | 0 <= j < |st'| && st'[j].ResetResponse?
      ensures StreamBelow(s', st', j) && (InUse(q') ==> HeadersAbove(s', st', j))
    {
      assert st'[j] in added || j < |st|;
      assert StreamBelow(s, st, j) && st'[..j - 1] == st[..j - 1];
      assert st[..j - 1] <= st;
      if InUse(q') {
        assert HeadersAbove(s, st, j);
        assert st'[j + 1..] == st[j + 1..] + added;
      }
    }
    if InUse(q') { PushFetches(s, s', q, q', st, added); }
  }

  lemma PushFetches(s: Sys, s': Sys, q: Req, q': Req, st: seq<Cleanup>, added: seq<Cleanup>)
    requires FetchOrder(s, q, st) && Compatible(q, q') && SameResponses(s, s', st)
    requires forall c :: c in added ==> !c.ResetResponse?
    requires forall i :: 0 <= i < |q.fetches| ==> Return(Obj(KResponse, q.fetches[i].response)) in st
    ensures FetchOrder(s', q', st + added)
  {
    forall i | 0 <= i < |q'.fetches| && q'.fetches[i].callback != Settled(true)
      ensures s'.Response(q'.fetches[i].response) == NewResponse && ResetResponse(q'.fetches[i].response) !in st + added
    {
      assert s.Response(q.fetches[i].response) == NewResponse;
    }
  }

  // Reading a response's headers pushes their return above its reset.
  lemma HeadersInOrder(s: Sys, s': Sys, q: Req, st: seq<Cleanup>, i: nat, h: Id)
    requires InOrder(s, q, st) && InUse(q) && i < |q.fetches| && q.fetches[i].callback == Settled(true)
    requires forall p :: p != q.fetches[i].response ==> s'.Response(p) == s.Response(p)
    requires s'.Response(q.fetches[i].response) == s.Response(q.fetches[i].response).(headers := Some(h))
    ensures InOrder(s', q, st + [Return(Obj(KHeaders, h))])
  {
    var c := Return(Obj(KHeaders, h));
    var st' := st + [c];
    forall j | 0 <= j < |st'| && st'[j].ResetResponse?
      ensures StreamBelow(s', st', j) && HeadersAbove(s', st', j)
    {
      assert StreamBelow(s, st, j) && HeadersAbove(s, st, j) && st'[..j - 1] == st[..j - 1];
      assert st'[j + 1..] == st[j + 1..] + [c];
    }
    forall k | 0 <= k < |q.fetches| && q.fetches[k].callback != Settled(true)
      ensures s'.Response(q.fetches[k].response) == NewResponse && ResetResponse(q.fetches[k].response) !in st'
    {
      assert q.fetches[k].response != q.fetches[i].response;
    }
  }

  // Calling fetch takes a proxy that nothing on the stack mentions.
  lemma FetchCallInOrder(s: Sys, s': Sys, q: Req, st: seq<Cleanup>, g: Fetch, extra: seq<Cleanup>)
    requires InOrder(s, q, st) && InUse(q) && !g.callback.Settled?
    requires forall i :: 0 <= i < |q.fetches| ==> Return(Obj(KResponse, q.fetches[i].response)) in st
    requires SameResponses(s, s', st) && s'.Response(g.response) == NewResponse
    requires Return(Obj(KResponse, g.response)) !in st && (extra == [] || extra == [ResetBuffer])
    ensures InOrder(s', q.(fetches := q.fetches + [g]), st + [Return(Obj(KResponse, g.response))] + extra)
  {
    var a := Return(Obj(KResponse, g.response));
    var q' := q.(fetches := q.fetches + [g]);
    var st' := st + ([a] + extra);
    assert st' == st + [a] + extra;
    PushInOrder(s, s', q, q, st, [a] + extra);
    assert ResetResponse(g.response) !in st by {
      forall j | 0 <= j < |st| ensures st[j] != ResetResponse(g.response) {
        if st[j].ResetResponse? {
          assert StreamBelow(s, st, j);
          assert forall c :: c in st[..j - 1] ==> c in st;
        }
      }
    }
    assert FetchOrder(s', q, st');
    assert FetchOrder(s', q', st');
  }

  // The callback pushes the stream's return and, right above it, the reset.
  lemma CallbackInOrder(s: Sys, s': Sys, q: Req, st: seq<Cleanup>, i: nat, t: Id)
    requires InOrder(s, q, st) && InUse(q) && i < |q.fetches| && q.fetches[i].callback != Settled(true)
    requires Return(Obj(KResponse, q.fetches[i].response)) in st
    requires forall p :: p != q.fetches[i].response ==> s'.Response(p) == s.Response(p)
    requires s'.Response(q.fetches[i].response).body == Some(t)
    requires s'.Response(q.fetches[i].response).headers == s.Response(q.fetches[i].response).headers
    ensures InOrder(s', SetFetch(q, i, q.fetches[i].(callback := Settled(true))),
                    st + [Return(Obj(KStream, t))] + [ResetResponse(q.fetches[i].response)])
  {
    var p := q.fetches[i].response;
    var q', st' := SetFetch(q, i, q.fetches[i].(callback := Settled(true))),
        st + [Return(Obj(KStream, t))] + [ResetResponse(p)];
    assert s.Response(p) == NewResponse && ResetResponse(p) !in st;
    forall j | 0 <= j < |st'| && st'[j].ResetResponse?
      ensures StreamBelow(s', st', j) && HeadersAbove(s', st', j)
    {
      if j < |st| {
        assert st'[j] == st[j] && st[j] in st;
        assert StreamBelow(s, st, j) && HeadersAbove(s, st, j) && st'[..j - 1] == st[..j - 1];
        assert st'[j + 1..] == st[j + 1..] + [Return(Obj(KStream, t))] + [ResetResponse(p)];
      } else {
        assert j == |st| + 1 && st'[..j - 1] == st;
      }
    }
    forall k | 0 <= k < |q'.fetches| && q'.fetches[k].callback != Settled(true)
      ensures s'.Response(q'.fetches[k].response) == NewResponse && ResetResponse(q'.fetches[k].response) !in st'
    {
      assert k != i && q.fetches[k].response != p;
    }
  }

  // Popping the top: a reset that is left is of another response than the one whose
  // reset has run, its stream being another.
  lemma PopInOrder(s: Sys, s': Sys, q: Req, st: seq<Cleanup>)
    requires InOrder(s, q, st) && st != [] && !InUse(q)
    requires forall i, j :: 0 <= i < j < |st| && st[i].Return? ==> st[i] != st[j]
    requires forall p: Id :: st[|st| - 1] != ResetResponse(p) ==> s'.Response(p) == s.Response(p)
    ensures InOrder(s', q, st[..|st| - 1])
  {
    var n := |st| - 1;
    var st' := st[..n];
    forall j | 0 <= j < |st'| && st'[j].ResetResponse? ensures StreamBelow(s', st', j) {
      assert StreamBelow(s, st, j) && st'[..j - 1] == st[..j - 1];
      if st[n].ResetResponse? {
        assert StreamBelow(s, st, n);
        assert st[j - 1] != st[n - 1];
        assert st[n] != st[j];
      }
    }
  }

  // Each step keeps the order of its own request.

  lemma HeldResponses(s: Sys, r: Id)
    requires Inv(s) && r < |s.reqs| && InUse(s.reqs[r])
    ensures forall i :: 0 <= i < |s.reqs[r].fetches| ==>
      Return(Obj(KResponse, s.reqs[r].fetches[i].response)) in Stack(s, r)
  {
    InPlace(s, r);
  }

  // Steps that push at most one cleanup, and no reset, and leave the responses alone.
  lemma PushKeepsOrder(s: Sys, s': Sys, r: Id, added: seq<Cleanup>)
    requires Inv(s) && Ordered(s) && r < |s.reqs| && s.reqs[r].Open() && r < |s'.reqs|
    requires Stack(s', r) == Stack(s, r) + added && (forall c :: c in added ==> !c.ResetResponse?)
    requires s'.responses == s.responses && Compatible(s.reqs[r], s'.reqs[r])
    ensures OrderedAt(s', r)
  {
    assert OrderedAt(s, r);
    if InUse(s.reqs[r]) { HeldResponses(s, r); }
    PushInOrder(s, s', s.reqs[r], s'.reqs[r], Stack(s, r), added);
  }

  lemma PlainOrder(s: Sys, a: Action)
    requires Step(s, a) && Ordered(s)
    requires a.Invoke? || a.EnterWait? || a.EnterException? || a.WaitReturn? || a.SyncReturn? || a.Throw?
          || a.RespondWith? || a.Adopt? || a.ReadKV? || a.Settle? || a.Fulfil? || a.FetchRefused?
          || a.FetchReturn? || a.Cancel?
    requires s.reqs[a.r].Open()
    ensures OrderedAt(Apply(s, a), a.r)
  {
    assert s.reqs[a.r].ctx < |s.ctxs| by { assert ReqInv(s, a.r); }
    PlainElsewhere(s, a, s.reqs[a.r].ctx);
    PlainCompatible(s, a);
    SameKeepsOrder(s, Apply(s, a), a.r);
  }

  // The request as its own fetches see it.
  ghost predicate SameToFetches(s: Sys, s': Sys, r: Id) {
    && r < |s.reqs| && r < |s'.reqs| && s'.responses == s.responses
    && Compatible(s.reqs[r], s'.reqs[r]) && s'.reqs[r].ctx == s.reqs[r].ctx && s'.reqs[r].Open() == s.reqs[r].Open()
  }

  lemma RequestCompatible(s: Sys, a: Action)
    requires Step(s, a)
    requires a.Invoke? || a.EnterWait? || a.EnterException? || a.WaitReturn? || a.SyncReturn? || a.Throw? || a.Cancel?
    ensures SameToFetches(s, Apply(s, a), a.r)
  {
    assert RequestInv(s.reqs[a.r]) by { assert ReqInv(s, a.r); }
    if a.WaitReturn? { ReturnCompatible(s, a.r); } else { FieldsCompatible(s, a); }
  }

  lemma ReturnCompatible(s: Sys, r: Id)
    requires r < |s.reqs| && RequestInv(s.reqs[r]) && s.reqs[r].http.Waiting?
    ensures SameToFetches(s, DoWaitReturn(s, r), r)
  {}

  lemma FieldsCompatible(s: Sys, a: Action)
    requires a.Invoke? || a.EnterWait? || a.EnterException? || a.SyncReturn? || a.Throw? || a.Cancel?
    requires Enabled(s, a) && RequestInv(s.reqs[a.r])
    ensures SameToFetches(s, Apply(s, a), a.r)
  {}

  lemma RespondCompatible(s: Sys, r: Id)
    requires r < |s.reqs|
    ensures SameToFetches(s, DoRespondWith(s, r), r) && SameToFetches(s, DoReadKV(s, r), r)
  {}

  lemma PromiseCompatible(s: Sys, r: Id, ok: bool, k: nat, w: Wrapper)
    requires r < |s.reqs|
    ensures SameToFetches(s, DoSettle(s, r, ok), r)
    ensures SameToFetches(s, s.SetReq(r, SetWrapper(s.reqs[r], k, w)), r)
  {}

  lemma ScriptCompatible(s: Sys, a: Action)
    requires Step(s, a) && (a.RespondWith? || a.ReadKV? || a.Settle? || a.Fulfil?)
    ensures SameToFetches(s, Apply(s, a), a.r)
  {
    if a.RespondWith? || a.ReadKV? { RespondCompatible(s, a.r); } else { SettleCompatible(s, a); }
  }

  lemma SettleCompatible(s: Sys, a: Action)
    requires Step(s, a) && (a.Settle? || a.Fulfil?)
    ensures SameToFetches(s, Apply(s, a), a.r)
  {
    PromiseCompatible(s, a.r, a.ok, if a.Fulfil? then a.x else 0, if a.ok then ResolveDue else RejectDue);
  }

  lemma AdoptCompatible(s: Sys, r: Id, i: nat, o: Owner)
    requires r < |s.reqs| && i < |s.reqs[r].fetches|
    ensures SameToFetches(s, s.SetReq(r, SetFetch(s.reqs[r], i, s.reqs[r].fetches[i].(owner := o))), r)
  {}

  lemma ProgressCompatible(s: Sys, r: Id, i: nat, ok: bool)
    requires r < |s.reqs| && i < |s.reqs[r].fetches| && s.reqs[r].fetches[i].callback.Unscheduled?
    ensures SameToFetches(s, DoFetchRefused(s, r, i), r)
    ensures s.reqs[r].fetches[i].pc.Running? ==> SameToFetches(s, DoFetchReturn(s, r, i, ok), r)
  {
    forall g: Fetch | g.response == s.reqs[r].fetches[i].response
      ensures SameToFetches(s, s.SetReq(r, SetFetch(s.reqs[r], i, g)), r)
    {
      MovedCompatible(s, r, i, g);
    }
  }

  lemma MovedCompatible(s: Sys, r: Id, i: nat, g: Fetch)
    requires r < |s.reqs| && i < |s.reqs[r].fetches| && s.reqs[r].fetches[i].callback.Unscheduled?
    requires g.response == s.reqs[r].fetches[i].response
    ensures SameToFetches(s, s.SetReq(r, SetFetch(s.reqs[r], i, g)), r)
  {}

  lemma FetchCompatible(s: Sys, a: Action)
    requires Step(s, a) && (a.FetchRefused? || a.FetchReturn?)
    ensures SameToFetches(s, Apply(s, a), a.r)
  {
    assert s.reqs[a.r].fetches[a.i].callback.Unscheduled? by {
      assert ReqInv(s, a.r) && FetchInv(s.reqs[a.r], s.reqs[a.r].fetches[a.i]);
    }
    ProgressCompatible(s, a.r, a.i, a.FetchReturn? && a.ok);
  }

  lemma PlainCompatible(s: Sys, a: Action)
    requires Step(s, a)
    requires a.Invoke? || a.EnterWait? || a.EnterException? || a.WaitReturn? || a.SyncReturn? || a.Throw?
          || a.RespondWith? || a.Adopt? || a.ReadKV? || a.Settle? || a.Fulfil? || a.FetchRefused?
          || a.FetchReturn? || a.Cancel?
    ensures SameToFetches(s, Apply(s, a), a.r)
  {
    if a.RespondWith? || a.ReadKV? || a.Settle? || a.Fulfil? { ScriptCompatible(s, a); }
    else if a.Adopt? { AdoptCompatible(s, a.r, a.i, a.o); }
    else if a.FetchRefused? || a.FetchReturn? { FetchCompatible(s, a); }
    else { RequestCompatible(s, a); }
  }

  lemma CountOrder(s: Sys, a: Action)
    requires Step(s, a) && Ordered(s)
    requires (a.WaitUntil? || a.CallResolve? || a.CallReject? || a.FetchStep? || a.WaitStep?) && s.reqs[a.r].Open()
    ensures OrderedAt(Apply(s, a), a.r)
  {
    assert s.reqs[a.r].ctx < |s.ctxs| by { assert ReqInv(s, a.r); }
    CountElsewhere(s, a, s.reqs[a.r].ctx);
    CountCompatible(s, a);
    SameKeepsOrder(s, Apply(s, a), a.r);
  }

  // Nothing pushed, nothing popped.
  lemma SameKeepsOrder(s: Sys, s': Sys, r: Id)
    requires Inv(s) && Ordered(s) && SameToFetches(s, s', r) && s.reqs[r].Open() && s.reqs[r].ctx < |s.ctxs|
    requires Elsewhere(s, s', s.reqs[r].ctx)
    ensures OrderedAt(s', r)
  {
    assert Stack(s', r) + [] == Stack(s', r) == Stack(s, r);
    PushKeepsOrder(s, s', r, []);
  }

  lemma ExtendersCompatible(s: Sys, a: Action)
    requires Step(s, a) && (a.WaitUntil? || a.CallResolve? || a.CallReject?)
    ensures SameToFetches(s, Apply(s, a), a.r)
  {
    if a.WaitUntil? { ExtendCompatible(s, a.r); } else { CallCompatible(s, a.r, a.x); }
  }

  lemma ExtendCompatible(s: Sys, r: Id)
    requires r < |s.reqs|
    ensures SameToFetches(s, DoWaitUntil(s, r), r)
  {}

  lemma CallCompatible(s: Sys, r: Id, k: nat)
    requires r < |s.reqs|
    ensures SameToFetches(s, DoCallResolve(s, r, k), r) && SameToFetches(s, DoCallReject(s, r, k), r)
  {}

  lemma TaskCompatible(s: Sys, a: Action)
    requires Step(s, a) && (a.StartTask? || a.RunTask? || a.EndTask?)
    ensures SameToFetches(s, Apply(s, a), a.r)
  {
    var tasks := TaskShape(s, a);
  }

  lemma TaskOrder(s: Sys, a: Action)
    requires Step(s, a) && Ordered(s) && (a.StartTask? || a.RunTask? || a.EndTask?) && s.reqs[a.r].Open()
    ensures OrderedAt(Apply(s, a), a.r)
  {
    assert s.reqs[a.r].ctx < |s.ctxs| by { assert ReqInv(s, a.r); }
    TaskElsewhere(s, a, s.reqs[a.r].ctx);
    TaskCompatible(s, a);
    SameKeepsOrder(s, Apply(s, a), a.r);
  }

  lemma WaitCompatible(s: Sys, r: Id)
    requires r < |s.reqs|
    ensures SameToFetches(s, DoWaitStep(s, r), r)
  {
    WaitOnly(s, r);
    WaitResponses(s, r);
  }

  lemma WaitResponses(s: Sys, r: Id)
    requires r < |s.reqs|
    ensures DoWaitStep(s, r).responses == s.responses
  {}

  lemma FetchStepCompatible(s: Sys, r: Id, i: nat)
    requires Step(s, FetchStep(r, i))
    ensures SameToFetches(s, DoFetchStep(s, r, i), r)
  {
    StepGoes(s, r, i);
    var pc := s.reqs[r].fetches[i].pc;
    var g;
    if pc.Start? || pc.Counted? { g := ReadShape(s, r, i); } else { g := CountShape(s, r, i); }
    FetchStepResponses(s, r, i);
  }

  lemma FetchStepResponses(s: Sys, r: Id, i: nat)
    requires r < |s.reqs| && i < |s.reqs[r].fetches|
    ensures DoFetchStep(s, r, i).responses == s.responses
  {}

  lemma CountCompatible(s: Sys, a: Action)
    requires Step(s, a) && (a.WaitUntil? || a.CallResolve? || a.CallReject? || a.FetchStep? || a.WaitStep?)
    ensures SameToFetches(s, Apply(s, a), a.r)
  {
    if a.FetchStep? { FetchStepCompatible(s, a.r, a.i); }
    else if a.WaitStep? { WaitCompatible(s, a.r); }
    else { ExtendersCompatible(s, a); }
  }

  lemma RunOrder(s: Sys, r: Id, which: Which)
    requires Step(s, Run(r, which)) && Ordered(s)
    ensures OrderedAt(DoRun(s, r, which), r)
  {
    var s', q := DoRun(s, r, which), s.reqs[r];
    RunnerInUse(s, r, which);
    var q', e' := Ran(r, q, s.Evt(q.evt), which, q.gone), Effect(ThreadOf(q, which), s.Evt(q.evt));
    assert q.Open() && s' == s.(reqs := s.reqs[r := q'], evts := s.evts[q.evt := e']) by {
      InPlace(s, r);
      RunShape(s, r, which);
    }
    RanKeepsOrder(s, s', r, q');
  }

  lemma RanKeepsOrder(s: Sys, s': Sys, r: Id, q': Req)
    requires Inv(s) && Ordered(s) && r < |s.reqs| && s.reqs[r].Open()
    requires s' == s.(reqs := s.reqs[r := q'], evts := s'.evts) && q'.Open() && q'.ctx == s.reqs[r].ctx
    requires Compatible(s.reqs[r], q')
    ensures InOrder(s', q', Stack(s', r))
  {
    assert Stack(s', r) + [] == Stack(s', r) == Stack(s, r);
    PushKeepsOrder(s, s', r, []);
  }

  lemma FirstInOrder(s: Sys, q: Req, e: Id)
    requires q.fetches == []
    ensures InOrder(s, q, [Return(Obj(KEvent, e))])
  {}

  lemma TakeEventOrder(s: Sys, r: Id)
    requires Step(s, TakeEvent(r)) && Ordered(s)
    ensures OrderedAt(DoTakeEvent(s, r), r)
  {
    var s', q, e := DoTakeEvent(s, r), s.reqs[r], s.Pick(KEvent);
    GotFacts(s, r);
    assert s'.reqs == s.reqs[r := q.(evt := e, http := Prepared)] && Stack(s', r) == [Return(Obj(KEvent, e))] by {
      PickBounds(s, KEvent);
      TakenIsReset(s, KEvent, r);
      TakeEventGrows(s, r);
    }
    FirstInOrder(s', s'.reqs[r], e);
  }

  // What a live owner finds when it reads.
  lemma LiveReads(s: Sys, r: Id, o: Owner)
    requires Inv(s) && r < |s.reqs| && Live(s.reqs[r], o)
    ensures Reads(s, r) && InUse(s.reqs[r])
    ensures s.evts[s.reqs[r].evt].http.Some? && s.ctxs[s.reqs[r].ctx].hdrPool
  {
    LiveInUse(s, r, o);
    ReadsHere(s, r);
  }

  lemma ReadFetchOrder(s: Sys, r: Id, o: Owner)
    requires Step(s, ReadFetch(r, o)) && Ordered(s)
    ensures OrderedAt(DoReadFetch(s, r), r)
  {
    LiveReads(s, r, o);
    PickBounds(s, KFetcher);
    if s.evts[s.reqs[r].evt].fetcher.None? {
      ReadFetchGrows(s, r);
      PushKeepsOrder(s, DoReadFetch(s, r), r, [Return(Obj(KFetcher, s.Pick(KFetcher)))]);
    }
  }

  lemma ReadHeadersOrder(s: Sys, r: Id, o: Owner)
    requires Step(s, ReadHeaders(r, o)) && Ordered(s)
    ensures OrderedAt(DoReadHeaders(s, r), r)
  {
    LiveReads(s, r, o);
    if s.evts[s.reqs[r].evt].headers.None? {
      ReadHeadersGrows(s, r);
      PushKeepsOrder(s, DoReadHeaders(s, r), r, [Return(Obj(KHeaders, s.Pick(KHeaders)))]);
    }
  }

  lemma ReadBodyOrder(s: Sys, r: Id, o: Owner)
    requires Step(s, ReadBody(r, o)) && Ordered(s)
    ensures OrderedAt(DoReadBody(s, r), r)
  {
    LiveReads(s, r, o);
    PickBounds(s, KStream);
    if s.evts[s.reqs[r].evt].body.None? {
      ReadBodyGrows(s, r);
      PushKeepsOrder(s, DoReadBody(s, r), r, [Return(Obj(KStream, s.Pick(KStream)))]);
    }
  }

  lemma ResponseHeadersOrder(s: Sys, r: Id, o: Owner, i: nat)
    requires Step(s, ReadResponseHeaders(r, o, i)) && Ordered(s)
    ensures OrderedAt(DoReadResponseHeaders(s, r, i), r)
  {
    LiveReads(s, r, o);
    ResponseBound(s, r, i);
    if s.Response(s.reqs[r].fetches[i].response).headers.None? {
      ResponseHeadersGrows(s, r, i);
      assert OrderedAt(s, r);
      HeadersInOrder(s, DoReadResponseHeaders(s, r, i), s.reqs[r], Stack(s, r), i, s.Pick(KHeaders));
    }
  }

  lemma FetchCallOrder(s: Sys, r: Id, o: Owner, body: FetchBody)
    requires Step(s, DoFetch(r, o, body)) && Ordered(s)
    ensures OrderedAt(DoFetchCall(s, r, o, body), r)
  {
    LiveReads(s, r, o);
    EventFetcherBound(s, r);
    TakenIsReset(s, KResponse, r);
    FetchCallGrows(s, r, o, body);
    TakenIsFresh(s, KResponse, r);
    var s' := DoFetchCall(s, r, o, body);
    HeldStays(s, s', r);
    HeldResponses(s, r);
    assert OrderedAt(s, r);
    FetchCallInOrder(s, s', s.reqs[r], Stack(s, r), NewFetch(s, r, o, body), BodyCleanups(body));
  }

  lemma HeldStays(s: Sys, s': Sys, r: Id)
    requires Inv(s) && r < |s.reqs| && s.reqs[r].Open() && s.responses <= s'.responses
    ensures SameResponses(s, s', Stack(s, r))
  {
    Mine(s, r);
    assert forall p: Id :: Return(Obj(KResponse, p)) in Stack(s, r) ==> p < s.Made(KResponse);
  }

  lemma SettleOrder(s: Sys, r: Id, o: Outcome, text: bool)
    requires Step(s, SettleResponse(r, o, text)) && Ordered(s)
    ensures OrderedAt(DoSettleResponse(s, r, o, text), r)
  {
    LiveInUse(s, r, ByResponse);
    InPlace(s, r);
    var s' := DoSettleResponse(s, r, o, text);
    assert Stack(s', r) == Stack(s, r) + (if text then [ResetBuffer] else []);
    PushKeepsOrder(s, s', r, if text then [ResetBuffer] else []);
  }

  lemma CallbackOrder(s: Sys, r: Id, i: nat)
    requires Step(s, RunCallback(r, i)) && Ordered(s)
    ensures OrderedAt(DoRunCallback(s, r, i), r)
  {
    CallbackInUse(s, r, i);
    CallbackReads(s, r, i);
    if s.reqs[r].fetches[i].callback.ok { GoodCallbackOrder(s, r, i); } else { FailedCallbackOrder(s, r, i); }
  }

  lemma GoodCallbackOrder(s: Sys, r: Id, i: nat)
    requires Inv(s) && Ordered(s) && Reads(s, r) && InUse(s.reqs[r])
    requires i < |s.reqs[r].fetches| && s.reqs[r].fetches[i].callback == Scheduled(true)
    requires s.Fetcher(s.reqs[r].fetches[i].fetcher) == Fetcher(Some(s.reqs[r].ctx))
    requires s.Queue(KStream) != [] ==> s.Pick(KStream) < |s.streams|
    requires s.reqs[r].fetches[i].response < |s.responses|
    requires Return(Obj(KResponse, s.reqs[r].fetches[i].response)) in Stack(s, r)
    ensures OrderedAt(DoRunCallback(s, r, i), r)
  {
    CallbackGrows(s, r, i);
    CallbackFields(s, r, i);
    assert OrderedAt(s, r);
    CallbackInOrder(s, DoRunCallback(s, r, i), s.reqs[r], Stack(s, r), i, s.Pick(KStream));
  }

  lemma FailedCallbackOrder(s: Sys, r: Id, i: nat)
    requires Inv(s) && Ordered(s) && Reads(s, r)
    requires i < |s.reqs[r].fetches| && s.reqs[r].fetches[i].callback == Scheduled(false)
    ensures OrderedAt(DoRunCallback(s, r, i), r)
  {
    var s', g := DoRunCallback(s, r, i), s.reqs[r].fetches[i];
    assert s' == s.(reqs := s.reqs[r := SetFetch(s.reqs[r], i, g.(callback := Settled(false)))]);
    assert Stack(s', r) + [] == Stack(s', r) == Stack(s, r);
    PushKeepsOrder(s, s', r, []);
  }

  lemma CallbackFields(s: Sys, r: Id, i: nat)
    requires r < |s.reqs| && i < |s.reqs[r].fetches| && s.reqs[r].fetches[i].callback == Scheduled(true)
    requires s.Fetcher(s.reqs[r].fetches[i].fetcher).ioContext.Some? && s.reqs[r].fetches[i].response < |s.responses|
    ensures var s', p := DoRunCallback(s, r, i), s.reqs[r].fetches[i].response;
      s'.Response(p).body == Some(s.Pick(KStream)) && s'.Response(p).headers == s.Response(p).headers
  {}

  lemma ReleaseOrder(s: Sys, r: Id)
    requires Step(s, ReleaseStep(r)) && Ordered(s)
    ensures OrderedAt(DoReleaseStep(s, r), r)
  {
    if s.reqs[r].releaser.Cleaning? && Stack(s, r) != [] {
      CleanOrder(s, r);
    } else if !s.reqs[r].releaser.Putting? {
      assert s.reqs[r].ctx < |s.ctxs| by { assert ReqInv(s, r); }
      PhaseOrder(s, r);
    }
  }

  lemma CleanOrder(s: Sys, r: Id)
    requires Inv(s) && Ordered(s) && r < |s.reqs| && s.reqs[r].releaser.Cleaning? && Stack(s, r) != []
    ensures OrderedAt(DoReleaseStep(s, r), r)
  {
    var s', st := DoReleaseStep(s, r), Stack(s, r);
    TopFacts(s, r);
    CleanShrinks(s, r, st[|st| - 1]);
    assert Stack(s', r) == st[..|st| - 1];
    assert OrderedAt(s, r);
    PopInOrder(s, s', s.reqs[r], st);
  }

  lemma PhaseOrder(s: Sys, r: Id)
    requires Inv(s) && Ordered(s) && r < |s.reqs| && s.reqs[r].ctx < |s.ctxs| && Enabled(s, ReleaseStep(r))
    requires s.reqs[r].releaser.OnCancelled? || s.reqs[r].releaser.OnFetches? ||
      (s.reqs[r].releaser.Cleaning? && Stack(s, r) == [])
    ensures OrderedAt(DoReleaseStep(s, r), r)
  {
    var s', q := DoReleaseStep(s, r), s.reqs[r];
    assert Stack(s', r) + [] == Stack(s', r) == Stack(s, r);
    assert s'.responses == s.responses && s'.reqs[r].fetches == q.fetches;
    PushKeepsOrder(s, s', r, []);
  }

  lemma OwnOrder(s: Sys, a: Action)
    requires Step(s, a) && Ordered(s) && !a.Arrive? && s.reqs[a.r].Open()
    ensures OrderedAt(Apply(s, a), a.r)
  {
    if a.Run? { RunOrder(s, a.r, a.which); }
    else if a.StartTask? || a.RunTask? || a.EndTask? { TaskOrder(s, a); }
    else if a.WaitUntil? || a.CallResolve? || a.CallReject? || a.FetchStep? || a.WaitStep? { CountOrder(s, a); }
    else if a.TakeEvent? { TakeEventOrder(s, a.r); }
    else if a.ReadFetch? { ReadFetchOrder(s, a.r, a.o); }
    else if a.ReadHeaders? { ReadHeadersOrder(s, a.r, a.o); }
    else if a.ReadBody? { ReadBodyOrder(s, a.r, a.o); }
    else if a.ReadResponseHeaders? { ResponseHeadersOrder(s, a.r, a.o, a.i); }
    else if a.DoFetch? { FetchCallOrder(s, a.r, a.o, a.body); }
    else if a.SettleResponse? { SettleOrder(s, a.r, a.outcome, a.text); }
    else if a.RunCallback? { CallbackOrder(s, a.r, a.i); }
    else if a.ReleaseStep? { ReleaseOrder(s, a.r); }
    else { PlainOrder(s, a); }
  }

  // A step changes only responses of its own request.

  ghost predicate OthersResponse(s: Sys, r: Id, p: Id) {
    Obj(KResponse, p) in s.home && s.home[Obj(KResponse, p)].Owned? && s.home[Obj(KResponse, p)] != Owned(r)
  }

  lemma ReadResponses(s: Sys, a: Action)
    requires Step(s, a) && (a.ReadFetch? || a.ReadHeaders? || a.ReadBody?)
    ensures Apply(s, a).responses == s.responses
  {
    LiveReads(s, a.r, a.o);
    PickBounds(s, KFetcher);
    PickBounds(s, KStream);
    match a {
      case ReadFetch(r, _) => if s.evts[s.reqs[r].evt].fetcher.None? { ReadFetchGrows(s, r); }
      case ReadHeaders(r, _) => if s.evts[s.reqs[r].evt].headers.None? { ReadHeadersGrows(s, r); }
      case ReadBody(r, _) => if s.evts[s.reqs[r].evt].body.None? { ReadBodyGrows(s, r); }
    }
  }

  lemma ProxyResponses(s: Sys, r: Id, o: Owner, i: nat, p: Id)
    requires Step(s, ReadResponseHeaders(r, o, i)) && OthersResponse(s, r, p)
    ensures DoReadResponseHeaders(s, r, i).Response(p) == s.Response(p)
  {
    LiveReads(s, r, o);
    ResponseBound(s, r, i);
    Mine(s, r);
    if s.Response(s.reqs[r].fetches[i].response).headers.None? { ResponseHeadersGrows(s, r, i); }
  }

  lemma FetchCallResponses(s: Sys, r: Id, o: Owner, body: FetchBody, p: Id)
    requires Step(s, DoFetch(r, o, body)) && OthersResponse(s, r, p)
    ensures DoFetchCall(s, r, o, body).Response(p) == s.Response(p)
  {
    LiveReads(s, r, o);
    EventFetcherBound(s, r);
    TakenIsReset(s, KResponse, r);
    FetchCallGrows(s, r, o, body);
    assert p < s.Made(KResponse);
  }

  lemma CallbackResponses(s: Sys, r: Id, i: nat, p: Id)
    requires Step(s, RunCallback(r, i)) && OthersResponse(s, r, p)
    ensures DoRunCallback(s, r, i).Response(p) == s.Response(p)
  {
    CallbackInUse(s, r, i);
    CallbackReads(s, r, i);
    assert p != s.reqs[r].fetches[i].response by { Mine(s, r); }
    if s.reqs[r].fetches[i].callback.ok { CallbackGrows(s, r, i); } else { FailedCallback(s, r, i); }
  }

  lemma FailedCallback(s: Sys, r: Id, i: nat)
    requires r < |s.reqs| && i < |s.reqs[r].fetches| && s.reqs[r].fetches[i].callback == Scheduled(false)
    ensures DoRunCallback(s, r, i).responses == s.responses
  {}

  lemma ReleaseResponses(s: Sys, r: Id, p: Id)
    requires Step(s, ReleaseStep(r)) && OthersResponse(s, r, p)
    ensures DoReleaseStep(s, r).Response(p) == s.Response(p)
  {
    if s.reqs[r].releaser.Cleaning? && Stack(s, r) != [] {
      TopFacts(s, r);
      var c := Stack(s, r)[|Stack(s, r)| - 1];
      CleanShrinks(s, r, c);
      ShrunkElsewhere(s, DoReleaseStep(s, r), r, c, Obj(KResponse, p));
    }
  }

  lemma TakeEventResponses(s: Sys, r: Id)
    requires Step(s, TakeEvent(r))
    ensures DoTakeEvent(s, r).responses == s.responses
  {
    GotFacts(s, r);
    PickBounds(s, KEvent);
    TakenIsReset(s, KEvent, r);
    TakeEventGrows(s, r);
  }

  lemma ArriveResponses(s: Sys)
    ensures DoArrive(s).responses == s.responses
  {}

  lemma RunResponses(s: Sys, r: Id, which: Which)
    requires r < |s.reqs|
    ensures DoRun(s, r, which).responses == s.responses
  {}

  lemma AnswerResponses(s: Sys, r: Id, o: Outcome, text: bool)
    requires r < |s.reqs|
    ensures DoSettleResponse(s, r, o, text).responses == s.responses
  {}

  lemma OthersResponses(s: Sys, a: Action, p: Id)
    requires Step(s, a) && !a.Arrive? && OthersResponse(s, a.r, p)
    ensures Apply(s, a).Response(p) == s.Response(p)
  {
    if a.ReadResponseHeaders? || a.DoFetch? || a.RunCallback? || a.ReleaseStep? { MovedResponses(s, a, p); }
    else if a.ReadFetch? || a.ReadHeaders? || a.ReadBody? { ReadResponses(s, a); }
    else if a.TakeEvent? { TakeEventResponses(s, a.r); }
    else { KeptResponses(s, a); }
  }

  lemma MovedResponses(s: Sys, a: Action, p: Id)
    requires Step(s, a) && (a.ReadResponseHeaders? || a.DoFetch? || a.RunCallback? || a.ReleaseStep?)
    requires OthersResponse(s, a.r, p)
    ensures Apply(s, a).Response(p) == s.Response(p)
  {
    match a {
      case ReadResponseHeaders(r, o, i) => ProxyResponses(s, r, o, i, p);
      case DoFetch(r, o, body) => FetchCallResponses(s, r, o, body, p);
      case RunCallback(r, i) => CallbackResponses(s, r, i, p);
      case ReleaseStep(r) => ReleaseResponses(s, r, p);
    }
  }

  lemma KeptResponses(s: Sys, a: Action)
    requires Step(s, a) && !a.Arrive?
    requires !a.ReadFetch? && !a.ReadHeaders? && !a.ReadBody? && !a.ReadResponseHeaders? && !a.DoFetch?
    requires !a.RunCallback?
    requires !a.ReleaseStep? && !a.TakeEvent?
    ensures Apply(s, a).responses == s.responses
  {
    if a.WaitUntil? || a.CallResolve? || a.CallReject? || a.FetchStep? || a.WaitStep? { CountCompatible(s, a); }
    else if a.StartTask? || a.RunTask? || a.EndTask? { TaskCompatible(s, a); }
    else if a.Run? { RunResponses(s, a.r, a.which); }
    else if a.SettleResponse? { AnswerResponses(s, a.r, a.outcome, a.text); }
    else { PlainCompatible(s, a); }
  }

  lemma OtherOrder(s: Sys, a: Action, r: Id)
    requires Step(s, a) && Ordered(s) && r < |s.reqs| && s.reqs[r].Open() && (a.Arrive? || a.r != r)
    ensures OrderedAt(Apply(s, a), r)
  {
    var s', st := Apply(s, a), Stack(s, r);
    OthersStep(s, r, a);
    OtherRemains(s, r, a);
    Mine(s, r);
    if a.Arrive? { ArriveResponses(s); }
    forall p: Id | Return(Obj(KResponse, p)) in st ensures s'.Response(p) == s.Response(p) {
      if !a.Arrive? { OthersResponses(s, a, p); }
    }
    assert OrderedAt(s, r);
    if InUse(s.reqs[r]) { HeldResponses(s, r); }
    assert st + [] == st;
    PushInOrder(s, s', s.reqs[r], s.reqs[r], st, []);
  }

  lemma StepOrdered(s: Sys, a: Action)
    requires Step(s, a) && Ordered(s)
    ensures Ordered(Apply(s, a))
  {
    var s' := Apply(s, a);
    if !a.Arrive? { var n := StepOwn(s, a); }
    forall r: Id | r < |s'.reqs| ensures OrderedAt(s', r) {
      if r == |s.reqs| {
        NewOrder(s);
      } else {
        StepOrderedAt(s, a, r);
      }
    }
  }

  lemma StepOrderedAt(s: Sys, a: Action, r: Id)
    requires Step(s, a) && Ordered(s) && r < |s.reqs|
    ensures OrderedAt(Apply(s, a), r)
  {
    if s.reqs[r].Open() {
      if a.Arrive? || a.r != r { OtherOrder(s, a, r); } else { OwnOrder(s, a); }
    } else {
      StepAdvances(s, a);
      assert Advances(s.reqs[r], Apply(s, a).reqs[r]);
    }
  }

  lemma NewOrder(s: Sys)
    requires Inv(s)
    ensures |s.reqs| < |DoArrive(s).reqs| && OrderedAt(DoArrive(s), |s.reqs|)
  {
    PickBounds(s, KContext);
    ArriveShape(s);
    ArriveUntouched(s);
    assert Stack(DoArrive(s), |s.reqs|) == [];
  }

  lemma {:induction false} RunOrdered(s: Sys, actions: seq<Action>)
    requires Inv(s) && Ordered(s) && Runs(s, actions)
    ensures Ordered(After(s, actions))
    decreases |actions|
  {
    if actions != [] {
      StepOrdered(s, actions[0]);
      StepKeeps(s, actions[0]);
      RunOrdered(Apply(s, actions[0]), actions[1..]);
    }
  }

  // In every reachable state: on the stack of a request, from below, come the return
  // of a fetched response's proxy, that of its stream, its reset right above, and
  // the return of its headers if the script has read them.  Run from the top, the
  // cleanups take it down in the opposite order.
  lemma ResponseTakenDownInOrder(s: Sys, r: Id, j: nat)
    requires Reachable(s) && r < |s.reqs| && j < |Stack(s, r)| && Stack(s, r)[j].ResetResponse?
    ensures var st := Stack(s, r); var v := s.Response(st[j].id);
      && j >= 2 && v.body.Some? && st[j - 1] == Return(Obj(KStream, v.body.value))
      && Return(Obj(KResponse, st[j].id)) in st[..j - 1]
      && (InUse(s.reqs[r]) && v.headers.Some? ==> Return(Obj(KHeaders, v.headers.value)) in st[j + 1..])
  {
    var actions :| Runs(Init(), actions) && After(Init(), actions) == s;
    InitInv();
    RunOrdered(Init(), actions);
    assert OrderedAt(s, r);
  }
}
