// The pooled objects of one runtime instance, as values.  Each operation on an
// object is a function here; the transition system (Middleware) runs these
// functions interleaved, and the classes prove that the imperative code computes
// them.
module Objects {
  import opened Base

  type Id = nat

  // The six kinds of pooled object.
  datatype Kind = KContext | KEvent | KFetcher | KResponse | KStream | KHeaders
  datatype Obj = Obj(kind: Kind, id: Id)

  // x.DefaultPoolCapacity, and the permits given to each IOContext.
  const POOL_CAPACITY := 2048
  const CONCURRENCY := 10

  // A function on the cleanup stack.  Return(o) is the closure that gives o back
  // to its pool (resetting it first, except for a ResponseProxy);
  // ResetResponse(p) is ResponseProxy.reset; ResetBuffer is strBuf.Reset.
  datatype Cleanup = Return(obj: Obj) | ResetResponse(id: Id) | ResetBuffer

  // extendedCtx and its cancel function: nil, not cancelled, or cancelled.
  datatype Signal = Nil | Uncancelled | Cancelled

  datatype ContextKind = OnExtended | OnRequest

  // IOContext.  `request` names the request whose http context is in reqCtx;
  // `hdrPool` says that the headers pool is set.  `registered` and `ran` are
  // history: what was registered and what has run since the last Get.
  datatype Ctx = Ctx(
    extenders: int,
    fetches: int,
    held: int,
    shouldExtend: bool,
    extended: Signal,
    request: Option<Id>,
    hdrPool: bool,
    cleanups: seq<Cleanup>,
    registered: seq<Cleanup>,
    ran: seq<Cleanup>)
  {
    // IOContextPool.Get assigns four fields and leaves the rest as it finds them.
    function Begin(r: Id): Ctx {
      this.(extended := Uncancelled, request := Some(r), hdrPool := true, shouldExtend := false,
            registered := cleanups, ran := [])
    }

    function ExtendContext(): Ctx {
      this.(shouldExtend := true, extenders := extenders + 1)
    }

    function ConcludeExtend(): Ctx {
      this.(extenders := extenders - 1)
    }

    function Context(): ContextKind {
      if shouldExtend then OnExtended else OnRequest
    }

    function RegisterCleanup(c: Cleanup): Ctx {
      this.(cleanups := cleanups + [c], registered := registered + [c])
    }

    function PopCleanup(): Ctx
      requires cleanups != []
    {
      this.(cleanups := cleanups[..|cleanups| - 1], ran := ran + [cleanups[|cleanups| - 1]])
    }

    // The assignments of IOContextPool.Put after release() has returned.
    function Retire(): Ctx {
      this.(hdrPool := false, request := None, extended := Nil)
    }

    // What a context in the pool looks like; permits and history do not matter.
    predicate Idle() {
      && extenders == 0 && fetches == 0
      && extended == Nil && request == None && !hdrPool
      && cleanups == []
    }
  }

  const NewCtx := Ctx(0, 0, 0, false, Nil, None, false, [], [], [])

  // FetchEvent.  `http` names the request whose reader, writer and next handler
  // are installed; `fetcher`, `headers` and `body` are the pooled objects the event
  // points at; `kv` is the context bound into the KV proxies.  The two channels
  // have capacity one and are given by the number of tokens in them.
  datatype Evt = Evt(
    http: Option<Id>,
    ioContext: Option<Id>,
    fetcher: Option<Id>,
    headers: Option<Id>,
    body: Option<Id>,
    kv: Option<Id>,
    skipNext: bool,
    useRespondWith: bool,
    responseSent: bool,
    requestDone: nat,
    responseDone: nat)
  {
    // FetchEvent.reset: the channels are left as they are.
    function Reset(): Evt {
      NewEvt.(requestDone := requestDone, responseDone := responseDone)
    }
  }

  const NewEvt := Evt(None, None, None, None, None, None, false, false, false, 0, 0)

  // NativeFetcher (its wrapper's ioContext), ResponseProxy, ReadableStream and
  // HeadersProxy.
  datatype Fetcher = Fetcher(ioContext: Option<Id>)
  datatype Response = Response(ioContext: Option<Id>, resp: bool, headers: Option<Id>, body: Option<Id>)
  datatype Stream = Stream(reader: bool, native: bool)
  datatype Headers = Headers(header: bool)

  const NewFetcher := Fetcher(None)
  const NewResponse := Response(None, false, None, None)
  const NewStream := Stream(false, false)
  const NewHeaders := Headers(false)
}
