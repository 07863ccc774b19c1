/** The request context of the router (pkg/router/handler.go) and the
    handler and middleware values it runs.

    A Go `HandlerFunc` is a closure over `*Context`; here it is a term that
    the context interprets: an application handler is a `Leaf` listing what
    it does to the context, the closure `addRoute` builds is `Combined`, and a
    handler wrapped by a middleware is `Wrapped`. `RunH` and its companions
    give the meaning of a term as a function of the context's state; the
    class `Context` holds the same fields as the Go struct, and its methods
    change them in place, each proved to reach the state the function gives. */
module Handlers {
  import opened Strings

  const StatusOK := 200
  const StatusUnauthorized := 401

  /** What the model keeps of *http.Request. */
  datatype HttpRequest = HttpRequest(httpMethod: string, path: string, remoteAddr: string, header: map<string, string>)

  /** Header.Get: the value stored under `key`, or "" when there is none. */
  function HeaderGet(header: map<string, string>, key: string): (r: string)
    ensures key !in header ==> r == []
  {
    if key in header then header[key] else []
  }

  /** The response writer as a sink: its header map and the codes passed to
      WriteHeader, in order. */
  datatype Sink = Sink(header: map<string, string>, written: seq<int>)

  /** One thing an application handler does to its context. */
  datatype Step =
    | StatusStep(code: int)                    // c.Status(code)
    | Reply(code: int, contentType: string)    // c.String / c.JSON / c.Data / c.HTML
    | HeaderStep(key: string, value: string)   // c.SetHeader
    | KeyStep(key: string, value: string)      // c.Set
    | NextStep                                 // c.Next()
    | AbortStep                                // c.Abort()
    | AbortWithStatusStep(code: int)           // c.AbortWithStatus(code)

  /** The middlewares of pkg/router/middleware.go that are plain values.
      `authorize` is the authFunc given to Auth; `generate` stands for
      generateRequestID, whose clock and randomness are not modelled. */
  datatype MiddlewareFunc =
    | Logger
    | Recover
    | Cors
    | Auth(authorize: HttpRequest -> bool)
    | RequestId(generate: HttpRequest -> string)

  datatype HandlerFunc =
    | Leaf(name: string, steps: seq<Step>)
    | Combined(chain: seq<HandlerFunc>)
    | Wrapped(middleware: MiddlewareFunc, next: HandlerFunc)

  function Size(h: HandlerFunc): (n: nat)
    ensures n >= 1
  {
    match h
    case Leaf(_, steps) => 1 + |steps|
    case Combined(chain) => 1 + SizeSeq(chain)
    case Wrapped(_, next) => 2 + Size(next)
  }

  function SizeSeq(hs: seq<HandlerFunc>): nat
  {
    if hs == [] then 0 else 1 + Size(hs[0]) + SizeSeq(hs[1..])
  }

  /** A snapshot of the Context fields; `trace` lists the application
      handlers run so far, by name. Params and Keys are Go maps, which may be
      nil (None). */
  datatype Ctx = Ctx(writer: Option<Sink>, request: Option<HttpRequest>, params: Option<map<string, string>>,
                     statusCode: int, handlers: seq<HandlerFunc>, index: int, keys: Option<map<string, string>>,
                     trace: seq<string>)

  /** A context serving a request: its writer and request are set, and its
      index has not gone below the -1 that newContext and reset leave. */
  predicate Live(s: Ctx)
  {
    s.writer.Some? && s.request.Some? && s.index >= -1
  }

  /** IsAborted. */
  predicate Aborted(s: Ctx)
  {
    s.index >= |s.handlers|
  }

  /** How many handlers of the chain are still to run. */
  function Rem(s: Ctx): nat
  {
    if s.index < |s.handlers| then |s.handlers| - s.index else 0
  }

  // ------------------------------------------------- single state changes

  /** newContext: a pooled context prepared for a request. Keys survive from
      the context's previous use. */
  function Prepared(s: Ctx, w: Sink, req: HttpRequest): (r: Ctx)
    ensures Live(r) && r.statusCode == StatusOK && r.index == -1 && r.handlers == [] && r.params == Some(map[])
    ensures !Aborted(r) && r.keys == s.keys
  {
    s.(writer := Some(w), request := Some(req), params := Some(map[]), statusCode := StatusOK, handlers := [], index := -1)
  }

  /** reset. */
  function ResetCtx(s: Ctx): (r: Ctx)
    ensures !Live(r) && r.params.None? && r.statusCode == StatusOK && r.handlers == [] && r.index == -1
    ensures r.keys == s.keys
  {
    s.(writer := None, request := None, params := None, statusCode := StatusOK, handlers := [], index := -1)
  }

  /** Status: the code is stored and written to the sink. */
  function SetStatus(s: Ctx, code: int): (r: Ctx)
    requires Live(s)
    ensures Live(r) && r.statusCode == code && r.writer.value.written == s.writer.value.written + [code]
    ensures r.index == s.index && r.handlers == s.handlers && r.keys == s.keys
  {
    s.(statusCode := code, writer := Some(s.writer.value.(written := s.writer.value.written + [code])))
  }

  /** SetHeader: a response header. */
  function WithHeader(s: Ctx, key: string, value: string): (r: Ctx)
    requires Live(s)
    ensures Live(r) && r.writer.value.header == s.writer.value.header[key := value]
    ensures r.index == s.index && r.handlers == s.handlers && r.statusCode == s.statusCode && r.keys == s.keys
  {
    s.(writer := Some(s.writer.value.(header := s.writer.value.header[key := value])))
  }

  /** Abort: no pending handler of the chain will run. */
  function AbortCtx(s: Ctx): (r: Ctx)
    ensures Aborted(r) && Rem(r) == 0 && r.statusCode == s.statusCode && r.handlers == s.handlers
  {
    s.(index := |s.handlers|)
  }

  /** AbortWithStatus: Status, then Abort. */
  function AbortWithStatusCtx(s: Ctx, code: int): (r: Ctx)
    requires Live(s)
    ensures Live(r) && Aborted(r) && r.statusCode == code && r.writer.value.written == s.writer.value.written + [code]
    ensures r.handlers == s.handlers && r.keys == s.keys && r.request == s.request
  {
    AbortCtx(SetStatus(s, code))
  }

  /** Set: Keys is created on first use; only `key` changes. */
  function SetKey(s: Ctx, key: string, value: string): (r: Ctx)
    ensures r.keys.Some? && key in r.keys.value && r.keys.value[key] == value
    ensures s.keys.Some? ==> r.keys.value.Keys == s.keys.value.Keys + {key}
    ensures s.keys.None? ==> r.keys.value.Keys == {key}
    ensures s.keys.Some? ==> forall k | k in s.keys.value && k != key :: r.keys.value[k] == s.keys.value[k]
    ensures r.index == s.index && r.handlers == s.handlers && r.statusCode == s.statusCode
  {
    var m := if s.keys.None? then map[] else s.keys.value;
    s.(keys := Some(m[key := value]))
  }

  /** Param: the stored value, or "" for a missing key (or a nil map). */
  function ParamValue(s: Ctx, key: string): (r: string)
    ensures s.params.Some? && key in s.params.value ==> r == s.params.value[key]
    ensures !(s.params.Some? && key in s.params.value) ==> r == []
  {
    if s.params.Some? && key in s.params.value then s.params.value[key] else []
  }

  /** HandlersChain.Last: the final handler, or nil for an empty chain. */
  function Last(chain: seq<HandlerFunc>): (r: Option<HandlerFunc>)
    ensures r.None? <==> chain == []
    ensures r.Some? ==> r.value == chain[|chain| - 1]
  {
    if |chain| > 0 then Some(chain[|chain| - 1]) else None
  }

  // ------------------------------------------------ running handler terms

  /** One step of an application handler. */
  function RunStep(s: Ctx, step: Step): (r: Ctx)
    requires Live(s)
    ensures Live(r) && r.handlers == s.handlers && Rem(r) <= Rem(s)
    ensures r.request == s.request && r.params == s.params
    decreases Rem(s), 1, 0
  {
    match step
    case StatusStep(code) => SetStatus(s, code)
    case Reply(code, contentType) => SetStatus(WithHeader(s, "Content-Type", contentType), code)
    case HeaderStep(key, value) => WithHeader(s, key, value)
    case KeyStep(key, value) => SetKey(s, key, value)
    case NextStep => RunNext(s)
    case AbortStep => AbortCtx(s)
    case AbortWithStatusStep(code) => AbortWithStatusCtx(s, code)
  }

  function RunSteps(s: Ctx, steps: seq<Step>): (r: Ctx)
    requires Live(s)
    ensures Live(r) && r.handlers == s.handlers && Rem(r) <= Rem(s)
    ensures r.request == s.request && r.params == s.params
    decreases Rem(s), 1, |steps|
  {
    if steps == [] then s else RunSteps(RunStep(s, steps[0]), steps[1..])
  }

  /** Next: the index moves on, then every remaining handler of the chain
      runs in turn; on return the context is aborted. */
  function RunNext(s: Ctx): (r: Ctx)
    requires Live(s)
    ensures Live(r) && r.handlers == s.handlers && Rem(r) <= Rem(s) && Aborted(r)
    ensures r.request == s.request && r.params == s.params
    decreases Rem(s), 0, 0
  {
    var t := s.(index := s.index + 1);
    if t.index < |t.handlers| then RunLoop(t) else t
  }

  /** The loop of Next, from a handler that is due to run. */
  function RunLoop(s: Ctx): (r: Ctx)
    requires Live(s) && 0 <= s.index < |s.handlers|
    ensures Live(r) && r.handlers == s.handlers && Rem(r) < Rem(s) && Aborted(r)
    ensures r.request == s.request && r.params == s.params
    decreases Rem(s), 2, 0
  {
    var u := RunH(s, s.handlers[s.index]);
    var v := u.(index := u.index + 1);
    if v.index < |v.handlers| then RunLoop(v) else v
  }

  /** A handler term run on a context. */
  function RunH(s: Ctx, h: HandlerFunc): (r: Ctx)
    requires Live(s)
    ensures Live(r) && r.handlers == s.handlers && Rem(r) <= Rem(s)
    ensures r.request == s.request && r.params == s.params
    decreases Rem(s), 1, Size(h)
  {
    match h
    case Leaf(name, steps) => RunSteps(s.(trace := s.trace + [name]), steps)
    case Combined(chain) => RunChain(s, chain)
    case Wrapped(m, next) =>
      match m
      case Logger => RunH(s, next)
      case Recover => RunH(s, next)
      case Cors => RunCors(s, next)
      case Auth(authorize) => RunAuth(s, authorize, next)
      case RequestId(generate) => RunRequestId(s, generate, next)
  }

  /** The handler addRoute stores: each handler in turn, stopping after the
      first that leaves the context aborted. */
  function RunChain(s: Ctx, chain: seq<HandlerFunc>): (r: Ctx)
    requires Live(s)
    ensures Live(r) && r.handlers == s.handlers && Rem(r) <= Rem(s)
    ensures r.request == s.request && r.params == s.params
    decreases Rem(s), 1, SizeSeq(chain)
  {
    if chain == [] then s
    else
      var t := RunH(s, chain[0]);
      if Aborted(t) then t else RunChain(t, chain[1..])
  }

  const AllowOrigin := "Access-Control-Allow-Origin"
  const AllowMethods := "Access-Control-Allow-Methods"
  const AllowHeaders := "Access-Control-Allow-Headers"
  const CorsMethods := "GET, POST, PUT, DELETE, OPTIONS"
  const CorsHeaderNames := "Origin, Content-Type, Content-Length, Accept-Encoding, X-CSRF-Token, Authorization"

  /** The three headers CORS sets on every request. */
  function CorsHeaders(s: Ctx): (r: Ctx)
    requires Live(s)
  {
    WithHeader(WithHeader(WithHeader(s, AllowOrigin, "*"), AllowMethods, CorsMethods), AllowHeaders, CorsHeaderNames)
  }

  /** CORS around `next`: the headers, then a 200 abort for OPTIONS or the
      next handler otherwise. */
  function RunCors(s: Ctx, next: HandlerFunc): (r: Ctx)
    requires Live(s)
    ensures Live(r) && r.handlers == s.handlers && Rem(r) <= Rem(s)
    ensures r.request == s.request && r.params == s.params
    decreases Rem(s), 1, Size(next) + 1
  {
    var t := CorsHeaders(s);
    if s.request.value.httpMethod == "OPTIONS" then AbortWithStatusCtx(t, StatusOK) else RunH(t, next)
  }

  /** Auth around `next`: 401 and abort when authFunc refuses. */
  function RunAuth(s: Ctx, authorize: HttpRequest -> bool, next: HandlerFunc): (r: Ctx)
    requires Live(s)
    ensures Live(r) && r.handlers == s.handlers && Rem(r) <= Rem(s)
    ensures r.request == s.request && r.params == s.params
    decreases Rem(s), 1, Size(next) + 1
  {
    if !authorize(s.request.value) then AbortWithStatusCtx(s, StatusUnauthorized) else RunH(s, next)
  }

  /** The request ID RequestID uses: the incoming X-Request-ID when it is
      not empty, a generated one otherwise. */
  function ChosenId(req: HttpRequest, generate: HttpRequest -> string): (id: string)
    ensures HeaderGet(req.header, "X-Request-ID") != [] ==> id == req.header["X-Request-ID"]
    ensures HeaderGet(req.header, "X-Request-ID") == [] ==> id == generate(req)
  {
    var incoming := HeaderGet(req.header, "X-Request-ID");
    if incoming == [] then generate(req) else incoming
  }

  /** RequestID around `next`: the chosen ID as response header and as the
      "RequestID" key, then the next handler. */
  function RunRequestId(s: Ctx, generate: HttpRequest -> string, next: HandlerFunc): (r: Ctx)
    requires Live(s)
    ensures Live(r) && r.handlers == s.handlers && Rem(r) <= Rem(s)
    ensures r.request == s.request && r.params == s.params
    decreases Rem(s), 1, Size(next) + 1
  {
    RunH(StampId(s, ChosenId(s.request.value, generate)), next)
  }

  /** What RequestID does before calling the wrapped handler: the ID as the
      X-Request-ID response header and as the "RequestID" key. */
  function StampId(s: Ctx, id: string): (r: Ctx)
    requires Live(s)
    ensures Live(r) && r.writer.value.header == s.writer.value.header["X-Request-ID" := id]
    ensures r.keys.Some? && "RequestID" in r.keys.value && r.keys.value["RequestID"] == id
    ensures r.index == s.index && r.handlers == s.handlers && r.statusCode == s.statusCode && r.trace == s.trace
    ensures r.writer.value.written == s.writer.value.written && r.request == s.request && r.params == s.params
  {
    SetKey(WithHeader(s, "X-Request-ID", id), "RequestID", id)
  }

  // ------------------------------------------------------------- the class

  class Context {
    var writer: Option<Sink>
    var request: Option<HttpRequest>
    var params: Option<map<string, string>>
    var statusCode: int
    var handlers: seq<HandlerFunc>
    var index: int
    var keys: Option<map<string, string>>
    ghost var trace: seq<string>

    ghost function State(): Ctx
      reads this
    {
      Ctx(writer, request, params, statusCode, handlers, index, keys, trace)
    }

    /** The pool's New: a zero Context. */
    constructor ()
      ensures State() == Ctx(None, None, None, 0, [], 0, None, [])
    {
      writer, request, params, statusCode := None, None, None, 0;
      handlers, index, keys, trace := [], 0, None, [];
    }

    /** newContext, applied to a context taken from the pool. */
    method Prepare(w: Sink, req: HttpRequest)
      modifies this
      ensures State() == Prepared(old(State()), w, req)
    {
      writer, request, params := Some(w), Some(req), Some(map[]);
      statusCode, handlers, index := StatusOK, [], -1;
    }

    method Reset()
      modifies this
      ensures State() == ResetCtx(old(State()))
    {
      writer, request, params := None, None, None;
      statusCode, handlers, index := StatusOK, [], -1;
    }

    predicate IsAborted()
      reads this
      ensures IsAborted() <==> Aborted(State())
    {
      index >= |handlers|
    }

    /** Param. */
    function Param(key: string): (r: string)
      reads this
      ensures r == ParamValue(State(), key)
    {
      if params.Some? && key in params.value then params.value[key] else []
    }

    method Status(code: int)
      requires Live(State())
      modifies this
      ensures State() == SetStatus(old(State()), code)
    {
      statusCode := code;
      writer := Some(writer.value.(written := writer.value.written + [code]));
    }

    method SetHeader(key: string, value: string)
      requires Live(State())
      modifies this
      ensures State() == WithHeader(old(State()), key, value)
    {
      writer := Some(writer.value.(header := writer.value.header[key := value]));
    }

    method Set(key: string, value: string)
      modifies this
      ensures State() == SetKey(old(State()), key, value)
    {
      if keys.None? {
        keys := Some(map[]);
      }
      keys := Some(keys.value[key := value]);
    }

    method Abort()
      modifies this
      ensures State() == AbortCtx(old(State()))
    {
      index := |handlers|;
    }

    method AbortWithStatus(code: int)
      requires Live(State())
      modifies this
      ensures State() == AbortWithStatusCtx(old(State()), code)
    {
      Status(code);
      Abort();
    }

    method Next()
      requires Live(State())
      modifies this
      ensures State() == RunNext(old(State()))
      decreases Rem(State()), 0, 0
    {
      index := index + 1;
      while index < |handlers|
        invariant Live(State()) && handlers == old(handlers)
        invariant index < |handlers| ==> Rem(State()) < old(Rem(State()))
        invariant RunNext(old(State())) == if index < |handlers| then RunLoop(State()) else State()
        decreases Rem(State())
      {
        Invoke(handlers[index]);
        index := index + 1;
      }
    }

    method DoStep(step: Step)
      requires Live(State())
      modifies this
      ensures State() == RunStep(old(State()), step)
      decreases Rem(State()), 1, 0
    {
      match step
      case StatusStep(code) => Status(code);
      case Reply(code, contentType) =>
        SetHeader("Content-Type", contentType);
        Status(code);
      case HeaderStep(key, value) => SetHeader(key, value);
      case KeyStep(key, value) => Set(key, value);
      case NextStep => Next();
      case AbortStep => Abort();
      case AbortWithStatusStep(code) => AbortWithStatus(code);
    }

    /** Calls the handler `h` on this context. */
    method Invoke(h: HandlerFunc)
      requires Live(State())
      modifies this
      ensures State() == RunH(old(State()), h)
      decreases Rem(State()), 1, Size(h)
    {
      match h
      case Leaf(name, steps) =>
        trace := trace + [name];
        DoSteps(steps);
      case Combined(chain) => InvokeChain(chain);
      case Wrapped(m, next) =>
        match m
        case Logger => Invoke(next);
        case Recover => Invoke(next);
        case Cors => InvokeCors(next);
        case Auth(authorize) => InvokeAuth(authorize, next);
        case RequestId(generate) => InvokeRequestId(generate, next);
    }

    /** The body of an application handler. */
    method DoSteps(steps: seq<Step>)
      requires Live(State())
      modifies this
      ensures State() == RunSteps(old(State()), steps)
      decreases Rem(State()), 1, |steps|
    {
      var i := 0;
      while i < |steps|
        invariant 0 <= i <= |steps|
        invariant Live(State()) && handlers == old(handlers) && Rem(State()) <= old(Rem(State()))
        invariant RunSteps(State(), steps[i..]) == RunSteps(old(State()), steps)
      {
        DoStep(steps[i]);
        i := i + 1;
      }
    }

    /** The closure addRoute stores. */
    method InvokeChain(chain: seq<HandlerFunc>)
      requires Live(State())
      modifies this
      ensures State() == RunChain(old(State()), chain)
      decreases Rem(State()), 1, SizeSeq(chain)
    {
      var i, stop := 0, false;
      while i < |chain| && !stop
        invariant 0 <= i <= |chain|
        invariant Live(State()) && handlers == old(handlers) && Rem(State()) <= old(Rem(State()))
        invariant stop ==> State() == RunChain(old(State()), chain)
        invariant !stop ==> RunChain(State(), chain[i..]) == RunChain(old(State()), chain)
      {
        SizeInSeq(chain, i);
        Invoke(chain[i]);
        stop := IsAborted();
        i := i + 1;
      }
    }

    method InvokeCors(next: HandlerFunc)
      requires Live(State())
      modifies this
      ensures State() == RunCors(old(State()), next)
      decreases Rem(State()), 1, Size(next) + 1
    {
      SetHeader(AllowOrigin, "*");
      SetHeader(AllowMethods, CorsMethods);
      SetHeader(AllowHeaders, CorsHeaderNames);
      if request.value.httpMethod == "OPTIONS" {
        AbortWithStatus(StatusOK);
      } else {
        Invoke(next);
      }
    }

    method InvokeAuth(authorize: HttpRequest -> bool, next: HandlerFunc)
      requires Live(State())
      modifies this
      ensures State() == RunAuth(old(State()), authorize, next)
      decreases Rem(State()), 1, Size(next) + 1
    {
      if !authorize(request.value) {
        AbortWithStatus(StatusUnauthorized);
      } else {
        Invoke(next);
      }
    }

    method InvokeRequestId(generate: HttpRequest -> string, next: HandlerFunc)
      requires Live(State())
      modifies this
      ensures State() == RunRequestId(old(State()), generate, next)
      decreases Rem(State()), 1, Size(next) + 1
    {
      var id := ChosenId(request.value, generate);
      SetHeader("X-Request-ID", id);
      Set("RequestID", id);
      Invoke(next);
    }
  }

  lemma {:induction false} SizeInSeq(hs: seq<HandlerFunc>, i: nat)
    requires i < |hs|
    ensures Size(hs[i]) < SizeSeq(hs)
  {
    if i > 0 {
      SizeInSeq(hs[1..], i - 1);
    }
  }

  // ---------------------------------------------------------------- lemmas

  /** Every handler of `hs` in turn, whatever they do to the index: the
      reference for the loop of the combined handler. */
  ghost function RunAll(s: Ctx, hs: seq<HandlerFunc>): (r: Ctx)
    requires Live(s)
    ensures Live(r) && r.handlers == s.handlers
    decreases |hs|
  {
    if hs == [] then s else RunAll(RunH(s, hs[0]), hs[1..])
  }

  lemma RunAllPrefix(s: Ctx, chain: seq<HandlerFunc>, j: nat)
    requires Live(s) && j < |chain|
    ensures RunAll(s, chain[..j + 1]) == RunAll(RunH(s, chain[0]), chain[1..][..j])
  {
    assert chain[..j + 1][0] == chain[0];
    assert chain[..j + 1][1..] == chain[1..][..j];
  }

  /** The combined handler runs the chain in order and stops right after the
      first handler that leaves the context aborted. */
  lemma {:induction false} ChainStopsAtFirstAbort(s: Ctx, chain: seq<HandlerFunc>, k: nat)
    requires Live(s) && k < |chain|
    requires forall j | 0 < j <= k :: !Aborted(RunAll(s, chain[..j]))
    requires Aborted(RunAll(s, chain[..k + 1]))
    ensures RunChain(s, chain) == RunAll(s, chain[..k + 1])
    decreases k
  {
    var t := RunH(s, chain[0]);
    RunAllPrefix(s, chain, 0);
    if k > 0 {
      forall j | 0 < j <= k - 1
        ensures !Aborted(RunAll(t, chain[1..][..j]))
      {
        RunAllPrefix(s, chain, j);
      }
      RunAllPrefix(s, chain, k);
      ChainStopsAtFirstAbort(t, chain[1..], k - 1);
    }
  }

  /** When no handler leaves the context aborted, the combined handler runs
      them all. */
  lemma {:induction false} ChainRunsAll(s: Ctx, chain: seq<HandlerFunc>)
    requires Live(s)
    requires forall j | 0 < j <= |chain| :: !Aborted(RunAll(s, chain[..j]))
    ensures RunChain(s, chain) == RunAll(s, chain)
    decreases |chain|
  {
    if chain != [] {
      var t := RunH(s, chain[0]);
      RunAllPrefix(s, chain, 0);
      forall j | 0 < j <= |chain| - 1
        ensures !Aborted(RunAll(t, chain[1..][..j]))
      {
        RunAllPrefix(s, chain, j);
      }
      ChainRunsAll(t, chain[1..]);
      assert chain[1..][..|chain| - 1] == chain[1..];
      assert chain[..|chain|] == chain;
    }
  }

  /** A handler that calls Next returns with the context aborted, whatever
      it does afterwards. */
  lemma {:induction false} CallingNextAborts(s: Ctx, steps: seq<Step>)
    requires Live(s) && NextStep in steps
    ensures Aborted(RunSteps(s, steps))
    decreases |steps|
  {
    if steps[0] == NextStep {
      assert Rem(RunStep(s, steps[0])) == 0;
    } else {
      assert NextStep in steps[1..];
      CallingNextAborts(RunStep(s, steps[0]), steps[1..]);
    }
  }

  /** So in the combined handler, a handler that calls Next ends the chain:
      the handlers after it never run. */
  lemma NextEndsChain(s: Ctx, name: string, steps: seq<Step>, rest: seq<HandlerFunc>)
    requires Live(s) && NextStep in steps
    ensures RunChain(s, [Leaf(name, steps)] + rest) == RunH(s, Leaf(name, steps))
  {
    CallingNextAborts(s.(trace := s.trace + [name]), steps);
  }

  /** A step that leaves the index alone. */
  predicate Plain(step: Step)
  {
    step.StatusStep? || step.Reply? || step.HeaderStep? || step.KeyStep?
  }

  /** An application handler that neither calls Next nor aborts. */
  predicate PlainLeaf(h: HandlerFunc)
  {
    h.Leaf? && forall i | 0 <= i < |h.steps| :: Plain(h.steps[i])
  }

  /** The names of a chain of application handlers. */
  function Names(hs: seq<HandlerFunc>): (r: seq<string>)
    ensures |r| == |hs|
  {
    if hs == [] then [] else [if hs[0].Leaf? then hs[0].name else []] + Names(hs[1..])
  }

  lemma {:induction false} PlainStepsKeepIndex(s: Ctx, steps: seq<Step>)
    requires Live(s) && forall i | 0 <= i < |steps| :: Plain(steps[i])
    ensures RunSteps(s, steps).index == s.index && RunSteps(s, steps).trace == s.trace
    decreases |steps|
  {
    if steps != [] {
      PlainStepsKeepIndex(RunStep(s, steps[0]), steps[1..]);
    }
  }

  /** The loop of Next over handlers that neither call Next nor abort runs
      every one of them, in order, and ends past the chain. */
  lemma {:induction false} LoopRunsRest(s: Ctx)
    requires Live(s) && 0 <= s.index < |s.handlers|
    requires forall i | s.index <= i < |s.handlers| :: PlainLeaf(s.handlers[i])
    ensures RunLoop(s).trace == s.trace + Names(s.handlers[s.index..]) && RunLoop(s).index == |s.handlers|
    decreases Rem(s)
  {
    var h := s.handlers[s.index];
    PlainStepsKeepIndex(s.(trace := s.trace + [h.name]), h.steps);
    var u := RunH(s, h);
    var v := u.(index := u.index + 1);
    assert s.handlers[s.index..] == [h] + s.handlers[s.index + 1..];
    if v.index < |v.handlers| {
      LoopRunsRest(v);
    }
  }

  /** Next runs the rest of the chain in order. */
  lemma NextRunsRest(s: Ctx)
    requires Live(s) && s.index < |s.handlers|
    requires forall i | s.index < i < |s.handlers| :: PlainLeaf(s.handlers[i])
    ensures RunNext(s).trace == s.trace + Names(s.handlers[s.index + 1..]) && RunNext(s).index == |s.handlers|
  {
    var t := s.(index := s.index + 1);
    if t.index < |t.handlers| {
      LoopRunsRest(t);
    }
  }

  /** reset before newContext changes nothing newContext does not set. */
  lemma ResetIsInvisible(s: Ctx, w: Sink, req: HttpRequest)
    ensures Prepared(ResetCtx(s), w, req) == Prepared(s, w, req)
  {
  }

  // ------------------------------------------- the middlewares around next

  /** CORS answers a preflight itself: the three headers, status 200, the
      chain aborted and the wrapped handler never run. */
  lemma CorsPreflight(s: Ctx, next: HandlerFunc)
    requires Live(s) && s.request.value.httpMethod == "OPTIONS"
    ensures var r := RunH(s, Wrapped(Cors, next));
      && r.writer.value.header == s.writer.value.header[AllowOrigin := "*"][AllowMethods := CorsMethods][AllowHeaders := CorsHeaderNames]
      && r.writer.value.written == s.writer.value.written + [StatusOK]
      && r.statusCode == StatusOK && Aborted(r) && r.trace == s.trace
  {
  }

  /** Any other method gets the three headers and then the wrapped handler. */
  lemma CorsPassesOn(s: Ctx, next: HandlerFunc)
    requires Live(s) && s.request.value.httpMethod != "OPTIONS"
    ensures RunH(s, Wrapped(Cors, next)) == RunH(CorsHeaders(s), next)
    ensures CorsHeaders(s).writer.value.header == s.writer.value.header[AllowOrigin := "*"][AllowMethods := CorsMethods][AllowHeaders := CorsHeaderNames]
    ensures CorsHeaders(s).writer.value.written == s.writer.value.written && CorsHeaders(s).index == s.index
  {
  }

  /** Auth refuses with 401 and aborts, without running the wrapped
      handler; otherwise the wrapped handler runs on the same context. */
  lemma AuthGate(s: Ctx, authorize: HttpRequest -> bool, next: HandlerFunc)
    requires Live(s)
    ensures var r := RunH(s, Wrapped(Auth(authorize), next));
      if authorize(s.request.value) then r == RunH(s, next)
      else (r.statusCode == StatusUnauthorized && Aborted(r) && r.trace == s.trace
        && r.writer.value.written == s.writer.value.written + [StatusUnauthorized])
  {
  }

  /** A chain built as `a + b` (group middlewares, then route handlers) runs
      `a` first and reaches `b` only when `a` leaves the context unaborted. */
  lemma {:induction false} ChainAppend(s: Ctx, a: seq<HandlerFunc>, b: seq<HandlerFunc>)
    requires Live(s) && !Aborted(s)
    ensures RunChain(s, a + b) == if Aborted(RunChain(s, a)) then RunChain(s, a) else RunChain(RunChain(s, a), b)
    decreases |a|
  {
    if a == [] {
      assert a + b == b;
    } else {
      assert (a + b)[0] == a[0] && (a + b)[1..] == a[1..] + b;
      var t := RunH(s, a[0]);
      if !Aborted(t) {
        ChainAppend(t, a[1..], b);
      }
    }
  }
}
