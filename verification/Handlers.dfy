/** The handler a binding composes (binding.go:195-242), with middleware.go's PanicRecovery
    and prometheus/metrics.go's HTTPMetrics as two of its possible layers. Handlers and
    middleware are defunctionalised: user code is a script of what it does to one request. */
module Handlers {
  import opened Basics
  import opened ResponseWriters

  type ErrorStatus = int
  const ERROR_STATUS_404: ErrorStatus := 404
  const ERROR_STATUS_500: ErrorStatus := 500

  /** A leaf handler writes a response and then returns or panics. */
  datatype Body = Body(calls: seq<Call>, panics: bool)

  datatype Terminal = Default(status: ErrorStatus) | Registered(id: nat, body: Body)

  /** defaultErrorHandler and writeReply (error_handler.go:29-53). */
  function BodyOf(t: Terminal): Body {
    match t
    case Default(status) => Body([WriteHeader(if status == ERROR_STATUS_500 then 500 else 404), Write], false)
    case Registered(_, body) => body
  }

  datatype Verdict = Claims | Declines | Throws
  datatype Rpc = Rpc(calls: seq<Call>, verdict: Verdict)

  /** The fallback mux. A *http.ServeMux reports the pattern that matches the request, empty
      for none, and stores it in the request it serves. */
  datatype Mux = NoMux | ServeMux(pattern: string, body: Body) | OtherMux(body: Body)

  /** Which request a middleware hands on: the one it got, a copy with a derived context, or a
      copy whose context has lost the binding's values. */
  datatype Handoff = Same | Derived | Detached

  datatype Op = Emit(c: Call) | Next | Panic

  datatype Middleware =
    | User(handoff: Handoff, ops: seq<Op>)
    | Recovery
    | Metrics
  {
    predicate Copies() { User? && !handoff.Same? }
    predicate Detaches() { User? && handoff.Detached? }
  }

  datatype Handler =
    | Dispatch(rpcs: seq<Rpc>, mux: Mux, notFound: Terminal)
    | Layer(mw: Middleware, next: Handler)
    | WithErrors(handlers: map<ErrorStatus, Terminal>, next: Handler)

  // ----- contexts -----

  datatype Ctx = Root | WithHandlers(parent: Ctx, handlers: map<ErrorStatus, Terminal>) | WithValue(parent: Ctx)

  /** registeredErrorHandler (error_handler.go:69-72). */
  function RegisteredHandler(ctx: Ctx, status: ErrorStatus): Option<Terminal> {
    match ctx
    case Root => None
    case WithHandlers(_, m) => if status in m then Some(m[status]) else None
    case WithValue(parent) => RegisteredHandler(parent, status)
  }

  function HandOn(handoff: Handoff, ctx: Ctx): Ctx {
    match handoff
    case Same => ctx
    case Derived => WithValue(ctx)
    case Detached => Root
  }

  /** The 500 handler PanicRecovery picks from a request's context (middleware.go:47-51). */
  function Resolve500(ctx: Ctx): Terminal {
    var h := RegisteredHandler(ctx, ERROR_STATUS_500);
    if h.Some? then h.value else Default(ERROR_STATUS_500)
  }

  // ----- serving a request -----

  datatype Event =
    | Entered(layer: nat)
    | Exited(layer: nat)
    | Panicking(layer: nat)  // a panic starts in this layer's own code, or in the dispatcher
    | Recovered(layer: nat)
    | Served500(layer: nat, t: Terminal)
    | Observed(layer: nat, pattern: string, status: int)
    | RpcCalled(i: nat)
    | MuxServed
    | NotFoundServed

  /** The writer and the request's Pattern field afterwards, what happened, the calls made on
      the writer that was passed in, and whether a panic unwinds out of the handler. */
  datatype Result = Result(w: Writer, pattern: string, events: seq<Event>, sent: seq<Call>, panicked: bool)

  function Leaf(e: Event, body: Body, pattern: string, w: Writer): Result {
    Result(ApplyAll(w, body.calls), pattern, [e], body.calls, body.panics)
  }

  function ServeFallback(mux: Mux, notFound: Terminal, pattern: string, w: Writer): Result {
    match mux
    case NoMux => Leaf(NotFoundServed, BodyOf(notFound), pattern, w)
    case ServeMux("", _) => Leaf(NotFoundServed, BodyOf(notFound), pattern, w)
    case ServeMux(route, body) => Leaf(MuxServed, body, route, w)
    case OtherMux(body) => Leaf(MuxServed, body, pattern, w)
  }

  function ServeRpcs(rpcs: seq<Rpc>, i: nat, mux: Mux, notFound: Terminal, pattern: string, w: Writer): (r: Result)
    requires i <= |rpcs|
    ensures r.w == ApplyAll(w, r.sent)
    decreases |rpcs| - i
  {
    if i == |rpcs| then ServeFallback(mux, notFound, pattern, w)
    else
      var w1 := ApplyAll(w, rpcs[i].calls);
      match rpcs[i].verdict
      case Claims => Result(w1, pattern, [RpcCalled(i)], rpcs[i].calls, false)
      case Throws => Result(w1, pattern, [RpcCalled(i)], rpcs[i].calls, true)
      case Declines =>
        var r := ServeRpcs(rpcs, i + 1, mux, notFound, pattern, w1);
        ApplyAllConcat(w, rpcs[i].calls, r.sent);
        r.(events := [RpcCalled(i)] + r.events, sent := rpcs[i].calls + r.sent)
  }

  /** Serve one request with handler h, whose outermost layer has number d; the dispatcher's
      number is that of the layers around it. */
  function Serve(h: Handler, d: nat, ctx: Ctx, pattern: string, w: Writer): (r: Result)
    ensures r.w == ApplyAll(w, r.sent)
    decreases h, 0, 0
  {
    match h
    case Dispatch(rpcs, mux, notFound) =>
      var r := ServeRpcs(rpcs, 0, mux, notFound, pattern, w);
      r.(events := r.events + if r.panicked then [Panicking(d)] else [])
    case WithErrors(m, next) =>
      Serve(next, d, WithHandlers(ctx, m), pattern, w).(pattern := pattern)
    case Layer(User(handoff, ops), next) =>
      var r := RunOps(ops, next, d, HandOn(handoff, ctx), pattern, w);
      r.(pattern := if handoff.Same? then r.pattern else pattern,
         events := [Entered(d)] + r.events + if r.panicked then [] else [Exited(d)])
    case Layer(Recovery, next) =>
      var pw := Tracking(false, w);
      var r := Serve(next, d + 1, ctx, pattern, pw);
      ForwardedIsFaithful(pw, r.sent);
      AfterRecovery(d, r, Resolve500(ctx), w)
    case Layer(Metrics, next) =>
      var rw := Metering(0, false, w);
      var r := Serve(next, d + 1, ctx, pattern, rw);
      ForwardedIsFaithful(rw, r.sent);
      Result(r.w.inner, r.pattern,
             [Entered(d)] + r.events +
             (if r.panicked then [] else [Observed(d, PatternLabel(r.pattern), Label(r.w))] + [Exited(d)]),
             ForwardedAll(rw, r.sent), r.panicked)
  }

  /** PanicRecovery at layer d, once the handler inside has returned r or panicked with it; t
      is the 500 handler to use (middleware.go:34-52). */
  function AfterRecovery(d: nat, r: Result, t: Terminal, w: Writer): (after: Result)
    requires r.w == ApplyAll(Tracking(false, w), r.sent) && r.w.Tracking?
    ensures after.w == ApplyAll(w, after.sent)
  {
    var own := ForwardedAll(Tracking(false, w), r.sent);
    var handled := r.panicked && !r.w.written;
    var body := BodyOf(t);
    ForwardedIsFaithful(Tracking(false, w), r.sent);
    ApplyAllConcat(w, own, if handled then body.calls else []);
    var panicked := handled && body.panics;
    Result(if handled then ApplyAll(r.w.inner, body.calls) else r.w.inner,
           r.pattern,
           [Entered(d)] + r.events
             + ((if r.panicked then [Recovered(d)] else [])
              + (if handled then [Served500(d, t)] else [])
              + (if panicked then [Panicking(d)] else [Exited(d)])),
           own + (if handled then body.calls else []),
           panicked)
  }

  function PatternLabel(pattern: string): string {
    if pattern == "" then "unknown" else pattern
  }

  /** A user middleware's own code, at layer d, with `next` inside it. */
  function RunOps(ops: seq<Op>, next: Handler, d: nat, ctx: Ctx, pattern: string, w: Writer): (r: Result)
    ensures r.w == ApplyAll(w, r.sent)
    decreases next, 1, |ops|
  {
    if ops == [] then Result(w, pattern, [], [], false)
    else
      match ops[0]
      case Panic => Result(w, pattern, [Panicking(d)], [], true)
      case Emit(c) =>
        var r := RunOps(ops[1..], next, d, ctx, pattern, Apply(w, c));
        r.(sent := [c] + r.sent)
      case Next =>
        var r1 := Serve(next, d + 1, ctx, pattern, w);
        if r1.panicked then r1
        else
          var r2 := RunOps(ops[1..], next, d, ctx, r1.pattern, r1.w);
          ApplyAllConcat(w, r1.sent, r2.sent);
          Result(r2.w, r2.pattern, r1.events + r2.events, r1.sent + r2.sent, r2.panicked)
  }

  // ----- building the handler -----

  /** What a request must go through: the first middleware is outermost. */
  function Chain(mws: seq<Middleware>, core: Handler): Handler {
    if mws == [] then core else Layer(mws[0], Chain(mws[1..], core))
  }

  /** The loop of buildHandler (binding.go:218-221). */
  method Compose(mws: seq<Middleware>, core: Handler) returns (handler: Handler)
    ensures handler == Chain(mws, core)
  {
    handler := core;
    var i := |mws|;
    while i > 0
      invariant 0 <= i <= |mws|
      invariant handler == Chain(mws[i..], core)
    {
      i := i - 1;
      handler := Layer(mws[i], handler);
      assert mws[i..][1..] == mws[i + 1..];
    }
  }
}
