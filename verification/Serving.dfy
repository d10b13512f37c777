/** Serving a request over the writer objects of WriterObjects, as the closures of
    middleware.go and prometheus/metrics.go do: each layer allocates its wrapper, calls the
    next handler, and decides by the fields the wrapper has come to hold. Proved against
    Handlers.Serve. */
module Serving {
  import opened Basics
  import opened ResponseWriters
  import opened Handlers
  import opened WriterObjects

  /** Everything a served request shows apart from the state of the writer. */
  datatype Trace = Trace(pattern: string, events: seq<Event>, panicked: bool)

  function TraceOf(r: Result): Trace { Trace(r.pattern, r.events, r.panicked) }

  method Call(r: Ref, c: ResponseWriters.Call)
    requires Valid(r)
    modifies Footprint(r)
    ensures View(r) == Apply(old(View(r)), c)
  {
    match c {
      case WriteHeader(code) => CallWriteHeader(r, code);
      case Write => CallWrite(r);
      case Flush => if AssertsFlusher(r) { CallFlush(r); }
      case Hijack => if AssertsHijacker(r) { var ok := CallHijack(r); }
    }
  }

  method CallAll(r: Ref, calls: seq<ResponseWriters.Call>)
    requires Valid(r)
    modifies Footprint(r)
    ensures View(r) == ApplyAll(old(View(r)), calls)
  {
    var i := 0;
    while i < |calls|
      invariant 0 <= i <= |calls|
      invariant ApplyAll(View(r), calls[i..]) == ApplyAll(old(View(r)), calls)
    {
      assert calls[i..][0] == calls[i] && calls[i..][1..] == calls[i + 1..];
      Call(r, calls[i]);
      i := i + 1;
    }
  }

  /** Having logged `events` so far, the rest of the run completes it to s. */
  ghost predicate Completes(s: Result, events: seq<Event>, rest: Result) {
    s.w == rest.w && TraceOf(s) == Trace(rest.pattern, events + rest.events, rest.panicked)
  }

  lemma NextRpc(s: Result, events: seq<Event>, rpcs: seq<Rpc>, i: nat, mux: Mux, notFound: Terminal, pattern: string,
                w: Writer)
    requires i < |rpcs| && Completes(s, events, ServeRpcs(rpcs, i, mux, notFound, pattern, w))
    ensures var w1, done := ApplyAll(w, rpcs[i].calls), events + [RpcCalled(i)];
            if rpcs[i].verdict.Declines? then Completes(s, done, ServeRpcs(rpcs, i + 1, mux, notFound, pattern, w1))
            else s.w == w1 && TraceOf(s) == Trace(pattern, done, rpcs[i].verdict.Throws?)
  {
    if rpcs[i].verdict.Declines? {
      var rest := ServeRpcs(rpcs, i + 1, mux, notFound, pattern, ApplyAll(w, rpcs[i].calls));
      assert events + ([RpcCalled(i)] + rest.events) == events + [RpcCalled(i)] + rest.events;
    }
  }

  /** binding.go:199-216. */
  method Dispatch(rpcs: seq<Rpc>, mux: Mux, notFound: Terminal, pattern: string, r: Ref) returns (t: Trace)
    requires Valid(r)
    modifies Footprint(r)
    ensures var s := ServeRpcs(rpcs, 0, mux, notFound, pattern, old(View(r)));
            View(r) == s.w && t == TraceOf(s)
  {
    var events: seq<Event> := [];
    ghost var s := ServeRpcs(rpcs, 0, mux, notFound, pattern, View(r));
    for i := 0 to |rpcs|
      invariant Completes(s, events, ServeRpcs(rpcs, i, mux, notFound, pattern, View(r)))
    {
      NextRpc(s, events, rpcs, i, mux, notFound, pattern, View(r));
      CallAll(r, rpcs[i].calls);
      events := events + [RpcCalled(i)];
      match rpcs[i].verdict {
        case Claims => return Trace(pattern, events, false);
        case Throws => return Trace(pattern, events, true);
        case Declines =>
      }
    }
    t := Fallback(mux, notFound, pattern, r);
    t := t.(events := events + t.events);
  }

  method Fallback(mux: Mux, notFound: Terminal, pattern: string, r: Ref) returns (t: Trace)
    requires Valid(r)
    modifies Footprint(r)
    ensures var s := ServeFallback(mux, notFound, pattern, old(View(r)));
            View(r) == s.w && t == TraceOf(s)
  {
    match mux {
      case NoMux =>
      case ServeMux(route, body) =>
        if route != "" {
          CallAll(r, body.calls);
          return Trace(route, [MuxServed], body.panics);
        }
      case OtherMux(body) =>
        CallAll(r, body.calls);
        return Trace(pattern, [MuxServed], body.panics);
    }
    var body := BodyOf(notFound);
    CallAll(r, body.calls);
    t := Trace(pattern, [NotFoundServed], body.panics);
  }

  method ServeHTTP(h: Handler, d: nat, ctx: Ctx, pattern: string, r: Ref) returns (t: Trace)
    requires Valid(r)
    modifies Footprint(r)
    ensures var s := Serve(h, d, ctx, pattern, old(View(r)));
            View(r) == s.w && t == TraceOf(s)
    decreases h, 0, 0
  {
    match h {
      case Dispatch(rpcs, mux, notFound) =>
        t := Dispatch(rpcs, mux, notFound, pattern, r);
        t := t.(events := t.events + if t.panicked then [Panicking(d)] else []);
      case WithErrors(m, next) =>
        t := ServeHTTP(next, d, WithHandlers(ctx, m), pattern, r);
        t := t.(pattern := pattern);
      case Layer(User(handoff, ops), next) =>
        t := Middleware(ops, next, d, HandOn(handoff, ctx), pattern, r);
        t := Trace(if handoff.Same? then t.pattern else pattern,
                   [Entered(d)] + t.events + if t.panicked then [] else [Exited(d)],
                   t.panicked);
      case Layer(Recovery, next) =>
        t := PanicRecovery(next, d, ctx, pattern, r);
      case Layer(Metrics, next) =>
        t := HTTPMetrics(next, d, ctx, pattern, r);
    }
  }

  /** middleware.go:32-54. */
  method PanicRecovery(next: Handler, d: nat, ctx: Ctx, pattern: string, r: Ref) returns (t: Trace)
    requires Valid(r)
    modifies Footprint(r)
    ensures var s := Serve(Layer(Recovery, next), d, ctx, pattern, old(View(r)));
            View(r) == s.w && t == TraceOf(s)
    decreases next, 2, 0
  {
    ghost var w := View(r);
    var pw := new PanicTrackingWriter(r);
    t := ServeHTTP(next, d + 1, ctx, pattern, TrackingRef(pw));
    ghost var s := Serve(next, d + 1, ctx, pattern, Tracking(false, w));
    ForwardedIsFaithful(Tracking(false, w), s.sent);
    assert Tracking(pw.written, View(r)) == View(TrackingRef(pw)) == s.w;
    var tail := [];
    var panicked := false;
    if t.panicked {
      tail := [Recovered(d)];
      if !pw.written {
        var h := Resolve500(ctx);
        var body := BodyOf(h);
        CallAll(r, body.calls);
        tail := tail + [Served500(d, h)];
        panicked := body.panics;
      }
    }
    tail := tail + [if panicked then Panicking(d) else Exited(d)];
    ghost var after := AfterRecovery(d, s, Resolve500(ctx), w);
    assert after.events == [Entered(d)] + s.events + tail;
    t := Trace(t.pattern, [Entered(d)] + t.events + tail, panicked);
  }

  /** prometheus/metrics.go:54-72. */
  method HTTPMetrics(next: Handler, d: nat, ctx: Ctx, pattern: string, r: Ref) returns (t: Trace)
    requires Valid(r)
    modifies Footprint(r)
    ensures var s := Serve(Layer(Metrics, next), d, ctx, pattern, old(View(r)));
            View(r) == s.w && t == TraceOf(s)
    decreases next, 2, 0
  {
    ghost var w := View(r);
    var rw := new ResponseWriter(r);
    t := ServeHTTP(next, d + 1, ctx, pattern, MeteringRef(rw));
    ghost var s := Serve(next, d + 1, ctx, pattern, Metering(0, false, w));
    ForwardedIsFaithful(Metering(0, false, w), s.sent);
    assert Metering(rw.status, rw.hijacked, View(r)) == View(MeteringRef(rw)) == s.w;
    if t.panicked {
      t := t.(events := [Entered(d)] + t.events + []);
    } else {
      var patternLabel := PatternLabel(t.pattern);
      var status := rw.status;
      if status == 0 {
        status := 200;
      }
      t := t.(events := [Entered(d)] + t.events + ([Observed(d, patternLabel, status)] + [Exited(d)]));
    }
  }

  method Middleware(ops: seq<Op>, next: Handler, d: nat, ctx: Ctx, pattern: string, r: Ref) returns (t: Trace)
    requires Valid(r)
    modifies Footprint(r)
    ensures var s := RunOps(ops, next, d, ctx, pattern, old(View(r)));
            View(r) == s.w && t == TraceOf(s)
    decreases next, 1, |ops|
  {
    if ops == [] {
      return Trace(pattern, [], false);
    }
    match ops[0] {
      case Panic =>
        t := Trace(pattern, [Panicking(d)], true);
      case Emit(c) =>
        Call(r, c);
        t := Middleware(ops[1..], next, d, ctx, pattern, r);
      case Next =>
        t := ServeHTTP(next, d + 1, ctx, pattern, r);
        if !t.panicked {
          var t2 := Middleware(ops[1..], next, d, ctx, t.pattern, r);
          t := t2.(events := t.events + t2.events);
        }
    }
  }
}
