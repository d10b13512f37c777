/** What a composed handler sends, seen from the server alone: the calls that arrive, who made
    them, and whether a panic comes out. The responses here know neither writers nor contexts;
    what Handlers.Serve does through its stacks of wrappers is shown to come to the same. */
module Responses {
  import opened Basics
  import opened ResponseWriters
  import opened Handlers
  import opened HandlerLaws

  datatype Response = Response(calls: seq<Call>, served: seq<Event>, panicked: bool)

  /** What the RPC handlers lo up to hi write, in registration order. */
  function RpcCalls(rpcs: seq<Rpc>, lo: nat, hi: nat): seq<Call>
    requires lo <= hi <= |rpcs|
    decreases hi - lo
  {
    if lo == hi then [] else rpcs[lo].calls + RpcCalls(rpcs, lo + 1, hi)
  }

  /** Who serves when all RPC handlers decline. */
  function LastBody(mux: Mux, notFound: Terminal): Body {
    if Routes(mux) then mux.body else BodyOf(notFound)
  }

  /** The dispatcher from the i-th RPC handler on: those up to the first that does not decline,
      and if all do, the mux when it has a route, else the not-found handler. */
  function Answer(rpcs: seq<Rpc>, i: nat, mux: Mux, notFound: Terminal): Response
    requires i <= |rpcs|
  {
    var n, last := Taker(rpcs, i), LastBody(mux, notFound);
    if n < |rpcs| then Response(RpcCalls(rpcs, i, n + 1), Tried(i, n, [RpcCalled(n)]), rpcs[n].verdict.Throws?)
    else
      Response(RpcCalls(rpcs, i, n) + last.calls,
               Tried(i, n, [if Routes(mux) then MuxServed else NotFoundServed]), last.panics)
  }

  /** A user's middleware around a handler that responds with `inner` whenever it is called. */
  function Around(ops: seq<Op>, inner: Response): Response {
    if ops == [] then Response([], [], false)
    else
      var rest := Around(ops[1..], inner);
      match ops[0]
      case Panic => Response([], [], true)
      case Emit(c) => rest.(calls := [c] + rest.calls)
      case Next =>
        if inner.panicked then inner
        else Response(inner.calls + rest.calls, inner.served + rest.served, rest.panicked)
  }

  /** PanicRecovery around it: a panic is caught, and answered by t unless something has been
      written. */
  function Caught(inner: Response, t: Terminal): Response {
    if inner.panicked && !Commits(inner.calls) then
      Response(inner.calls + BodyOf(t).calls, inner.served, BodyOf(t).panics)
    else inner.(panicked := false)
  }

  /** The layers from k on around a dispatcher that responds with `answer`. */
  function ChainResponse(mws: seq<Middleware>, k: nat, answer: Response, own: Terminal): Response
    requires k <= |mws|
    decreases |mws| - k
  {
    if k == |mws| then answer
    else
      var inner := ChainResponse(mws, k + 1, answer, own);
      match mws[k]
      case User(_, ops) => Around(ops, inner)
      case Recovery => Caught(inner, Expected500(mws, k, own))
      case Metrics => inner
  }

  function CoreAnswer(core: Handler): Response
    requires core.Dispatch?
  {
    Answer(core.rpcs, 0, core.mux, core.notFound)
  }

  // ----- the dispatcher -----

  lemma AnswerStep(rpcs: seq<Rpc>, i: nat, mux: Mux, notFound: Terminal)
    requires i < |rpcs|
    ensures var r := Answer(rpcs, i + 1, mux, notFound);
            Answer(rpcs, i, mux, notFound) ==
              if rpcs[i].verdict.Declines? then Response(rpcs[i].calls + r.calls, [RpcCalled(i)] + r.served, r.panicked)
              else Response(rpcs[i].calls, [RpcCalled(i)], rpcs[i].verdict.Throws?)
  {
    var last := LastBody(mux, notFound);
    if rpcs[i].verdict.Declines? {
      var n := Taker(rpcs, i);
      assert n == Taker(rpcs, i + 1);
      if n == |rpcs| {
        assert rpcs[i].calls + (RpcCalls(rpcs, i + 1, n) + last.calls) == RpcCalls(rpcs, i, n) + last.calls;
      }
    } else {
      assert RpcCalls(rpcs, i, i + 1) == rpcs[i].calls + RpcCalls(rpcs, i + 1, i + 1);
    }
  }

  lemma FallbackAnswers(rpcs: seq<Rpc>, mux: Mux, notFound: Terminal, pattern: string, w: Writer)
    ensures var r := ServeFallback(mux, notFound, pattern, w);
            Response(r.sent, r.events, r.panicked) == Answer(rpcs, |rpcs|, mux, notFound)
  {
    var last := LastBody(mux, notFound);
    assert RpcCalls(rpcs, |rpcs|, |rpcs|) + last.calls == last.calls;
  }

  /** What the RPC handlers and the last server write is what reaches the writer, in order. */
  lemma {:induction false} DispatchAnswers(rpcs: seq<Rpc>, i: nat, mux: Mux, notFound: Terminal, pattern: string,
                                           w: Writer)
    requires i <= |rpcs|
    ensures var r := ServeRpcs(rpcs, i, mux, notFound, pattern, w);
            Response(r.sent, r.events, r.panicked) == Answer(rpcs, i, mux, notFound)
    decreases |rpcs| - i
  {
    if i == |rpcs| {
      FallbackAnswers(rpcs, mux, notFound, pattern, w);
    } else {
      AnswerStep(rpcs, i, mux, notFound);
      if rpcs[i].verdict.Declines? {
        DispatchAnswers(rpcs, i + 1, mux, notFound, pattern, ApplyAll(w, rpcs[i].calls));
      }
    }
  }

  // ----- wrappers -----

  /** No call can take the connection over. */
  predicate NoTakeover(w: Writer, calls: seq<Call>) {
    !Bottom(w).hijacker || Hijack !in calls
  }

  lemma {:induction false} GrantNeedsHijacker(w: Writer)
    ensures Grants(w) ==> Bottom(w).hijacker
  {
    if w.Metering? {
      GrantNeedsHijacker(w.inner);
    }
  }

  lemma {:induction false} KindStays(w: Writer, c: Call)
    ensures var b, b' := Bottom(w), Bottom(Apply(w, c)); b'.flusher == b.flusher && b'.hijacker == b.hijacker
  {
    if !w.Base? {
      KindStays(w.inner, c);
    }
  }

  /** A stack that nobody can take over stays as it is, up to what its layers remember. */
  lemma {:induction false} StaysQuiet(w: Writer, calls: seq<Call>)
    requires Quiet(w) && NoTakeover(w, calls)
    ensures var b, b' := Bottom(w), Bottom(ApplyAll(w, calls)); b'.flusher == b.flusher && b'.hijacker == b.hijacker
    ensures Quiet(ApplyAll(w, calls)) && !HijackGranted(w, calls)
    decreases |calls|
  {
    if calls != [] {
      var c, rest := calls[0], calls[1..];
      assert calls == [c] + rest;
      GrantNeedsHijacker(w);
      OneCallReaches(w, c);
      KindStays(w, c);
      StaysQuiet(Apply(w, c), rest);
    }
  }

  /** What a wrapper drops would not have reached the server either, and it adds nothing. */
  lemma {:induction false} ForwardedReaches(w: Writer, calls: seq<Call>)
    requires !w.Base? && Quiet(w) && NoTakeover(w, calls)
    ensures Reaching(Bottom(w).flusher, ForwardedAll(w, calls)) == Reaching(Bottom(w).flusher, calls)
    ensures Hijack in ForwardedAll(w, calls) ==> Hijack in calls
    decreases |calls|
  {
    if calls != [] {
      var c, rest := calls[0], calls[1..];
      assert calls == [c] + rest && [c][1..] == [];
      StaysQuiet(w, [c]);
      assert ApplyAll(w, [c]) == ApplyAll(Apply(w, c), [c][1..]);
      ForwardedReaches(Apply(w, c), rest);
      ReachingConcat(Bottom(w).flusher, Forwarded(w, c), ForwardedAll(Apply(w, c), rest));
    }
  }

  /** Flush and Hijack commit nothing in the eyes of PanicRecovery. */
  lemma {:induction false} ReachingCommits(flusher: bool, calls: seq<Call>)
    ensures Commits(Reaching(flusher, calls)) <==> Commits(calls)
  {
    if calls != [] {
      var c, rest := calls[0], calls[1..];
      ReachingCommits(flusher, rest);
      assert calls == [c] + rest;
      CommitsConcat([c], rest);
      CommitsConcat([c], Reaching(flusher, rest));
    }
  }

  lemma CommitsConcat(a: seq<Call>, b: seq<Call>)
    ensures Commits(a + b) <==> Commits(a) || Commits(b)
  {
    assert forall c :: c in a + b <==> c in a || c in b;
  }

  // ----- every chain -----

  function ServedBy(e: Event): seq<Event> {
    if e.RpcCalled? || e.MuxServed? || e.NotFoundServed? then [e] else []
  }

  /** Who of the dispatcher's handlers served, in order. */
  function Served(events: seq<Event>): seq<Event> {
    Collect(events, ServedBy)
  }

  /** Serving on w makes the server receive the response s. */
  predicate Delivers(w: Writer, r: Result, s: Response) {
    && (Served(r.events), r.panicked) == (s.served, s.panicked)
    && Reaching(Bottom(w).flusher, r.sent) == Reaching(Bottom(w).flusher, s.calls)
    && (Hijack in r.sent ==> Hijack in s.calls)
  }

  /** A layer's own events say nothing about the dispatcher. */
  lemma ServedInside(d: nat, events: seq<Event>, tail: seq<Event>)
    requires forall e :: e in tail ==> ServedBy(e) == []
    ensures Served([Entered(d)] + events + tail) == Served(events)
  {
    CollectConcat([Entered(d)] + events, tail, ServedBy);
    CollectConcat([Entered(d)], events, ServedBy);
    CollectNothing(tail, ServedBy);
    CollectNothing([Entered(d)], ServedBy);
  }

  lemma {:induction false} TriedIsServed(lo: nat, hi: nat, last: seq<Event>)
    requires Served(last) == last
    ensures Served(Tried(lo, hi, last)) == Tried(lo, hi, last)
    decreases hi - lo
  {
    if lo < hi {
      TriedIsServed(lo + 1, hi, last);
      CollectConcat([RpcCalled(lo)], Tried(lo + 1, hi, last), ServedBy);
      OneServed(RpcCalled(lo));
    }
  }

  lemma OneServed(e: Event)
    ensures Served([e]) == ServedBy(e)
  {
    CollectEmit([], ServedBy, e);
    assert [] + [e] == [e] && [] + ServedBy(e) == ServedBy(e);
  }

  lemma CoreDelivers(core: Handler, k: nat, ctx: Ctx, pattern: string, w: Writer)
    requires core.Dispatch?
    ensures Delivers(w, Serve(core, k, ctx, pattern, w), CoreAnswer(core))
  {
    DispatchAnswers(core.rpcs, 0, core.mux, core.notFound, pattern, w);
    var r, n := ServeRpcs(core.rpcs, 0, core.mux, core.notFound, pattern, w), Taker(core.rpcs, 0);
    var last := if n < |core.rpcs| then RpcCalled(n) else if Routes(core.mux) then MuxServed else NotFoundServed;
    OneServed(last);
    TriedIsServed(0, n, [last]);
    OneServed(Panicking(k));
    CollectConcat(r.events, [Panicking(k)], ServedBy);
    assert r.events + [] == r.events && Served(r.events) + [] == Served(r.events);
  }

  lemma MetricsDelivers(next: Handler, d: nat, ctx: Ctx, pattern: string, w: Writer, s: Response)
    requires Quiet(w) && NoTakeover(w, s.calls)
    requires Delivers(w, Serve(next, d + 1, ctx, pattern, Metering(0, false, w)), s)
    ensures Delivers(w, Serve(Layer(Metrics, next), d, ctx, pattern, w), s)
  {
    var inner, tail := LayerShape(Metrics, next, d, ctx, pattern, w);
    ForwardedReaches(Metering(0, false, w), inner.sent);
    ServedInside(d, inner.events, tail);
  }

  lemma RecoveryDelivers(next: Handler, d: nat, ctx: Ctx, pattern: string, w: Writer, s: Response)
    requires Quiet(w) && NoTakeover(w, Caught(s, Resolve500(ctx)).calls)
    requires Delivers(w, Serve(next, d + 1, ctx, pattern, Tracking(false, w)), s)
    ensures Delivers(w, Serve(Layer(Recovery, next), d, ctx, pattern, w), Caught(s, Resolve500(ctx)))
  {
    var pw, flusher := Tracking(false, w), Bottom(w).flusher;
    var inner, tail := LayerShape(Recovery, next, d, ctx, pattern, w);
    ServedInside(d, inner.events, tail);
    RecoverySends(next, d, ctx, pattern, w);
    ForwardedReaches(pw, inner.sent);
    ReachingCommits(flusher, inner.sent);
    ReachingCommits(flusher, s.calls);
    var body := BodyOf(Resolve500(ctx));
    ReachingConcat(flusher, ForwardedAll(pw, inner.sent), body.calls);
    ReachingConcat(flusher, s.calls, body.calls);
  }

  lemma UserDelivers(ops: seq<Op>, handoff: Handoff, next: Handler, d: nat, ctx: Ctx, pattern: string, w: Writer,
                     s: Response)
    requires Delivers(w, RunOps(ops, next, d, HandOn(handoff, ctx), pattern, w), s)
    ensures Delivers(w, Serve(Layer(User(handoff, ops), next), d, ctx, pattern, w), s)
  {
    var inner, tail := LayerShape(User(handoff, ops), next, d, ctx, pattern, w);
    ServedInside(d, inner.events, tail);
  }

  /** One run after another on the same writer. */
  lemma ThenDelivers(w: Writer, r1: Result, s1: Response, r2: Result, s2: Response)
    requires Quiet(w) && NoTakeover(w, r1.sent) && Delivers(w, r1, s1) && r1.w == ApplyAll(w, r1.sent)
    requires Delivers(r1.w, r2, s2)
    ensures Delivers(w, Result(r2.w, r2.pattern, r1.events + r2.events, r1.sent + r2.sent, r2.panicked),
                     Response(s1.calls + s2.calls, s1.served + s2.served, s2.panicked))
  {
    StaysQuiet(w, r1.sent);
    CollectConcat(r1.events, r2.events, ServedBy);
    ReachingConcat(Bottom(w).flusher, r1.sent, r2.sent);
    ReachingConcat(Bottom(w).flusher, s1.calls, s2.calls);
  }

  lemma EmitDelivers(w: Writer, c: Call, r: Result, s: Response)
    requires Delivers(Apply(w, c), r, s)
    ensures Delivers(w, r.(sent := [c] + r.sent), s.(calls := [c] + s.calls))
  {
    KindStays(w, c);
    ReachingConcat(Bottom(w).flusher, [c], r.sent);
    ReachingConcat(Bottom(w).flusher, [c], s.calls);
  }

  /** Every chain of any middleware, on any stack of writers that cannot be taken over, sends
      what the reference says: the wrappers lose and add nothing, and the 500 handler is found
      through the context where it is registered. */
  lemma {:induction false} ChainDelivers(mws: seq<Middleware>, core: Handler, k: nat, own: Terminal, ctx: Ctx,
                                         pattern: string, w: Writer)
    requires core.Dispatch? && k <= |mws| && Resolve500(ctx) == Expected500(mws, k, own)
    requires Quiet(w) && NoTakeover(w, ChainResponse(mws, k, CoreAnswer(core), own).calls)
    ensures Delivers(w, Serve(Chain(mws[k..], core), k, ctx, pattern, w), ChainResponse(mws, k, CoreAnswer(core), own))
    decreases |mws| - k, 1, 0
  {
    if k == |mws| {
      CoreDelivers(core, k, ctx, pattern, w);
    } else {
      ChainAt(mws, core, k);
      HandedOn(mws, k, own, ctx);
      var next, s := Chain(mws[k + 1..], core), ChainResponse(mws, k + 1, CoreAnswer(core), own);
      match mws[k] {
        case User(handoff, ops) =>
          OpsDeliver(mws, core, k + 1, own, ops, HandOn(handoff, ctx), pattern, w, next, s);
          UserDelivers(ops, handoff, next, k, ctx, pattern, w, Around(ops, s));
        case Metrics =>
          ChainDelivers(mws, core, k + 1, own, ctx, pattern, Metering(0, false, w));
          MetricsDelivers(next, k, ctx, pattern, w, s);
        case Recovery =>
          ChainDelivers(mws, core, k + 1, own, ctx, pattern, Tracking(false, w));
          RecoveryDelivers(next, k, ctx, pattern, w, s);
      }
    }
  }

  lemma {:induction false} OpsDeliver(mws: seq<Middleware>, core: Handler, k: nat, own: Terminal, ops: seq<Op>,
                                      ctx: Ctx, pattern: string, w: Writer, next: Handler, s: Response)
    requires core.Dispatch? && 0 < k <= |mws| && Resolve500(ctx) == Expected500(mws, k, own)
    requires next == Chain(mws[k..], core) && s == ChainResponse(mws, k, CoreAnswer(core), own)
    requires Quiet(w) && NoTakeover(w, Around(ops, s).calls)
    ensures Delivers(w, RunOps(ops, next, k - 1, ctx, pattern, w), Around(ops, s))
    decreases |mws| - k, 2, |ops|
  {
    if ops != [] {
      match ops[0] {
        case Panic =>
          OneServed(Panicking(k - 1));
        case Emit(c) =>
          StaysQuiet(w, [c]);
          assert ApplyAll(w, [c]) == ApplyAll(Apply(w, c), [c][1..]);
          OpsDeliver(mws, core, k, own, ops[1..], ctx, pattern, Apply(w, c), next, s);
          EmitDelivers(w, c, RunOps(ops[1..], next, k - 1, ctx, pattern, Apply(w, c)), Around(ops[1..], s));
        case Next =>
          ChainDelivers(mws, core, k, own, ctx, pattern, w);
          var r := Serve(next, k, ctx, pattern, w);
          if !r.panicked {
            StaysQuiet(w, r.sent);
            OpsDeliver(mws, core, k, own, ops[1..], ctx, r.pattern, r.w, next, s);
            ThenDelivers(w, r, s, RunOps(ops[1..], next, k - 1, ctx, r.pattern, r.w), Around(ops[1..], s));
          }
      }
    }
  }

  // ----- what the client gets -----

  /** On a writer nothing has been sent on, what the server receives and the status it sends. */
  lemma ServerReceives(w: Writer, r: Result, s: Response)
    requires Quiet(w) && Bottom(w).calls == [] && NoTakeover(w, s.calls)
    requires Delivers(w, r, s) && r.w == ApplyAll(w, r.sent)
    ensures Reaching(true, Bottom(r.w).calls) == Reaching(Bottom(w).flusher, s.calls)
    ensures WireStatus(Bottom(r.w).calls) == WireStatus(Reaching(Bottom(w).flusher, s.calls))
  {
    StaysQuiet(w, r.sent);
    CallsReach(w, r.sent);
    assert [] + Reaching(Bottom(w).flusher, r.sent) == Reaching(Bottom(w).flusher, r.sent);
    RefusedHijackIsSilent(Bottom(r.w).calls);
  }

  /** A layer that does nothing but call the next handler once. */
  predicate Transparent(mw: Middleware) {
    mw.User? ==> mw.ops == [Next]
  }

  lemma OnlyNext(inner: Response)
    ensures Around([Next], inner) == inner
  {
    assert [Next][1..] == [] && inner.calls + [] == inner.calls && inner.served + [] == inner.served;
  }

  /** Through transparent layers an answer comes out as it is, and the answer of a handler that
      panicked as the innermost PanicRecovery leaves it. */
  lemma {:induction false} TransparentChain(mws: seq<Middleware>, k: nat, answer: Response, own: Terminal)
    requires k <= |mws| && forall mw :: mw in mws ==> Transparent(mw) && !mw.Detaches()
    requires !BodyOf(own).panics
    ensures ChainResponse(mws, k, answer, own) ==
              if answer.panicked && !NoRecovery(mws, k, |mws|) then Caught(answer, own) else answer
    decreases |mws| - k
  {
    if k < |mws| {
      TransparentChain(mws, k + 1, answer, own);
      assert mws[k] in mws;
      assert NoRecovery(mws, k, |mws|) <==> NoRecovery(mws, k + 1, |mws|) && !mws[k].Recovery?;
      if mws[k].User? {
        OnlyNext(ChainResponse(mws, k + 1, answer, own));
      }
    }
  }

  /** The labels HTTPMetrics observes: the pattern of the request, and the status the server
      sends exactly when the handler's last WriteHeader is for the code first committed. */
  lemma ObservedStatusIff(next: Handler, d: nat, ctx: Ctx, pattern: string, w: Writer)
    requires Quiet(w) && Bottom(w).calls == []
    requires var inner := Serve(next, d + 1, ctx, pattern, Metering(0, false, w));
             !inner.panicked && !HijackGranted(Metering(0, false, w), inner.sent)
    ensures var inner := Serve(next, d + 1, ctx, pattern, Metering(0, false, w));
            var r := Serve(Layer(Metrics, next), d, ctx, pattern, w);
            && |r.events| >= 2 && r.events[|r.events| - 2].Observed?
            && r.events[|r.events| - 2].layer == d
            && r.events[|r.events| - 2].pattern == (if inner.pattern == "" then "unknown" else inner.pattern)
            && (HeadersAgree(Bottom(w).flusher, inner.sent) <==>
                  r.events[|r.events| - 2].status == WireStatus(Bottom(r.w).calls))
  {
    var inner, tail := LayerShape(Metrics, next, d, ctx, pattern, w);
    var r := Serve(Layer(Metrics, next), d, ctx, pattern, w);
    assert tail == [Observed(d, PatternLabel(inner.pattern), Label(inner.w))] + [Exited(d)];
    assert r.events[|r.events| - 2] == tail[0];
    LabelIsWireStatusIff(w, inner.sent);
    assert r.w == inner.w.inner && Bottom(inner.w) == Bottom(r.w);
  }

  /** A request whose handler panics is not observed. */
  lemma PanicIsNotObserved(next: Handler, d: nat, ctx: Ctx, pattern: string, w: Writer)
    requires Serve(next, d + 1, ctx, pattern, Metering(0, false, w)).panicked
    ensures var inner := Serve(next, d + 1, ctx, pattern, Metering(0, false, w));
            var r := Serve(Layer(Metrics, next), d, ctx, pattern, w);
            r.panicked && r.events == [Entered(d)] + inner.events
  {
    var inner, tail := LayerShape(Metrics, next, d, ctx, pattern, w);
    assert [Entered(d)] + inner.events + [] == [Entered(d)] + inner.events;
  }

  lemma {:induction false} TriedMembers(lo: nat, hi: nat, last: seq<Event>, e: Event)
    requires !e.RpcCalled?
    ensures e in Tried(lo, hi, last) <==> e in last
    decreases hi - lo
  {
    if lo < hi {
      TriedMembers(lo + 1, hi, last, e);
    }
  }

  lemma ServedMembers(events: seq<Event>, e: Event)
    requires e.MuxServed? || e.NotFoundServed?
    ensures e in Served(events) <==> e in events
  {
    CollectMembers(events, ServedBy, e);
    if e in events {
      var i :| 0 <= i < |events| && events[i] == e;
      assert e in ServedBy(events[i]);
    }
  }
}
