/** What every handler composed by a binding guarantees, for every middleware list, every
    script of user code and every request. */
module HandlerLaws {
  import opened Basics
  import opened ResponseWriters
  import opened Handlers

  lemma ChainAt(mws: seq<Middleware>, core: Handler, k: nat)
    requires k < |mws|
    ensures Chain(mws[k..], core) == Layer(mws[k], Chain(mws[k + 1..], core))
  {
    assert mws[k..][1..] == mws[k + 1..];
  }

  /** What layer mw's own code sees of the rest of the chain. */
  function Inside(mw: Middleware, next: Handler, d: nat, ctx: Ctx, pattern: string, w: Writer): Result {
    match mw
    case User(handoff, ops) => RunOps(ops, next, d, HandOn(handoff, ctx), pattern, w)
    case Recovery => Serve(next, d + 1, ctx, pattern, Tracking(false, w))
    case Metrics => Serve(next, d + 1, ctx, pattern, Metering(0, false, w))
  }

  /** The events a layer adds after what happens inside it. */
  function Tail(mw: Middleware, d: nat, t: Terminal, inner: Result): (tail: seq<Event>)
    requires (mw.Recovery? ==> inner.w.Tracking?) && (mw.Metrics? ==> inner.w.Metering?)
    ensures forall e :: e in tail ==>
              e in {Exited(d), Recovered(d), Panicking(d), Served500(d, t)} || (e.Observed? && e.layer == d)
  {
    match mw
    case User(_, _) => if inner.panicked then [] else [Exited(d)]
    case Metrics =>
      if inner.panicked then [] else [Observed(d, PatternLabel(inner.pattern), Label(inner.w))] + [Exited(d)]
    case Recovery =>
      var handled := inner.panicked && !inner.w.written;
      (if inner.panicked then [Recovered(d)] else [])
        + (if handled then [Served500(d, t)] else [])
        + (if handled && BodyOf(t).panics then [Panicking(d)] else [Exited(d)])
  }

  lemma InsideKind(mw: Middleware, next: Handler, d: nat, ctx: Ctx, pattern: string, w: Writer)
    ensures var inner := Inside(mw, next, d, ctx, pattern, w);
            (mw.Recovery? ==> inner.w.Tracking?) && (mw.Metrics? ==> inner.w.Metering?)
  {
    if !mw.User? {
      var wrapper := if mw.Recovery? then Tracking(false, w) else Metering(0, false, w);
      ForwardedIsFaithful(wrapper, Serve(next, d + 1, ctx, pattern, wrapper).sent);
    }
  }

  /** What a layer adds to what happens inside it. */
  lemma LayerShape(mw: Middleware, next: Handler, d: nat, ctx: Ctx, pattern: string, w: Writer)
    returns (inner: Result, tail: seq<Event>)
    ensures inner == Inside(mw, next, d, ctx, pattern, w)
    ensures (mw.Recovery? ==> inner.w.Tracking?) && (mw.Metrics? ==> inner.w.Metering?)
    ensures tail == Tail(mw, d, Resolve500(ctx), inner)
    ensures var r := Serve(Layer(mw, next), d, ctx, pattern, w);
            && r.events == [Entered(d)] + inner.events + tail
            && r.pattern == (if mw.Copies() then pattern else inner.pattern)
            && r.panicked == (inner.panicked && (mw.Recovery? ==> !inner.w.written && BodyOf(Resolve500(ctx)).panics))
  {
    inner := Inside(mw, next, d, ctx, pattern, w);
    InsideKind(mw, next, d, ctx, pattern, w);
    tail := Tail(mw, d, Resolve500(ctx), inner);
  }

  lemma LayerSkeleton(mw: Middleware, d: nat, t: Terminal, inner: Result)
    requires (mw.Recovery? ==> inner.w.Tracking?) && (mw.Metrics? ==> inner.w.Metering?)
    requires !BodyOf(t).panics
    ensures Skeleton([Entered(d)] + inner.events + Tail(mw, d, t, inner))
         == [Entered(d)] + Skeleton(inner.events) + ExitOf(mw, d, inner.panicked)
  {
    var tail := Tail(mw, d, t, inner);
    TailSkeleton(tail);
    SkeletonConcat([Entered(d)] + inner.events, tail);
    SkeletonConcat([Entered(d)], inner.events);
    assert Skeleton([Entered(d)]) == [Entered(d)];
  }

  /** The events that show how layers are entered and left. */
  function Skeleton(events: seq<Event>): seq<Event> {
    if events == [] then []
    else if events[0].Entered? || events[0].Exited? || events[0].Recovered? then [events[0]] + Skeleton(events[1..])
    else Skeleton(events[1..])
  }

  function ExitOf(mw: Middleware, d: nat, panic: bool): seq<Event> {
    if !panic then [Exited(d)] else if mw.Recovery? then [Recovered(d), Exited(d)] else []
  }

  lemma TailSkeleton(tail: seq<Event>)
    requires |tail| <= 3
    ensures tail == [] ==> Skeleton(tail) == []
    ensures |tail| == 1 && tail[0].Exited? ==> Skeleton(tail) == tail
    ensures |tail| == 2 && (tail[0].Observed? || tail[0].Served500?) && tail[1].Exited? ==> Skeleton(tail) == [tail[1]]
    ensures |tail| == 2 && tail[0].Recovered? && tail[1].Exited? ==> Skeleton(tail) == tail
    ensures |tail| == 3 && tail[0].Recovered? && tail[1].Served500? && tail[2].Exited? ==>
              Skeleton(tail) == [tail[0], tail[2]]
  {
    if |tail| >= 1 {
      var t1 := tail[1..];
      if |tail| >= 2 {
        var t2 := t1[1..];
        if |tail| == 3 {
          assert t2 == [tail[2]] && t2[1..] == [];
        } else {
          assert t2 == [];
        }
      }
    }
  }

  // ----- the dispatcher -----

  /** The first RPC handler that does not decline. */
  function Taker(rpcs: seq<Rpc>, i: nat): (n: nat)
    requires i <= |rpcs|
    ensures i <= n <= |rpcs|
    ensures forall j :: i <= j < n ==> rpcs[j].verdict.Declines?
    ensures n < |rpcs| ==> !rpcs[n].verdict.Declines?
    decreases |rpcs| - i
  {
    if i == |rpcs| || !rpcs[i].verdict.Declines? then i else Taker(rpcs, i + 1)
  }

  /** A mux that answers the request itself. */
  predicate Routes(mux: Mux) {
    mux.OtherMux? || (mux.ServeMux? && mux.pattern != "")
  }

  /** RPC handlers lo up to (not including) hi, called in registration order, and then `last`. */
  function Tried(lo: nat, hi: nat, last: seq<Event>): seq<Event>
    decreases hi - lo
  {
    if lo >= hi then last else [RpcCalled(lo)] + Tried(lo + 1, hi, last)
  }

  /** The RPC handlers run in registration order up to the first that claims or panics; only
      if all decline is there one more server, the mux when it has a route, else not-found. */
  lemma {:induction false} DispatchOrder(rpcs: seq<Rpc>, i: nat, mux: Mux, notFound: Terminal, pattern: string,
                                         w: Writer)
    requires i <= |rpcs|
    ensures var r := ServeRpcs(rpcs, i, mux, notFound, pattern, w);
            var n := Taker(rpcs, i);
            && r.events == Tried(i, n, if n < |rpcs| then [RpcCalled(n)]
                                       else if Routes(mux) then [MuxServed] else [NotFoundServed])
            && (n < |rpcs| ==> (r.panicked <==> rpcs[n].verdict.Throws?))
    decreases |rpcs| - i
  {
    if i < |rpcs| && rpcs[i].verdict.Declines? {
      var w1 := ApplyAll(w, rpcs[i].calls);
      DispatchOrder(rpcs, i + 1, mux, notFound, pattern, w1);
      var rest := ServeRpcs(rpcs, i + 1, mux, notFound, pattern, w1);
      assert ServeRpcs(rpcs, i, mux, notFound, pattern, w).events == [RpcCalled(i)] + rest.events;
      assert Taker(rpcs, i) == Taker(rpcs, i + 1);
    }
  }

  // ----- nesting -----

  /** Where a run stands: layers 0 up to depth have been entered and are still active. In a
      spent state the innermost of them is a PanicRecovery that has caught its panic. A panic
      that is on its way out started in layer `origin`, in the dispatcher if that is |mws|. */
  datatype Live = Live(depth: nat, spent: bool, origin: Option<nat>)

  function Calm(depth: nat): Live { Live(depth, false, None) }

  predicate NoRecovery(mws: seq<Middleware>, lo: nat, hi: nat) {
    forall j :: lo <= j < hi && j < |mws| ==> !mws[j].Recovery?
  }

  /** Layer i is the PanicRecovery that a panic from layer `origin` reaches first. */
  predicate Catches(mws: seq<Middleware>, i: nat, origin: nat) {
    i < origin <= |mws| && mws[i].Recovery? && NoRecovery(mws, i + 1, origin)
  }

  /** Where code runs that can start a panic numbered i: the dispatcher, inside all layers; a
      user's middleware; or the 500 handler of a PanicRecovery that has caught one. */
  predicate MayPanic(mws: seq<Middleware>, s: Live, i: nat) {
    || (i == |mws| == s.depth && !s.spent)
    || (i + 1 == s.depth <= |mws| && (if s.spent then mws[i].Recovery? else mws[i].User?))
  }

  /** The nesting discipline, one event at a time. While no panic is on its way out, the next
      layer in registration order is the only one that may be entered and the innermost
      active one the only one that may exit, and the dispatcher's handlers run inside all the
      layers. While one is, nothing happens but its recovery by the nearest PanicRecovery,
      which drops the active layers inside it. */
  function Advance(mws: seq<Middleware>, s: Live, e: Event): Option<Live> {
    if s.origin.Some? then
      if e.Recovered? && Catches(mws, e.layer, s.origin.value) then Some(Live(e.layer + 1, true, None)) else None
    else
      match e
      case Entered(i) => if s.depth == i < |mws| && !s.spent then Some(Calm(i + 1)) else None
      case Exited(i) => if s.depth == i + 1 then Some(Calm(i)) else None
      case Panicking(i) => if MayPanic(mws, s, i) then Some(s.(origin := Some(i))) else None
      case Recovered(_) => None
      case Served500(i, _) => if s == Live(i + 1, true, None) then Some(s) else None
      case Observed(i, _, _) => if s.depth == i + 1 <= |mws| && mws[i].Metrics? then Some(s) else None
      case RpcCalled(_) => if s == Calm(|mws|) then Some(s) else None
      case MuxServed => if s == Calm(|mws|) then Some(s) else None
      case NotFoundServed => if s == Calm(|mws|) then Some(s) else None
  }

  function Replay(mws: seq<Middleware>, s: Live, events: seq<Event>): Option<Live>
    decreases |events|
  {
    if events == [] then Some(s)
    else
      var next := Advance(mws, s, events[0]);
      if next.None? then None else Replay(mws, next.value, events[1..])
  }

  lemma {:induction false} ReplayConcat(mws: seq<Middleware>, s: Live, a: seq<Event>, b: seq<Event>)
    ensures Replay(mws, s, a + b) ==
            var m := Replay(mws, s, a); if m.None? then None else Replay(mws, m.value, b)
    decreases |a|
  {
    if a == [] {
      assert a + b == b;
    } else {
      assert (a + b)[0] == a[0] && (a + b)[1..] == a[1..] + b;
      var next := Advance(mws, s, a[0]);
      if next.Some? {
        ReplayConcat(mws, next.value, a[1..], b);
      }
    }
  }

  lemma ReplayOne(mws: seq<Middleware>, s: Live, e: Event)
    ensures Replay(mws, s, [e]) == Advance(mws, s, e)
  {
  }

  /** How many layers are active when layer `origin` panics. */
  function DepthOf(mws: seq<Middleware>, origin: nat): nat {
    if origin < |mws| then origin + 1 else |mws|
  }

  /** How a run at depth k leaves the nesting. A normal return has exited everything it
      entered. A panic is on its way out from the layer where it started, `lowest` or further
      in: all the layers from k to that one are still active, and none of them can catch it. */
  predicate Leaves(mws: seq<Middleware>, k: nat, lowest: nat, panicked: bool, s: Option<Live>) {
    || (!panicked && s == Some(Calm(k)))
    || (panicked
        && s.Some? && s.value.origin.Some?
        && lowest <= s.value.origin.value <= |mws|
        && s.value.depth == DepthOf(mws, s.value.origin.value)
        && NoRecovery(mws, lowest, s.value.origin.value))
  }

  lemma {:induction false} RpcNesting(mws: seq<Middleware>, rpcs: seq<Rpc>, i: nat, mux: Mux, notFound: Terminal,
                                      pattern: string, w: Writer)
    requires i <= |rpcs|
    ensures Replay(mws, Calm(|mws|), ServeRpcs(rpcs, i, mux, notFound, pattern, w).events) == Some(Calm(|mws|))
    decreases |rpcs| - i
  {
    if i < |rpcs| && rpcs[i].verdict.Declines? {
      var w1 := ApplyAll(w, rpcs[i].calls);
      RpcNesting(mws, rpcs, i + 1, mux, notFound, pattern, w1);
      ReplayConcat(mws, Calm(|mws|), [RpcCalled(i)], ServeRpcs(rpcs, i + 1, mux, notFound, pattern, w1).events);
      ReplayOne(mws, Calm(|mws|), RpcCalled(i));
    } else if i < |rpcs| {
      ReplayOne(mws, Calm(|mws|), RpcCalled(i));
    } else {
      var e := ServeFallback(mux, notFound, pattern, w).events[0];
      ReplayOne(mws, Calm(|mws|), e);
    }
  }

  /** Every handler a binding composes obeys the nesting discipline, whatever its layers and
      leaf handlers do: layers enter in registration order and exit in reverse; a panic can
      only go to the nearest enclosing PanicRecovery, skipping the exits of exactly the layers
      between; and a panic that leaves the handler started in a layer no PanicRecovery of
      the handler encloses. */
  lemma {:induction false} LayersNest(mws: seq<Middleware>, core: Handler, k: nat, ctx: Ctx, pattern: string, w: Writer)
    requires core.Dispatch? && k <= |mws|
    ensures var r := Serve(Chain(mws[k..], core), k, ctx, pattern, w);
            Leaves(mws, k, k, r.panicked, Replay(mws, Calm(k), r.events))
    decreases |mws| - k, 1, 0
  {
    if k == |mws| {
      DispatchNests(mws, core, ctx, pattern, w);
    } else {
      ChainAt(mws, core, k);
      var next := Chain(mws[k + 1..], core);
      match mws[k] {
        case User(handoff, ops) => OpsNest(mws, core, k + 1, ops, HandOn(handoff, ctx), pattern, w);
        case Metrics => LayersNest(mws, core, k + 1, ctx, pattern, Metering(0, false, w));
        case Recovery => LayersNest(mws, core, k + 1, ctx, pattern, Tracking(false, w));
      }
      var inner, tail := LayerShape(mws[k], next, k, ctx, pattern, w);
      if mws[k].Recovery? {
        RecoveryNests(mws, k, inner, Resolve500(ctx));
      } else {
        PlainLayerNests(mws, k, inner, Resolve500(ctx));
      }
    }
  }

  lemma DispatchNests(mws: seq<Middleware>, core: Handler, ctx: Ctx, pattern: string, w: Writer)
    requires core.Dispatch?
    ensures var r, n := Serve(core, |mws|, ctx, pattern, w), |mws|;
            Leaves(mws, n, n, r.panicked, Replay(mws, Calm(n), r.events))
  {
    var n, r := |mws|, ServeRpcs(core.rpcs, 0, core.mux, core.notFound, pattern, w);
    RpcNesting(mws, core.rpcs, 0, core.mux, core.notFound, pattern, w);
    ReplayConcat(mws, Calm(n), r.events, if r.panicked then [Panicking(n)] else []);
    ReplayOne(mws, Calm(n), Panicking(n));
  }

  lemma {:induction false} OpsNest(mws: seq<Middleware>, core: Handler, k: nat, ops: seq<Op>, ctx: Ctx,
                                   pattern: string, w: Writer)
    requires core.Dispatch? && 0 < k <= |mws| && mws[k - 1].User?
    ensures var r := RunOps(ops, Chain(mws[k..], core), k - 1, ctx, pattern, w);
            Leaves(mws, k, k - 1, r.panicked, Replay(mws, Calm(k), r.events))
    decreases |mws| - k, 2, |ops|
  {
    if ops != [] {
      match ops[0] {
        case Panic => ReplayOne(mws, Calm(k), Panicking(k - 1));
        case Emit(c) => OpsNest(mws, core, k, ops[1..], ctx, pattern, Apply(w, c));
        case Next =>
          LayersNest(mws, core, k, ctx, pattern, w);
          var r1 := Serve(Chain(mws[k..], core), k, ctx, pattern, w);
          if !r1.panicked {
            OpsNest(mws, core, k, ops[1..], ctx, r1.pattern, r1.w);
            ReplayConcat(mws, Calm(k), r1.events,
              RunOps(ops[1..], Chain(mws[k..], core), k - 1, ctx, r1.pattern, r1.w).events);
          }
      }
    }
  }

  /** What surrounds an inner run that nests is replayed from the state the run leaves. */
  lemma Around(mws: seq<Middleware>, k: nat, events: seq<Event>, tail: seq<Event>)
    requires k < |mws| && Replay(mws, Calm(k + 1), events).Some?
    ensures Replay(mws, Calm(k), [Entered(k)] + events + tail)
         == Replay(mws, Replay(mws, Calm(k + 1), events).value, tail)
  {
    ReplayConcat(mws, Calm(k), [Entered(k)], events);
    ReplayOne(mws, Calm(k), Entered(k));
    ReplayConcat(mws, Calm(k), [Entered(k)] + events, tail);
  }

  lemma PlainLayerNests(mws: seq<Middleware>, k: nat, r: Result, t: Terminal)
    requires k < |mws| && !mws[k].Recovery? && (mws[k].Metrics? ==> r.w.Metering?)
    requires Leaves(mws, k + 1, k, r.panicked, Replay(mws, Calm(k + 1), r.events))
          || Leaves(mws, k + 1, k + 1, r.panicked, Replay(mws, Calm(k + 1), r.events))
    ensures Leaves(mws, k, k, r.panicked, Replay(mws, Calm(k), [Entered(k)] + r.events + Tail(mws[k], k, t, r)))
  {
    Around(mws, k, r.events, Tail(mws[k], k, t, r));
    if !r.panicked {
      PlainTailExits(mws, k, r, t);
    }
  }

  lemma PlainTailExits(mws: seq<Middleware>, k: nat, r: Result, t: Terminal)
    requires k < |mws| && !mws[k].Recovery? && (mws[k].Metrics? ==> r.w.Metering?) && !r.panicked
    ensures Replay(mws, Calm(k + 1), Tail(mws[k], k, t, r)) == Some(Calm(k))
  {
    var s, tail := Calm(k + 1), Tail(mws[k], k, t, r);
    ReplayOne(mws, s, Exited(k));
    if mws[k].Metrics? {
      ReplayConcat(mws, s, [tail[0]], [Exited(k)]);
      ReplayOne(mws, s, tail[0]);
    }
  }

  lemma RecoveryNests(mws: seq<Middleware>, k: nat, r: Result, t: Terminal)
    requires k < |mws| && mws[k].Recovery? && r.w.Tracking?
    requires Leaves(mws, k + 1, k + 1, r.panicked, Replay(mws, Calm(k + 1), r.events))
    ensures Leaves(mws, k, k, r.panicked && !r.w.written && BodyOf(t).panics,
                   Replay(mws, Calm(k), [Entered(k)] + r.events + Tail(mws[k], k, t, r)))
  {
    var s := Replay(mws, Calm(k + 1), r.events).value;
    if r.panicked {
      var handled := !r.w.written;
      var served := if handled then [Served500(k, t)] else [];
      var last := if handled && BodyOf(t).panics then Panicking(k) else Exited(k);
      Around(mws, k, r.events, [Recovered(k)] + served + [last]);
      CaughtBy(mws, k, s, served, last);
    } else {
      assert [] + [] + [Exited(k)] == [Exited(k)];
      Around(mws, k, r.events, [Exited(k)]);
      ReplayOne(mws, s, Exited(k));
    }
  }

  lemma CaughtBy(mws: seq<Middleware>, k: nat, s: Live, served: seq<Event>, last: Event)
    requires s.origin.Some? && Catches(mws, k, s.origin.value)
    requires served == [] || (|served| == 1 && served[0].Served500? && served[0].layer == k)
    requires last == Exited(k) || last == Panicking(k)
    ensures Replay(mws, s, [Recovered(k)] + served + [last])
         == Some(if last.Exited? then Calm(k) else Live(k + 1, true, Some(k)))
  {
    var caught := Live(k + 1, true, None);
    ReplayOne(mws, s, Recovered(k));
    ReplayConcat(mws, s, [Recovered(k)], served);
    if served != [] {
      assert served == [served[0]];
      ReplayOne(mws, caught, served[0]);
    }
    ReplayConcat(mws, s, [Recovered(k)] + served, [last]);
    ReplayOne(mws, caught, last);
  }

  // ----- what the discipline says about a panic -----

  lemma {:induction false} ReplayPrefix(mws: seq<Middleware>, s: Live, events: seq<Event>, p: nat)
    requires p <= |events| && Replay(mws, s, events).Some?
    ensures Replay(mws, s, events[..p]).Some?
    ensures Replay(mws, s, events) == Replay(mws, Replay(mws, s, events[..p]).value, events[p..])
  {
    assert events == events[..p] + events[p..];
    ReplayConcat(mws, s, events[..p], events[p..]);
  }

  /** In every run of every chain, the event after a panic is its recovery by the nearest
      PanicRecovery outside the layer where it started; there is none exactly when there is no
      such PanicRecovery, and then the panic comes out of the handler. */
  lemma PanicGoesToNearest(mws: seq<Middleware>, core: Handler, ctx: Ctx, pattern: string, w: Writer, p: nat)
    requires core.Dispatch?
    requires var events := Serve(Chain(mws, core), 0, ctx, pattern, w).events; p < |events| && events[p].Panicking?
    ensures var r := Serve(Chain(mws, core), 0, ctx, pattern, w);
            var origin := r.events[p].layer;
            if p + 1 < |r.events| then
              r.events[p + 1].Recovered? && Catches(mws, r.events[p + 1].layer, origin)
            else r.panicked && NoRecovery(mws, 0, origin)
  {
    var r := Serve(Chain(mws, core), 0, ctx, pattern, w);
    assert mws[0..] == mws;
    LayersNest(mws, core, 0, ctx, pattern, w);
    ReplayPrefix(mws, Calm(0), r.events, p);
    var at := Replay(mws, Calm(0), r.events[..p]).value;
    assert r.events[p..][0] == r.events[p] && r.events[p..][1..] == r.events[p + 1..];
    if p + 1 < |r.events| {
      assert r.events[p + 1..][0] == r.events[p + 1];
    }
  }

  /** A layer between the panic and its recovery does not exit, unless it is entered anew. */
  lemma SkippedLayersDoNotExit(mws: seq<Middleware>, core: Handler, ctx: Ctx, pattern: string, w: Writer, p: nat,
                               q: nat, l: nat)
    requires core.Dispatch?
    requires var events := Serve(Chain(mws, core), 0, ctx, pattern, w).events;
             && p < q < |events| && events[p].Recovered? && events[q] == Exited(l) && events[p].layer < l
    ensures Entered(l) in Serve(Chain(mws, core), 0, ctx, pattern, w).events[p + 1..q]
  {
    assert mws[0..] == mws;
    LayersNest(mws, core, 0, ctx, pattern, w);
    ExitNeedsEntry(mws, Calm(0), Serve(Chain(mws, core), 0, ctx, pattern, w).events, p, q, l);
  }

  lemma ExitNeedsEntry(mws: seq<Middleware>, s: Live, events: seq<Event>, p: nat, q: nat, l: nat)
    requires Replay(mws, s, events).Some?
    requires p < q < |events| && events[p].Recovered? && events[q] == Exited(l) && events[p].layer < l
    ensures Entered(l) in events[p + 1..q]
  {
    ReplayPrefix(mws, s, events, p);
    var at := Replay(mws, s, events[..p]).value;
    assert events[p..][0] == events[p] && events[p..][1..] == events[p + 1..];
    var caught, rest := Live(events[p].layer + 1, true, None), events[p + 1..];
    assert Advance(mws, at, events[p]) == Some(caught);
    ReplayPrefix(mws, caught, rest, q - p - 1);
    assert rest[..q - p - 1] == events[p + 1..q];
    assert rest[q - p - 1..][0] == Exited(l);
    if Entered(l) !in events[p + 1..q] {
      StaysBelow(mws, caught, events[p + 1..q], l);
    }
  }

  /** Without entering layer l, a run cannot come to be inside it. */
  lemma {:induction false} StaysBelow(mws: seq<Middleware>, s: Live, events: seq<Event>, l: nat)
    requires s.depth <= l && (s.origin.Some? ==> s.origin.value <= s.depth)
    requires Entered(l) !in events && Replay(mws, s, events).Some?
    ensures Replay(mws, s, events).value.depth <= l
    decreases |events|
  {
    if events != [] {
      assert events[0] in events;
      StaysBelow(mws, Advance(mws, s, events[0]).value, events[1..], l);
    }
  }

  // ----- one panic, in closed form -----

  predicate OnlyEmits(ops: seq<Op>) {
    forall op :: op in ops ==> op.Emit?
  }

  /** A middleware that writes what it likes around exactly one call of the next handler. */
  predicate PassesThrough(mw: Middleware) {
    mw.User? ==>
      exists i :: 0 <= i < |mw.ops| && mw.ops[i].Next? && OnlyEmits(mw.ops[..i]) && OnlyEmits(mw.ops[i + 1..])
  }

  /** A middleware that panics before it calls the next handler. */
  predicate PanicsFirst(mw: Middleware) {
    mw.User? && exists i :: 0 <= i < |mw.ops| && mw.ops[i].Panic? && OnlyEmits(mw.ops[..i])
  }

  predicate DispatchPanics(core: Handler)
    requires core.Dispatch?
  {
    var n := Taker(core.rpcs, 0);
    if n < |core.rpcs| then core.rpcs[n].verdict.Throws?
    else if Routes(core.mux) then core.mux.body.panics
    else BodyOf(core.notFound).panics
  }

  function Entering(k: nat, n: nat): seq<Event>
    decreases n - k
  {
    if k >= n then [] else [Entered(k)] + Entering(k + 1, n)
  }

  /** The layers from k up to d being left, innermost first, when the layers inside d are done
      with: a layer exits unless a panic is passing through it, and a PanicRecovery the panic
      reaches stops it. */
  function Leaving(mws: seq<Middleware>, k: nat, d: nat, panic: bool): seq<Event>
    requires k <= d <= |mws|
    decreases d - k
  {
    if k == d then [] else Leaving(mws, k + 1, d, panic) + ExitOf(mws[k], k, panic && NoRecovery(mws, k + 1, d))
  }

  lemma {:induction false} SkeletonConcat(a: seq<Event>, b: seq<Event>)
    ensures Skeleton(a + b) == Skeleton(a) + Skeleton(b)
  {
    if a == [] {
      assert a + b == b;
    } else {
      assert (a + b)[0] == a[0] && (a + b)[1..] == a[1..] + b;
      SkeletonConcat(a[1..], b);
    }
  }

  lemma {:induction false} EmitsOnly(ops: seq<Op>, next: Handler, d: nat, ctx: Ctx, pattern: string, w: Writer)
    requires OnlyEmits(ops)
    ensures var r := RunOps(ops, next, d, ctx, pattern, w); r.events == [] && !r.panicked
    decreases |ops|
  {
    if ops != [] {
      assert ops[0] in ops;
      EmitsOnly(ops[1..], next, d, ctx, pattern, Apply(w, ops[0].c));
    }
  }

  /** A middleware that passes through shows exactly what the next handler shows. */
  lemma {:induction false} OneNext(ops: seq<Op>, i: nat, next: Handler, d: nat, ctx: Ctx, pattern: string, w: Writer)
    returns (w': Writer)
    requires i < |ops| && ops[i].Next? && OnlyEmits(ops[..i]) && OnlyEmits(ops[i + 1..])
    ensures var r, n := RunOps(ops, next, d, ctx, pattern, w), Serve(next, d + 1, ctx, pattern, w');
            r.events == n.events && r.panicked == n.panicked
    decreases i
  {
    if i == 0 {
      w' := w;
      var n := Serve(next, d + 1, ctx, pattern, w);
      assert ops[1..] == ops[i + 1..];
      EmitsOnly(ops[1..], next, d, ctx, n.pattern, n.w);
    } else {
      assert ops[0] in ops[..i];
      assert ops[1..][..i - 1] == ops[..i][1..];
      assert ops[1..][i..] == ops[i + 1..];
      w' := OneNext(ops[1..], i - 1, next, d, ctx, pattern, Apply(w, ops[0].c));
    }
  }

  lemma {:induction false} TriedSkeleton(lo: nat, hi: nat, last: Event)
    requires !last.Entered? && !last.Exited? && !last.Recovered?
    ensures Skeleton(Tried(lo, hi, [last])) == []
    decreases hi - lo
  {
    if lo < hi {
      TriedSkeleton(lo + 1, hi, last);
      var t := Tried(lo + 1, hi, [last]);
      assert ([RpcCalled(lo)] + t)[1..] == t;
    } else {
      assert [last][1..] == [];
    }
  }

  lemma {:induction false} DispatchSkeleton(rpcs: seq<Rpc>, i: nat, mux: Mux, notFound: Terminal, pattern: string,
                                            w: Writer)
    requires i <= |rpcs| && (forall j :: 0 <= j < i ==> rpcs[j].verdict.Declines?)
    ensures var r := ServeRpcs(rpcs, i, mux, notFound, pattern, w);
            Skeleton(r.events) == [] && (r.panicked <==> DispatchPanics(Dispatch(rpcs, mux, notFound)))
    decreases |rpcs| - i
  {
    DispatchOrder(rpcs, i, mux, notFound, pattern, w);
    var n := Taker(rpcs, i);
    TriedSkeleton(i, n, if n < |rpcs| then RpcCalled(n) else if Routes(mux) then MuxServed else NotFoundServed);
    SameTaker(rpcs, i);
    FallbackPanics(rpcs, i, mux, notFound, pattern, w);
  }

  lemma {:induction false} SameTaker(rpcs: seq<Rpc>, i: nat)
    requires i <= |rpcs| && (forall j :: 0 <= j < i ==> rpcs[j].verdict.Declines?)
    ensures Taker(rpcs, 0) == Taker(rpcs, i)
  {
  }

  lemma {:induction false} FallbackPanics(rpcs: seq<Rpc>, i: nat, mux: Mux, notFound: Terminal, pattern: string,
                                          w: Writer)
    requires i <= |rpcs|
    ensures Taker(rpcs, i) == |rpcs| ==>
              ServeRpcs(rpcs, i, mux, notFound, pattern, w).panicked
                == if Routes(mux) then mux.body.panics else BodyOf(notFound).panics
    decreases |rpcs| - i
  {
    if i < |rpcs| && rpcs[i].verdict.Declines? {
      FallbackPanics(rpcs, i + 1, mux, notFound, pattern, ApplyAll(w, rpcs[i].calls));
    }
  }

  lemma {:induction false} PanicsAtOnce(ops: seq<Op>, i: nat, next: Handler, d: nat, ctx: Ctx, pattern: string,
                                        w: Writer)
    requires i < |ops| && ops[i].Panic? && OnlyEmits(ops[..i])
    ensures var r := RunOps(ops, next, d, ctx, pattern, w); r.events == [Panicking(d)] && r.panicked
    decreases i
  {
    if i > 0 {
      assert ops[0] in ops[..i];
      assert ops[1..][..i - 1] == ops[..i][1..];
      PanicsAtOnce(ops[1..], i - 1, next, d, ctx, pattern, Apply(w, ops[0].c));
    }
  }

  /** Layer d is the one that panics, and every layer outside it passes through; d == |mws| is
      the dispatcher, which may panic or not. */
  ghost predicate OnePanic(mws: seq<Middleware>, d: nat) {
    && d <= |mws|
    && (forall j :: 0 <= j < d ==> PassesThrough(mws[j]))
    && (d < |mws| ==> PanicsFirst(mws[d]))
  }

  predicate PanicsAt(mws: seq<Middleware>, core: Handler, d: nat)
    requires core.Dispatch?
  {
    d < |mws| || DispatchPanics(core)
  }

  /** With a panic at depth d, or none, and a 500 handler that does not itself panic: the
      layers down to d are entered in registration order and left in reverse; a panic skips
      d and the layers between it and the innermost PanicRecovery outside it, and if there is
      none comes out of the whole handler. */
  lemma {:induction false} PanicUnwinds(mws: seq<Middleware>, core: Handler, k: nat, d: nat, ctx: Ctx,
                                        pattern: string, w: Writer)
    requires core.Dispatch? && k <= d && OnePanic(mws, d)
    requires !BodyOf(Resolve500(ctx)).panics
    ensures var r := Serve(Chain(mws[k..], core), k, ctx, pattern, w);
            && Skeleton(r.events) == Entering(k, DepthOf(mws, d)) + Leaving(mws, k, d, PanicsAt(mws, core, d))
            && (r.panicked <==> PanicsAt(mws, core, d) && NoRecovery(mws, k, d))
    decreases d - k
  {
    if k == |mws| {
      DispatchSkeleton(core.rpcs, 0, core.mux, core.notFound, pattern, w);
      var r := ServeRpcs(core.rpcs, 0, core.mux, core.notFound, pattern, w);
      var own := if r.panicked then [Panicking(k)] else [];
      SkeletonConcat(r.events, own);
      assert own != [] ==> own[1..] == [];
    } else if k == d {
      ChainAt(mws, core, k);
      FirstPanicSkeleton(mws[d], Chain(mws[d + 1..], core), d, ctx, pattern, w);
      assert Entering(d, d + 1) == [Entered(d)];
    } else {
      ChainAt(mws, core, k);
      var next := Chain(mws[k + 1..], core);
      var ctx', w' := InsideOnce(mws[k], next, k, ctx, pattern, w);
      PanicUnwinds(mws, core, k + 1, d, ctx', pattern, w');
      var inner, tail := LayerShape(mws[k], next, k, ctx, pattern, w);
      LayerSkeleton(mws[k], k, Resolve500(ctx), inner);
      UnwindStep(mws, k, d, PanicsAt(mws, core, d), Skeleton(inner.events));
    }
  }

  lemma FirstPanicSkeleton(mw: Middleware, next: Handler, d: nat, ctx: Ctx, pattern: string, w: Writer)
    requires PanicsFirst(mw)
    ensures var r := Serve(Layer(mw, next), d, ctx, pattern, w);
            Skeleton(r.events) == [Entered(d)] && r.panicked
  {
    var i :| 0 <= i < |mw.ops| && mw.ops[i].Panic? && OnlyEmits(mw.ops[..i]);
    PanicsAtOnce(mw.ops, i, next, d, HandOn(mw.handoff, ctx), pattern, w);
    var own := RunOps(mw.ops, next, d, HandOn(mw.handoff, ctx), pattern, w);
    assert Serve(Layer(mw, next), d, ctx, pattern, w).events == [Entered(d)] + own.events;
    SkeletonConcat([Entered(d)], [Panicking(d)]);
    assert [Entered(d)][1..] == [] && [Panicking(d)][1..] == [];
  }

  lemma UnwindStep(mws: seq<Middleware>, k: nat, d: nat, panic: bool, inner: seq<Event>)
    requires k < d <= |mws| && inner == Entering(k + 1, DepthOf(mws, d)) + Leaving(mws, k + 1, d, panic)
    ensures [Entered(k)] + inner + ExitOf(mws[k], k, panic && NoRecovery(mws, k + 1, d))
         == Entering(k, DepthOf(mws, d)) + Leaving(mws, k, d, panic)
  {
  }

  /** A layer that calls the next handler once serves a request as the next handler does, with
      some context and writer. */
  lemma InsideOnce(mw: Middleware, next: Handler, d: nat, ctx: Ctx, pattern: string, w: Writer)
    returns (ctx': Ctx, w': Writer)
    requires PassesThrough(mw) && !BodyOf(Resolve500(ctx)).panics
    ensures var inner, n := Inside(mw, next, d, ctx, pattern, w), Serve(next, d + 1, ctx', pattern, w');
            inner.events == n.events && inner.panicked == n.panicked
    ensures !BodyOf(Resolve500(ctx')).panics
  {
    match mw {
      case User(handoff, ops) =>
        var i :| 0 <= i < |ops| && ops[i].Next? && OnlyEmits(ops[..i]) && OnlyEmits(ops[i + 1..]);
        ctx' := HandOn(handoff, ctx);
        w' := OneNext(ops, i, next, d, ctx', pattern, w);
      case Metrics => ctx', w' := ctx, Metering(0, false, w);
      case Recovery => ctx', w' := ctx, Tracking(false, w);
    }
  }

  // ----- PanicRecovery never mixes two responses -----

  /** What one PanicRecovery layer lets through, for any handler inside it (which may hold
      further PanicRecovery layers): the handler's own calls, followed by those of the 500
      handler when the handler panicked before any WriteHeader or Write. Outer layers see a
      normal return unless that 500 handler itself panics. */
  lemma RecoverySends(next: Handler, d: nat, ctx: Ctx, pattern: string, w: Writer)
    ensures var inner := Serve(next, d + 1, ctx, pattern, Tracking(false, w));
            var r := Serve(Layer(Recovery, next), d, ctx, pattern, w);
            var own := ForwardedAll(Tracking(false, w), inner.sent);
            var body := BodyOf(Resolve500(ctx));
            var handled := inner.panicked && !Commits(inner.sent);
            && r.sent == (if handled then own + body.calls else own)
            && r.w == ApplyAll(w, r.sent)
            && (r.panicked <==> handled && body.panics)
  {
    var pw := Tracking(false, w);
    var inner := Serve(next, d + 1, ctx, pattern, pw);
    WrittenIffCommits(pw, inner.sent);
    var own := ForwardedAll(pw, inner.sent);
    assert own + [] == own;
  }

  /** A handler that makes any WriteHeader and Write calls and then panics: the client gets
      exactly its calls if it made at least one, and otherwise exactly the 500 response. */
  lemma RecoveryNeverMixes(next: Handler, d: nat, ctx: Ctx, pattern: string, w: Writer)
    requires var inner := Serve(next, d + 1, ctx, pattern, Tracking(false, w));
             inner.panicked && Flush !in inner.sent && Hijack !in inner.sent
    ensures var own := Serve(next, d + 1, ctx, pattern, Tracking(false, w)).sent;
            var r := Serve(Layer(Recovery, next), d, ctx, pattern, w);
            var body := BodyOf(Resolve500(ctx));
            && r.sent == (if own != [] then own else body.calls)
            && (r.panicked <==> own == [] && body.panics)
  {
    var own := Serve(next, d + 1, ctx, pattern, Tracking(false, w)).sent;
    RecoverySends(next, d, ctx, pattern, w);
    TrackingForwardsWrites(Tracking(false, w), own);
    if own != [] {
      assert own[0] in own;
    } else {
      assert own + BodyOf(Resolve500(ctx)).calls == BodyOf(Resolve500(ctx)).calls;
    }
  }

  /** In general the response of a panicking handler is one of the two exactly when the
      handler has not flushed an uncommitted response on a writer that can flush: Flush is
      not tracked. */
  lemma RecoveryMixesIff(next: Handler, d: nat, ctx: Ctx, pattern: string, w: Writer)
    requires Serve(next, d + 1, ctx, pattern, Tracking(false, w)).panicked
    requires BodyOf(Resolve500(ctx)).calls != []
    ensures var inner := Serve(next, d + 1, ctx, pattern, Tracking(false, w));
            var own := ForwardedAll(Tracking(false, w), inner.sent);
            var r := Serve(Layer(Recovery, next), d, ctx, pattern, w);
            (r.sent == own || r.sent == BodyOf(Resolve500(ctx)).calls)
              <==> !(Flush in inner.sent && IsFlusher(w) && !Commits(inner.sent))
  {
    var inner := Serve(next, d + 1, ctx, pattern, Tracking(false, w));
    var own := ForwardedAll(Tracking(false, w), inner.sent);
    var calls := BodyOf(Resolve500(ctx)).calls;
    RecoverySends(next, d, ctx, pattern, w);
    OwnCalls(Tracking(false, w), inner.sent);
    if !Commits(inner.sent) {
      assert own + calls != own by {
        assert |own + calls| > |own|;
      }
      if own != [] {
        assert own[0] in own;
        assert |own + calls| > |calls|;
      } else {
        assert own + calls == calls;
      }
    }
  }

  lemma {:induction false} OwnCalls(w: Writer, calls: seq<Call>)
    requires w.Tracking?
    ensures forall c :: c in ForwardedAll(w, calls) ==> c in calls && !c.Hijack?
    ensures Flush in ForwardedAll(w, calls) <==> Flush in calls && IsFlusher(w.inner)
    decreases |calls|
  {
    if calls != [] {
      var next := Apply(w, calls[0]);
      OwnCalls(next, calls[1..]);
      assert IsFlusher(Apply(w.inner, calls[0])) == IsFlusher(w.inner);
      assert Flush in Forwarded(w, calls[0]) <==> calls[0].Flush? && IsFlusher(w.inner);
      assert calls == [calls[0]] + calls[1..];
      assert forall c :: c in calls[1..] ==> c in calls;
    }
  }

  // ----- the status the client of a panicking handler sees -----

  lemma {:induction false} FlusherStays(w: Writer, c: Call)
    ensures Bottom(Apply(w, c)).flusher == Bottom(w).flusher
  {
    if !w.Base? {
      FlusherStays(w.inner, c);
    }
  }

  /** What a tracking writer drops would not have reached the server either. */
  lemma {:induction false} OwnReaches(w: Writer, calls: seq<Call>)
    requires w.Tracking?
    ensures Reaching(Bottom(w).flusher, ForwardedAll(w, calls)) == Reaching(Bottom(w).flusher, calls)
    decreases |calls|
  {
    if calls != [] {
      var c, rest := calls[0], calls[1..];
      FlusherStays(w, c);
      OwnReaches(Apply(w, c), rest);
      assert calls == [c] + rest && [c][1..] == [];
      ReachingConcat(Bottom(w).flusher, Forwarded(w, c), ForwardedAll(Apply(w, c), rest));
    }
  }

  lemma {:induction false} ReachingOnly(flusher: bool, calls: seq<Call>)
    requires !Commits(calls)
    ensures forall c :: c in Reaching(flusher, calls) ==> c.Flush?
  {
    if calls != [] {
      assert calls == [calls[0]] + calls[1..];
      assert calls[0] in calls;
      assert !Commits(calls[1..]) by {
        assert forall c :: c in calls[1..] ==> c in calls;
      }
      ReachingOnly(flusher, calls[1..]);
    }
  }

  /** The status the client of a panicking handler sees, on a writer nothing has been sent on
      and for any handler inside: the one the handler committed, which is 200 if all it sent
      are interim headers; 200 if it has only flushed; and the 500 handler's if neither. */
  lemma PanicStatus(next: Handler, d: nat, ctx: Ctx, pattern: string, w: Writer)
    requires Quiet(w) && Bottom(w).calls == []
    requires Serve(next, d + 1, ctx, pattern, Tracking(false, w)).panicked
    requires !HijackGranted(w, Serve(Layer(Recovery, next), d, ctx, pattern, w).sent)
    ensures var sent := Serve(next, d + 1, ctx, pattern, Tracking(false, w)).sent;
            var reached := Reaching(Bottom(w).flusher, sent);
            WireStatus(Bottom(Serve(Layer(Recovery, next), d, ctx, pattern, w).w).calls) ==
              if Commits(sent) then WireStatus(reached)
              else if Flush in reached then 200
              else WireStatus(Reaching(Bottom(w).flusher, BodyOf(Resolve500(ctx)).calls))
  {
    var sent := Serve(next, d + 1, ctx, pattern, Tracking(false, w)).sent;
    RecoverySends(next, d, ctx, pattern, w);
    SentStatus(w, sent, BodyOf(Resolve500(ctx)).calls, Serve(Layer(Recovery, next), d, ctx, pattern, w).sent);
  }

  lemma SentStatus(w: Writer, own: seq<Call>, calls: seq<Call>, all: seq<Call>)
    requires Quiet(w) && Bottom(w).calls == [] && !HijackGranted(w, all)
    requires var kept := ForwardedAll(Tracking(false, w), own);
             all == if Commits(own) then kept else kept + calls
    ensures var flusher := Bottom(w).flusher;
            var reached := Reaching(flusher, own);
            WireStatus(Bottom(ApplyAll(w, all)).calls) ==
              if Commits(own) then WireStatus(reached)
              else if Flush in reached then 200
              else WireStatus(Reaching(flusher, calls))
  {
    var flusher, pw := Bottom(w).flusher, Tracking(false, w);
    var reached := Reaching(flusher, own);
    CallsReach(w, all);
    RefusedHijackIsSilent(Bottom(ApplyAll(w, all)).calls);
    assert [] + Reaching(flusher, all) == Reaching(flusher, all);
    OwnReaches(pw, own);
    if !Commits(own) {
      ReachingConcat(flusher, ForwardedAll(pw, own), calls);
      FlushedStatus(flusher, own, Reaching(flusher, calls));
    }
  }

  lemma FlushedStatus(flusher: bool, own: seq<Call>, rest: seq<Call>)
    requires !Commits(own)
    ensures var reached := Reaching(flusher, own);
            WireStatus(reached + rest) == if Flush in reached then 200 else WireStatus(rest)
  {
    var reached := Reaching(flusher, own);
    ReachingOnly(flusher, own);
    if reached != [] {
      assert reached[0] in reached && (reached + rest)[0] == reached[0];
    } else {
      assert reached + rest == rest;
    }
  }

  function EmitThenPanic(c: Call): Middleware {
    User(Same, [Emit(c), Panic])
  }

  lemma OneCallInside(c: Call, core: Handler, d: nat, ctx: Ctx, pattern: string, w: Writer)
    ensures var inner := Serve(Layer(EmitThenPanic(c), core), d, ctx, pattern, w);
            inner.sent == [c] && inner.panicked
  {
    var ops := [Emit(c), Panic];
    assert ops[1..] == [Panic];
    assert RunOps(ops[1..], core, d, ctx, pattern, Apply(w, c)).sent == [];
    assert RunOps(ops, core, d, ctx, pattern, w).sent == [c];
  }

  lemma ForwardOne(w: Writer, c: Call)
    requires !w.Base?
    ensures ForwardedAll(w, [c]) == Forwarded(w, c)
  {
    assert [c][1..] == [] && ForwardedAll(Apply(w, c), []) == [];
  }

  /** What PanicRecovery sends for a handler that makes one call and panics. */
  lemma OneCallThenPanic(c: Call, core: Handler, w: Writer)
    ensures var pw, next := Tracking(false, w), Layer(EmitThenPanic(c), core);
            && Serve(next, 1, Root, "", pw).sent == [c] && Serve(next, 1, Root, "", pw).panicked
            && Serve(Layer(Recovery, next), 0, Root, "", w).sent
                == if Commits([c]) then Forwarded(pw, c) else Forwarded(pw, c) + [WriteHeader(500), Write]
  {
    var pw, next := Tracking(false, w), Layer(EmitThenPanic(c), core);
    OneCallInside(c, core, 1, Root, "", pw);
    ForwardOne(pw, c);
    assert BodyOf(Resolve500(Root)).calls == [WriteHeader(500), Write];
    RecoverySends(next, 0, Root, "", w);
  }

  /** An interim header counts as written: a handler that sends one, on a writer nothing has
      been sent on, and then panics gets no 500 response, and is answered as a success. */
  lemma InterimThenPanicSucceeds(core: Handler, code: Code, w: Writer)
    requires code < 200 && code != 101 && Quiet(w) && Bottom(w).calls == []
    ensures var r := Serve(Layer(Recovery, Layer(EmitThenPanic(WriteHeader(code)), core)), 0, Root, "", w);
            r.sent == [WriteHeader(code)] && !r.panicked && WireStatus(Bottom(r.w).calls) == 200
  {
    var c, next := WriteHeader(code), Layer(EmitThenPanic(WriteHeader(code)), core);
    OneCallThenPanic(c, core, w);
    RecoverySends(next, 0, Root, "", w);
    assert c in [c] && [c][1..] == [];
    NoHijackGrant(w, [c]);
    PanicStatus(next, 0, Root, "", w);
    assert Reaching(Bottom(w).flusher, [c]) == [c] + Reaching(Bottom(w).flusher, [c][1..]);
    assert WireStatus([c]) == WireStatus([c][1..]);
  }

  /** The mixture is real: a handler that flushes, on any writer that can, and then panics gets
      the headers of its own empty response and the body of the 500 handler. */
  lemma FlushThenPanicMixes(core: Handler, w: Writer)
    requires IsFlusher(w)
    ensures Serve(Layer(Recovery, Layer(EmitThenPanic(Flush), core)), 0, Root, "", w).sent
         == [Flush, WriteHeader(500), Write]
  {
    OneCallThenPanic(Flush, core, w);
    assert !Commits([Flush]);
  }

  // ----- the 500 handler found through the context -----

  predicate DetachedBefore(mws: seq<Middleware>, i: nat) {
    exists j :: 0 <= j < i && j < |mws| && mws[j].Detaches()
  }

  /** The 500 handler a PanicRecovery at layer i uses: the binding's own, unless a layer
      outside it handed on a context without the binding's values. */
  function Expected500(mws: seq<Middleware>, i: nat, own: Terminal): Terminal {
    if DetachedBefore(mws, i) then Default(ERROR_STATUS_500) else own
  }

  ghost predicate Uses500(mws: seq<Middleware>, own: Terminal, events: seq<Event>) {
    forall e :: e in events && e.Served500? ==> e.t == Expected500(mws, e.layer, own)
  }

  lemma {:induction false} ContextFinds500(mws: seq<Middleware>, core: Handler, k: nat, own: Terminal, ctx: Ctx,
                                           pattern: string, w: Writer)
    requires core.Dispatch? && k <= |mws|
    requires Resolve500(ctx) == Expected500(mws, k, own)
    ensures Uses500(mws, own, Serve(Chain(mws[k..], core), k, ctx, pattern, w).events)
    decreases |mws| - k, 1, 0
  {
    if k == |mws| {
      DispatchServesNo500(core.rpcs, 0, core.mux, core.notFound, pattern, w);
    } else {
      ChainAt(mws, core, k);
      var next := Chain(mws[k + 1..], core);
      InsideFinds500(mws, core, k, own, ctx, pattern, w);
      var inner, tail := LayerShape(mws[k], next, k, ctx, pattern, w);
      LayerUses500(mws, own, k, inner.events, tail);
    }
  }

  /** What layer k hands on resolves to what the layers inside it expect. */
  lemma HandedOn(mws: seq<Middleware>, k: nat, own: Terminal, ctx: Ctx)
    requires k < |mws| && Resolve500(ctx) == Expected500(mws, k, own)
    ensures Resolve500(if mws[k].User? then HandOn(mws[k].handoff, ctx) else ctx) == Expected500(mws, k + 1, own)
  {
    assert DetachedBefore(mws, k + 1) <==> DetachedBefore(mws, k) || mws[k].Detaches();
  }

  lemma {:induction false} InsideFinds500(mws: seq<Middleware>, core: Handler, k: nat, own: Terminal, ctx: Ctx,
                                          pattern: string, w: Writer)
    requires core.Dispatch? && k < |mws|
    requires Resolve500(ctx) == Expected500(mws, k, own)
    ensures Uses500(mws, own, Inside(mws[k], Chain(mws[k + 1..], core), k, ctx, pattern, w).events)
    decreases |mws| - k, 0, 0
  {
    HandedOn(mws, k, own, ctx);
    match mws[k] {
      case User(handoff, ops) => OpsFind500(mws, core, k + 1, own, ops, HandOn(handoff, ctx), pattern, w);
      case Metrics => ContextFinds500(mws, core, k + 1, own, ctx, pattern, Metering(0, false, w));
      case Recovery => ContextFinds500(mws, core, k + 1, own, ctx, pattern, Tracking(false, w));
    }
  }

  lemma LayerUses500(mws: seq<Middleware>, own: Terminal, k: nat, inner: seq<Event>, tail: seq<Event>)
    requires Uses500(mws, own, inner) && Uses500(mws, own, tail)
    ensures Uses500(mws, own, [Entered(k)] + inner + tail)
  {
  }

  lemma {:induction false} OpsFind500(mws: seq<Middleware>, core: Handler, k: nat, own: Terminal, ops: seq<Op>,
                                      ctx: Ctx, pattern: string, w: Writer)
    requires core.Dispatch? && 0 < k <= |mws|
    requires Resolve500(ctx) == Expected500(mws, k, own)
    ensures Uses500(mws, own, RunOps(ops, Chain(mws[k..], core), k - 1, ctx, pattern, w).events)
    decreases |mws| - k, 2, |ops|
  {
    if ops != [] {
      match ops[0] {
        case Panic =>
        case Emit(c) => OpsFind500(mws, core, k, own, ops[1..], ctx, pattern, Apply(w, c));
        case Next =>
          ContextFinds500(mws, core, k, own, ctx, pattern, w);
          var r := Serve(Chain(mws[k..], core), k, ctx, pattern, w);
          OpsFind500(mws, core, k, own, ops[1..], ctx, r.pattern, r.w);
      }
    }
  }

  lemma {:induction false} DispatchServesNo500(rpcs: seq<Rpc>, i: nat, mux: Mux, notFound: Terminal, pattern: string,
                                               w: Writer)
    requires i <= |rpcs|
    ensures forall e :: e in ServeRpcs(rpcs, i, mux, notFound, pattern, w).events ==> !e.Served500?
    decreases |rpcs| - i
  {
    if i < |rpcs| {
      DispatchServesNo500(rpcs, i + 1, mux, notFound, pattern, ApplyAll(w, rpcs[i].calls));
    }
  }

  // ----- the pattern label -----

  predicate CopiesFrom(mws: seq<Middleware>, k: nat) {
    exists j :: k <= j < |mws| && mws[j].Copies()
  }

  /** The Pattern field of the request handed to layer k, afterwards: the mux's route, if the
      mux served this very request and not a copy of it. */
  function PatternAfter(mws: seq<Middleware>, core: Handler, k: nat, pattern: string, events: seq<Event>): string
    requires core.Dispatch?
  {
    if MuxServed in events && core.mux.ServeMux? && !CopiesFrom(mws, k) then core.mux.pattern else pattern
  }

  lemma {:induction false} PatternFlows(mws: seq<Middleware>, core: Handler, k: nat, ctx: Ctx, pattern: string,
                                        w: Writer)
    requires core.Dispatch? && k <= |mws|
    ensures var r := Serve(Chain(mws[k..], core), k, ctx, pattern, w);
            r.pattern == PatternAfter(mws, core, k, pattern, r.events)
    decreases |mws| - k, 1, 0
  {
    if k == |mws| {
      DispatchPattern(core.rpcs, 0, core.mux, core.notFound, pattern, w);
    } else {
      ChainAt(mws, core, k);
      var next := Chain(mws[k + 1..], core);
      match mws[k] {
        case User(handoff, ops) => OpsPattern(mws, core, k + 1, ops, HandOn(handoff, ctx), pattern, w);
        case Metrics => PatternFlows(mws, core, k + 1, ctx, pattern, Metering(0, false, w));
        case Recovery => PatternFlows(mws, core, k + 1, ctx, pattern, Tracking(false, w));
      }
      var inner, tail := LayerShape(mws[k], next, k, ctx, pattern, w);
      LayerPattern(mws, core, k, pattern, inner, tail);
    }
  }

  lemma LayerPattern(mws: seq<Middleware>, core: Handler, k: nat, pattern: string, inner: Result, tail: seq<Event>)
    requires core.Dispatch? && k < |mws| && MuxServed !in tail
    requires inner.pattern == PatternAfter(mws, core, k + 1, pattern, inner.events)
    ensures (if mws[k].Copies() then pattern else inner.pattern)
         == PatternAfter(mws, core, k, pattern, [Entered(k)] + inner.events + tail)
  {
    assert CopiesFrom(mws, k) <==> mws[k].Copies() || CopiesFrom(mws, k + 1);
  }

  lemma {:induction false} OpsPattern(mws: seq<Middleware>, core: Handler, k: nat, ops: seq<Op>, ctx: Ctx,
                                      pattern: string, w: Writer)
    requires core.Dispatch? && 0 < k <= |mws|
    ensures var r := RunOps(ops, Chain(mws[k..], core), k - 1, ctx, pattern, w);
            r.pattern == PatternAfter(mws, core, k, pattern, r.events)
    decreases |mws| - k, 2, |ops|
  {
    if ops != [] {
      match ops[0] {
        case Panic =>
        case Emit(c) => OpsPattern(mws, core, k, ops[1..], ctx, pattern, Apply(w, c));
        case Next =>
          PatternFlows(mws, core, k, ctx, pattern, w);
          var r := Serve(Chain(mws[k..], core), k, ctx, pattern, w);
          OpsPattern(mws, core, k, ops[1..], ctx, r.pattern, r.w);
      }
    }
  }

  lemma {:induction false} DispatchPattern(rpcs: seq<Rpc>, i: nat, mux: Mux, notFound: Terminal, pattern: string,
                                           w: Writer)
    requires i <= |rpcs|
    ensures var r := ServeRpcs(rpcs, i, mux, notFound, pattern, w);
            r.pattern == if MuxServed in r.events && mux.ServeMux? then mux.pattern else pattern
    decreases |rpcs| - i
  {
    if i < |rpcs| && rpcs[i].verdict.Declines? {
      DispatchPattern(rpcs, i + 1, mux, notFound, pattern, ApplyAll(w, rpcs[i].calls));
    }
  }

  /** When the mux served the request, the metrics layer at k labels it with the matched
      route exactly when no middleware inside it copies the request. */
  lemma LabelIsRouteIff(mws: seq<Middleware>, core: Handler, k: nat, ctx: Ctx, w: Writer)
    requires core.Dispatch? && core.mux.ServeMux? && core.mux.pattern !in {"", "unknown"}
    requires k < |mws| && mws[k].Metrics?
    requires var inner := Serve(Chain(mws[k + 1..], core), k + 1, ctx, "", Metering(0, false, w));
             !inner.panicked && MuxServed in inner.events
    ensures var r := Serve(Chain(mws[k..], core), k, ctx, "", w);
            && |r.events| >= 2 && r.events[|r.events| - 2].Observed?
            && (r.events[|r.events| - 2].pattern == core.mux.pattern <==> !CopiesFrom(mws, k + 1))
  {
    ChainAt(mws, core, k);
    PatternFlows(mws, core, k + 1, ctx, "", Metering(0, false, w));
  }

  /** The exception is real: with a middleware in between that hands on a copy of the request,
      a request served under a route is counted under "unknown". */
  lemma CopiedRequestIsUnknown(route: string, w: Writer)
    requires route != ""
    ensures var core := Dispatch([], ServeMux(route, Body([], false)), Default(404));
            var h := Chain([Metrics, User(Derived, [Next])], core);
            var r := Serve(h, 0, Root, "", w);
            MuxServed in r.events && Observed(0, "unknown", 200) in r.events
  {
    var mws := [Metrics, User(Derived, [Next])];
    var core := Dispatch([], ServeMux(route, Body([], false)), Default(404));
    var user := Layer(User(Derived, [Next]), core);
    assert mws[1..] == [User(Derived, [Next])] && mws[1..][1..] == [];
    ChainAt(mws, core, 0);
    ChainAt(mws, core, 1);
    assert mws[0..] == mws && mws[2..] == [];
    assert Chain(mws, core) == Layer(Metrics, user);
    var rw := Metering(0, false, w);
    var served := Serve(core, 2, WithValue(Root), "", rw);
    assert served.events == [MuxServed];
    assert served.w == rw && !served.panicked;
    JustNext(core, 1, WithValue(Root), "", rw);
    var inner := Serve(user, 1, Root, "", rw);
    assert inner.pattern == "" && inner.events == [Entered(1)] + [MuxServed] + [Exited(1)];
    assert MuxServed in inner.events;
  }

  lemma JustNext(next: Handler, d: nat, ctx: Ctx, pattern: string, w: Writer)
    ensures var r, n := RunOps([Next], next, d, ctx, pattern, w), Serve(next, d + 1, ctx, pattern, w);
            r.events == n.events && r.w == n.w && r.pattern == n.pattern && r.panicked == n.panicked
  {
    var n := Serve(next, d + 1, ctx, pattern, w);
    assert [Next][1..] == [];
    assert RunOps([Next][1..], next, d, ctx, n.pattern, n.w) == Result(n.w, n.pattern, [], [], false);
    assert n.events + [] == n.events;
  }

  lemma ThrowingRpcIsCaught(core: Handler, d: nat, ctx: Ctx, pattern: string, w: Writer)
    requires core.Dispatch? && core.rpcs == [Rpc([], Throws)] && Resolve500(ctx) == Default(ERROR_STATUS_500)
    ensures var r := Serve(Layer(Recovery, core), d, ctx, pattern, w);
            Served500(d, Default(ERROR_STATUS_500)) in r.events && !r.panicked
  {
    var inside := Serve(core, d + 1, ctx, pattern, Tracking(false, w));
    assert inside.sent == [] && inside.panicked && inside.w == Tracking(false, w);
    var inner, tail := LayerShape(Recovery, core, d, ctx, pattern, w);
    assert tail[1] == Served500(d, Default(ERROR_STATUS_500));
  }

  /** A PanicRecovery inside a middleware that drops the context answers with the default. */
  lemma DetachedRecovery(core: Handler, ctx: Ctx, w: Writer)
    requires core.Dispatch? && core.rpcs == [Rpc([], Throws)]
    ensures Served500(1, Default(ERROR_STATUS_500))
         in Serve(Chain([User(Detached, [Next]), Recovery], core), 0, ctx, "", w).events
  {
    var mws := [User(Detached, [Next]), Recovery];
    ChainAt(mws, core, 0);
    ChainAt(mws, core, 1);
    assert mws[0..] == mws && mws[2..] == [];
    var inner := Layer(Recovery, core);
    ThrowingRpcIsCaught(core, 1, Root, "", w);
    JustNext(inner, 0, Root, "", w);
    assert Serve(Layer(mws[0], inner), 0, ctx, "", w).events
        == [Entered(0)] + RunOps([Next], inner, 0, Root, "", w).events + [Exited(0)];
  }
}
