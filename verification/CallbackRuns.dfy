/** Which callbacks a whole run calls: each list is walked once, and what is registered on it
    after its pass is never called. */
module CallbackRuns {
  import opened Basics
  import opened Lifecycle
  import opened CallbackLaws
  import C = Cleaners

  /** From w to w' no callback is called and the lists only grow. */
  ghost predicate CallsNone(w: World, w': World) {
    forall phase :: Called(w'.trace, phase) == Called(w.trace, phase) && w.Hooks(phase) <= w'.Hooks(phase)
  }

  lemma EmitCallsNone(w: World, e: Event)
    requires !e.Callback?
    ensures CallsNone(w, w.Emit(e))
  {
    forall phase ensures Called(w.Emit(e).trace, phase) == Called(w.trace, phase) {
      CalledEmit(w.trace, e, phase);
    }
  }

  lemma EmitAllCallsNone(w: World, es: seq<Event>)
    requires forall e :: e in es ==> !e.Callback?
    ensures CallsNone(w, w.EmitAll(es))
  {
    forall phase ensures Called(w.EmitAll(es).trace, phase) == Called(w.trace, phase) {
      CalledNothing(w.trace, es, phase);
    }
  }

  lemma ActsCallNone(w: World, acts: seq<Act>)
    ensures CallsNone(w, RunActs(w, acts).0)
  {
    forall phase
      ensures Called(RunActs(w, acts).0.trace, phase) == Called(w.trace, phase)
      ensures w.Hooks(phase) <= RunActs(w, acts).0.Hooks(phase)
    {
      ActsCallNothing(w, acts, phase);
      ActsAppend(w, acts, phase);
    }
  }

  lemma {:induction false} OpenCallsNone(w: World, order: seq<Served>, k: nat, script: Script)
    requires k <= |order|
    ensures CallsNone(w, OpenBindings(w, order, k, script).w)
    decreases |order| - k
  {
    if k < |order| {
      var w1 := OpenOne(w, order[k], script).0;
      var es := w1.trace[|w.trace|..];
      assert w1 == w.EmitAll(es);
      EmitAllCallsNone(w, es);
      OpenCallsNone(w1, order, k + 1, script);
    }
  }

  lemma {:induction false} CloseCallsNone(w: World, order: seq<Served>, n: nat, script: Script, ctx: Ctx)
    requires n <= |order|
    ensures CallsNone(w, CloseBindings(w, order, n, script, ctx).0)
    decreases n
  {
    if n > 0 {
      var w1 := ShutdownBinding(w, order[n - 1], script, ctx).0;
      var es := w1.trace[|w.trace|..];
      assert w1 == w.EmitAll(es);
      EmitAllCallsNone(w, es);
      CloseCallsNone(w1, order, n - 1, script, ctx);
    }
  }

  lemma OnStopCallsNone(w: World, script: Script, ctx: Ctx)
    ensures CallsNone(w, CallOnStop(w, script, ctx).0)
  {
    EmitCallsNone(w, OnStop(ctx));
    var (w1, outcome) := RunActs(w.Emit(OnStop(ctx)), script.onStop);
    ActsCallNone(w.Emit(OnStop(ctx)), script.onStop);
    EmitCallsNone(w1, if outcome == Panicked then OnStopPanicked else OnStopFailed);
  }

  lemma CleanCallsNone(w: World, ctx: Ctx)
    ensures CallsNone(w, CallClean(w, ctx).0)
  {
    EmitCallsNone(w, Clean(ctx));
    if w.cleaner.Started() {
      EmitCallsNone(w.Emit(Clean(ctx)), CleanFailed);
    } else {
      EmitAllCallsNone(w.Emit(Clean(ctx)), CleanEvents(C.DrainEvents(w.cleaner.stack)));
    }
  }

  /** The part of a shutdown that follows the callbacks. */
  lemma RestCallsNone(w: World, order: seq<Served>, count: nat, script: Script, ctx: Ctx)
    requires count <= |order|
    ensures CallsNone(w, RunShutdown(w, false, order, count, script, ctx).0)
  {
    CloseCallsNone(w, order, count, script, ctx);
    var w1 := CloseBindings(w, order, count, script, ctx).0;
    OnStopCallsNone(w1, script, ctx);
    CleanCallsNone(CallOnStop(w1, script, ctx).0, ctx);
  }

  /** A pass over one list calls no callback of the other. */
  lemma {:induction false} PassCallsNoOther(w: World, phase: Phase, i: nat, ctx: Ctx, other: Phase)
    requires i <= |w.Hooks(phase)| && other != phase
    ensures Called(RunCallbacks(w, phase, i, ctx).trace, other) == Called(w.trace, other)
    decreases Weight(w.Hooks(phase)[i..])
  {
    if i < |w.Hooks(phase)| {
      var h := w.Hooks(phase)[i];
      var w0 := w.Emit(Callback(phase, h.id, ctx));
      CalledEmit(w.trace, Callback(phase, h.id, ctx), other);
      ActsCallNothing(w0, h.acts, other);
      CalledEmit(RunActs(w0, h.acts).0.trace, CallbackPanicked(phase), other);
      RunHookAppends(w, phase, i, ctx, phase);
      PassCallsNoOther(RunHook(w, phase, h, ctx), phase, i + 1, ctx, other);
    }
  }

  /** What one whole pass does to what has been called. */
  lemma WholePass(w: World, phase: Phase, ctx: Ctx, other: Phase)
    requires other != phase
    ensures var r := RunCallbacks(w, phase, 0, ctx);
            && Called(r.trace, phase) == Called(w.trace, phase) + IdsOf(r.Hooks(phase))
            && Called(r.trace, other) == Called(w.trace, other)
            && w.Hooks(phase) <= r.Hooks(phase) && w.Hooks(other) <= r.Hooks(other)
  {
    PassCallsFinalList(w, phase, 0, ctx);
    PassCallsNoOther(w, phase, 0, ctx, other);
    PassGrows(w, phase, 0, ctx, phase);
    PassGrows(w, phase, 0, ctx, other);
    var l := RunCallbacks(w, phase, 0, ctx).Hooks(phase);
    assert l[0..] == l;
  }

  // ----- startup -----

  lemma AbortCallsNone(w: World, order: seq<Served>, count: nat, script: Script, serving: bool)
    requires count <= |order|
    ensures CallsNone(w, Abort(Cancel(w, script, serving), order, count, script, serving))
  {
    EmitCallsNone(w, StartTimeoutCancelled);
    var w1 := Cancel(w, script, serving);
    EmitCallsNone(w1, StoreFlag);
    RestCallsNone(w1.Emit(StoreFlag), order, count, script, FailCtx(script, serving));
  }

  lemma GiveUpCallsNone(w: World, logged: bool, script: Script, serving: bool)
    ensures CallsNone(w, GiveUp(w, logged, script, serving))
  {
    EmitCallsNone(w, StartTimeoutCancelled);
    var w1 := Cancel(w, script, serving);
    EmitCallsNone(w1, StartErrorLogged);
    var w2 := if logged then w1.Emit(StartErrorLogged) else w1;
    EmitCallsNone(w2, StoreFlag);
    RestCallsNone(w2.Emit(StoreFlag), [], 0, script, FailCtx(script, serving));
  }

  /** What a launch has called: every on-listen-ready callback if it came up, and otherwise none. */
  ghost predicate LaunchCalled(w: World, w': World, up: bool) {
    && Called(w'.trace, BeforeShutdown) == Called(w.trace, BeforeShutdown)
    && Called(w'.trace, OnListenReady) == Called(w.trace, OnListenReady) + if up then IdsOf(w'.ready) else []
  }

  lemma GreetCalls(w: World, script: Script, serving: bool)
    ensures LaunchCalled(w, Greet(w, script, serving), true)
  {
    var ctx := StartCtx(script, serving);
    WholePass(w, OnListenReady, ctx, BeforeShutdown);
    var w1 := RunCallbacks(w, OnListenReady, 0, ctx);
    EmitCallsNone(w1, StartTimeoutCancelled);
    EmitCallsNone(Cancel(w1, script, serving), Ready);
  }

  lemma AfterOnStartCalls(w: World, script: Script, serving: bool)
    ensures var (w', startup) := AfterOnStart(w, script, serving); LaunchCalled(w, w', startup.Up?)
  {
    EmitCallsNone(w, OnStartReturned);
    var w1 := w.Emit(OnStartReturned);
    if script.startError.Some? {
      EmitCallsNone(w, OnStartFailed);
      GiveUpCallsNone(w.Emit(OnStartFailed), true, script, serving);
    } else if !script.ordered {
      EmitCallsNone(w1, OrderFailed);
      GiveUpCallsNone(w1.Emit(OrderFailed), serving, script, serving);
    } else {
      OpenCallsNone(w1, w1.bindings, 0, script);
      var o := OpenBindings(w1, w1.bindings, 0, script);
      if o.ok {
        GreetCalls(o.w, script, serving);
      } else {
        AbortCallsNone(o.w, w1.bindings, o.count, script, serving);
      }
    }
  }

  lemma LaunchCalls(w: World, script: Script, serving: bool)
    ensures var (w', startup) := Launch(w, script, serving); LaunchCalled(w, w', startup.Up?)
  {
    var w1 := BeforeOnStart(w, script, serving);
    var es := w1.trace[|w.trace|..];
    assert w1 == w.EmitAll(es);
    EmitAllCallsNone(w, es);
    ActsCallNone(w1, script.onStart);
    AfterOnStartCalls(RunActs(w1, script.onStart).0, script, serving);
  }

  // ----- whole runs -----

  /** The state in which the pass over the before-shutdown callbacks leaves a normal shutdown. */
  function BeforePassed(w: World, e1: Event, e2: Event, script: Script, ctx: Ctx): World {
    RunCallbacks(WhileUp(w, script).Emit(e1).Emit(e2), BeforeShutdown, 0, ctx)
  }

  /** What a run that came up in state w1 has called in the end: each list as its own pass left
      it, from first to last and nothing else; what user code registered while the daemon was
      up is still in time for the second pass; what comes later on either list is not called. */
  ghost predicate RunCalled(w1: World, up: World, passed: World, w': World) {
    && (Called(w'.trace, OnListenReady), Called(w'.trace, BeforeShutdown)) == (IdsOf(w1.ready), IdsOf(passed.before))
    && w1.ready <= w'.ready && up.before <= passed.before <= w'.before
  }

  lemma ShutdownCalls(w: World, e1: Event, e2: Event, order: seq<Served>, script: Script, ctx: Ctx)
    requires !e1.Callback? && !e2.Callback?
    requires Called(w.trace, OnListenReady) == IdsOf(w.ready) && Called(w.trace, BeforeShutdown) == []
    ensures var up := WhileUp(w, script);
            RunCalled(w, up, BeforePassed(w, e1, e2, script, ctx),
                      RunShutdown(up.Emit(e1).Emit(e2), true, order, |order|, script, ctx).0.Emit(Stopped))
  {
    ActsCallNone(w, script.running);
    var up := WhileUp(w, script);
    EmitCallsNone(up, e1);
    EmitCallsNone(up.Emit(e1), e2);
    WholePass(up.Emit(e1).Emit(e2), BeforeShutdown, ctx, OnListenReady);
    var passed := BeforePassed(w, e1, e2, script, ctx);
    assert [] + IdsOf(passed.before) == IdsOf(passed.before);
    RestCallsNone(passed, order, |order|, script, ctx);
    var w' := RunShutdown(passed, false, order, |order|, script, ctx).0;
    EmitCallsNone(w', Stopped);
    assert w' == RunShutdown(up.Emit(e1).Emit(e2), true, order, |order|, script, ctx).0;
    assert w.Hooks(OnListenReady) <= up.Hooks(OnListenReady);
    assert passed.Hooks(OnListenReady) <= w'.Hooks(OnListenReady);
    assert passed.Hooks(BeforeShutdown) <= w'.Hooks(BeforeShutdown);
  }

  lemma FirstLaunchCalls(bindings: seq<Served>, script: Script, serving: bool)
    ensures var (w1, startup) := Launch(NewWorld(bindings), script, serving);
            && Called(w1.trace, BeforeShutdown) == []
            && Called(w1.trace, OnListenReady) == if startup.Up? then IdsOf(w1.ready) else []
  {
    LaunchCalls(NewWorld(bindings), script, serving);
    var (w1, startup) := Launch(NewWorld(bindings), script, serving);
    assert [] + IdsOf(w1.ready) == IdsOf(w1.ready);
  }

  predicate NoneCalled(w: World) {
    Called(w.trace, OnListenReady) == [] && Called(w.trace, BeforeShutdown) == []
  }

  /** Serve calls each callback of each list once, in registration order, up to the end of its
      pass; a Serve that does not come up calls none. */
  lemma ServeCalls(bindings: seq<Served>, script: Script)
    ensures var w := NewWorld(bindings);
            var (w1, startup) := Launch(w, script, true);
            var w' := Serve(w, script).0;
            if startup.Up? then
              RunCalled(w1, WhileUp(w1, script),
                        BeforePassed(w1, Initiated, StoreFlag, script, ServeStopCtx(script)), w')
            else NoneCalled(w')
  {
    FirstLaunchCalls(bindings, script, true);
    var w := NewWorld(bindings);
    var (w1, startup) := Launch(w, script, true);
    if startup.Up? {
      ShutdownCalls(w1, Initiated, StoreFlag, OrderOf(w, script, true), script, ServeStopCtx(script));
    }
  }

  /** The same for Start followed by Stop, and for a Start that fails. */
  lemma StartAndStopCall(bindings: seq<Served>, script: Script)
    ensures var w := NewWorld(bindings);
            var (w1, startup) := Launch(w, script, false);
            if startup.Up? then
              RunCalled(w1, WhileUp(w1, script),
                        BeforePassed(w1, StoreFlag, Initiated, script, Enriched(StopCaller)),
                        Stop(WhileUp(w1, script), OrderOf(w, script, false), script).0)
            else NoneCalled(w1)
  {
    FirstLaunchCalls(bindings, script, false);
    var w := NewWorld(bindings);
    var (w1, startup) := Launch(w, script, false);
    if startup.Up? {
      ShutdownCalls(w1, StoreFlag, Initiated, OrderOf(w, script, false), script, Enriched(StopCaller));
    }
  }
}
