/** Conservation over whole runs of module Lifecycle: every cleaner function that was accepted
    runs once, in LIFO order; the error a shutdown returns is exactly what it logged; binding
    names stay distinct. */
module ShutdownLaws {
  import opened Basics
  import opened Lifecycle
  import opened CallbackLaws
  import C = Cleaners

  // ----- the Cleaner, over a trace -----

  function AddedBy(e: Event): seq<nat> {
    if e.CleanerAdded? then [e.id] else []
  }

  function RanBy(e: Event): seq<nat> {
    if (e.Cleaning? || e.UserCleaning?) && e.e.Invoked? then [e.e.id] else []
  }

  function Added(trace: seq<Event>): seq<nat> {
    Collect(trace, AddedBy)
  }

  /** The cleaner functions that have run, whoever called Clean. */
  function Ran(trace: seq<Event>): seq<nat> {
    Collect(trace, RanBy)
  }

  lemma {:induction false} EmitDrain(trace: seq<Event>, es: seq<C.Event>, user: bool)
    ensures var t := trace + if user then UserEvents(es) else CleanEvents(es);
            Added(t) == Added(trace) && Ran(t) == Ran(trace) + C.Invocations(es)
  {
    var tail := if user then UserEvents(es) else CleanEvents(es);
    CollectConcat(trace, tail, AddedBy);
    CollectConcat(trace, tail, RanBy);
    CollectNothing(tail, AddedBy);
    DrainRuns(es, user);
  }

  lemma {:induction false} DrainRuns(es: seq<C.Event>, user: bool)
    ensures Ran(if user then UserEvents(es) else CleanEvents(es)) == C.Invocations(es)
  {
    if es != [] {
      var init, e := es[..|es| - 1], es[|es| - 1];
      var before := if user then UserEvents(init) else CleanEvents(init);
      var last := if user then UserCleaning(e) else Cleaning(e);
      DrainRuns(init, user);
      CollectEmit(before, RanBy, last);
      CollectEmit(init, C.InvokedBy, e);
      assert es == init + [e];
      assert (if user then UserEvents(es) else CleanEvents(es)) == before + [last];
    }
  }

  /** Until a Clean starts nothing has run and the stack is what was added; from then on all
      that was added has run, latest first, and nothing more is accepted. */
  predicate CleanerFacts(w: World) {
    || (w.cleaner == C.State([], false, true) && Ran(w.trace) == Reverse(Added(w.trace)))
    || (!w.cleaner.Started() && Ran(w.trace) == [] && Added(w.trace) == C.Ids(w.cleaner.stack))
  }

  lemma Unrelated(w: World, e: Event)
    requires CleanerFacts(w) && !e.CleanerAdded? && !e.Cleaning? && !e.UserCleaning?
    ensures CleanerFacts(w.Emit(e))
  {
    CollectEmit(w.trace, AddedBy, e);
    CollectEmit(w.trace, RanBy, e);
  }

  lemma DrainFacts(w: World, user: bool)
    requires CleanerFacts(w) && !w.cleaner.Started()
    ensures var es := C.DrainEvents(w.cleaner.stack);
            CleanerFacts(w.(cleaner := CLEANED_UP).EmitAll(if user then UserEvents(es) else CleanEvents(es)))
  {
    C.DrainIsLifo(w.cleaner.stack);
    EmitDrain(w.trace, C.DrainEvents(w.cleaner.stack), user);
  }

  lemma {:induction false} ActsKeepCleaner(w: World, acts: seq<Act>)
    requires CleanerFacts(w)
    ensures CleanerFacts(RunActs(w, acts).0)
    decreases |acts|
  {
    if acts != [] && !ActPanics(w, acts[0]) {
      match acts[0] {
        case AddCleaner(fn) =>
          CollectEmit(w.trace, AddedBy, CleanerAdded(fn.id));
          CollectEmit(w.trace, RanBy, CleanerAdded(fn.id));
          assert C.Ids(w.cleaner.stack + [fn]) == C.Ids(w.cleaner.stack) + [fn.id];
        case CleanNow =>
          if !w.cleaner.Started() {
            DrainFacts(w, true);
          }
        case _ =>
      }
      ActsKeepCleaner(DoAct(w, acts[0]), acts[1..]);
    }
  }

  lemma HookKeepsCleaner(w: World, phase: Phase, h: Hook, ctx: Ctx)
    requires CleanerFacts(w)
    ensures CleanerFacts(RunHook(w, phase, h, ctx))
  {
    var w0 := w.Emit(Callback(phase, h.id, ctx));
    Unrelated(w, Callback(phase, h.id, ctx));
    ActsKeepCleaner(w0, h.acts);
    Unrelated(RunActs(w0, h.acts).0, CallbackPanicked(phase));
  }

  lemma {:induction false} CallbacksKeepCleaner(w: World, phase: Phase, i: nat, ctx: Ctx)
    requires i <= |w.Hooks(phase)| && CleanerFacts(w)
    ensures CleanerFacts(RunCallbacks(w, phase, i, ctx))
    decreases Weight(w.Hooks(phase)[i..])
  {
    if i < |w.Hooks(phase)| {
      RunHookAppends(w, phase, i, ctx, phase);
      HookKeepsCleaner(w, phase, w.Hooks(phase)[i], ctx);
      CallbacksKeepCleaner(RunHook(w, phase, w.Hooks(phase)[i], ctx), phase, i + 1, ctx);
    }
  }

  lemma {:induction false} OpenKeepsCleaner(w: World, order: seq<Served>, k: nat, script: Script)
    requires k <= |order| && CleanerFacts(w)
    ensures CleanerFacts(OpenBindings(w, order, k, script).w)
    decreases |order| - k
  {
    if k < |order| {
      OpenOneKeepsCleaner(w, order[k], script);
      var (w1, ok) := OpenOne(w, order[k], script);
      if ok {
        OpenKeepsCleaner(w1, order, k + 1, script);
      }
    }
  }

  lemma OpenOneKeepsCleaner(w: World, b: Served, script: Script)
    requires CleanerFacts(w)
    ensures CleanerFacts(OpenOne(w, b, script).0)
  {
    Unrelated(w, Listen(b.name));
    var w1 := w.Emit(Listen(b.name));
    if !script.listens(b.name) {
      Unrelated(w1, ListenFailed(b.name));
    } else {
      Unrelated(w1, Spawn(b.name));
      var w2 := w1.Emit(Spawn(b.name));
      Unrelated(w2, Listening(b.name));
      Unrelated(w2.Emit(Listening(b.name)), if script.answers(b.name) then Opened(b.name) else ProbeFailed(b.name));
    }
  }

  lemma {:induction false} CloseKeepsCleaner(w: World, order: seq<Served>, n: nat, script: Script, ctx: Ctx)
    requires n <= |order| && CleanerFacts(w)
    ensures CleanerFacts(CloseBindings(w, order, n, script, ctx).0)
    decreases n
  {
    if n > 0 {
      var b := order[n - 1];
      Unrelated(w, Shutdown(b.name, ctx));
      Unrelated(w.Emit(Shutdown(b.name, ctx)),
                if script.closes(b.name).Failed? then ShutdownFailed(b.name) else ShutdownPanicked(b.name));
      CloseKeepsCleaner(ShutdownBinding(w, b, script, ctx).0, order, n - 1, script, ctx);
    }
  }

  lemma OnStopKeepsCleaner(w: World, script: Script, ctx: Ctx)
    requires CleanerFacts(w)
    ensures CleanerFacts(CallOnStop(w, script, ctx).0)
  {
    Unrelated(w, OnStop(ctx));
    ActsKeepCleaner(w.Emit(OnStop(ctx)), script.onStop);
    var (w1, outcome) := RunActs(w.Emit(OnStop(ctx)), script.onStop);
    Unrelated(w1, if outcome == Panicked then OnStopPanicked else OnStopFailed);
  }

  lemma CleanEmpties(w: World, ctx: Ctx)
    requires CleanerFacts(w)
    ensures var w' := CallClean(w, ctx).0; CleanerFacts(w') && w'.cleaner.Started()
  {
    Unrelated(w, Clean(ctx));
    var w1 := w.Emit(Clean(ctx));
    if w.cleaner.Started() {
      Unrelated(w1, CleanFailed);
    } else {
      DrainFacts(w1, false);
    }
  }

  /** A shutdown leaves nothing behind: after it every cleaner function ever accepted has run
      exactly once, latest first, even if a hook had called Clean itself. */
  lemma ShutdownCleansUp(w: World, normal: bool, order: seq<Served>, count: nat, script: Script, ctx: Ctx)
    requires count <= |order| && CleanerFacts(w)
    ensures var w' := RunShutdown(w, normal, order, count, script, ctx).0;
            CleanerFacts(w') && w'.cleaner.Started()
  {
    if normal {
      CallbacksKeepCleaner(w, BeforeShutdown, 0, ctx);
    }
    var w1 := if normal then RunCallbacks(w, BeforeShutdown, 0, ctx) else w;
    CloseKeepsCleaner(w1, order, count, script, ctx);
    var w2 := CloseBindings(w1, order, count, script, ctx).0;
    OnStopKeepsCleaner(w2, script, ctx);
    CleanEmpties(CallOnStop(w2, script, ctx).0, ctx);
  }

  lemma AbortCleansUp(w: World, order: seq<Served>, count: nat, script: Script, serving: bool)
    requires count <= |order| && CleanerFacts(w)
    ensures var w' := Abort(w, order, count, script, serving); CleanerFacts(w') && w'.cleaner.Started()
  {
    Unrelated(w, StoreFlag);
    ShutdownCleansUp(w.Emit(StoreFlag), false, order, count, script, FailCtx(script, serving));
  }

  lemma GiveUpCleansUp(w: World, logged: bool, script: Script, serving: bool)
    requires CleanerFacts(w)
    ensures var w' := GiveUp(w, logged, script, serving); CleanerFacts(w') && w'.cleaner.Started()
  {
    Unrelated(w, StartTimeoutCancelled);
    var w1 := Cancel(w, script, serving);
    Unrelated(w1, StartErrorLogged);
    AbortCleansUp(if logged then w1.Emit(StartErrorLogged) else w1, [], 0, script, serving);
  }

  lemma OpenAndGreetKeepsCleaner(w: World, script: Script, serving: bool)
    requires CleanerFacts(w)
    ensures var (w', startup) := OpenAndGreet(w, script, serving);
            CleanerFacts(w') && (startup.Aborted? ==> w'.cleaner.Started())
  {
    OpenKeepsCleaner(w, w.bindings, 0, script);
    var o := OpenBindings(w, w.bindings, 0, script);
    if o.ok {
      CallbacksKeepCleaner(o.w, OnListenReady, 0, StartCtx(script, serving));
      var w1 := RunCallbacks(o.w, OnListenReady, 0, StartCtx(script, serving));
      Unrelated(w1, StartTimeoutCancelled);
      Unrelated(Cancel(w1, script, serving), Ready);
    } else {
      Unrelated(o.w, StartTimeoutCancelled);
      AbortCleansUp(Cancel(o.w, script, serving), w.bindings, o.count, script, serving);
    }
  }

  lemma AfterOnStartKeepsCleaner(w: World, script: Script, serving: bool)
    requires CleanerFacts(w)
    ensures var (w', startup) := AfterOnStart(w, script, serving);
            CleanerFacts(w') && (startup.Aborted? ==> w'.cleaner.Started())
  {
    Unrelated(w, OnStartFailed);
    Unrelated(w, OnStartReturned);
    Unrelated(w.Emit(OnStartReturned), OrderFailed);
    if script.startError.Some? {
      GiveUpCleansUp(w.Emit(OnStartFailed), true, script, serving);
    } else if !script.ordered {
      GiveUpCleansUp(w.Emit(OnStartReturned).Emit(OrderFailed), serving, script, serving);
    } else {
      OpenAndGreetKeepsCleaner(w.Emit(OnStartReturned), script, serving);
    }
  }

  lemma StartingKeepsCleaner(w: World, script: Script, serving: bool)
    requires CleanerFacts(w)
    ensures CleanerFacts(BeforeOnStart(w, script, serving))
  {
    Unrelated(w, Starting);
    var w1 := w.Emit(Starting);
    Unrelated(w1, StartTimeoutSet);
    Unrelated(if TimesStart(script, serving) then w1.Emit(StartTimeoutSet) else w1, OnStart(StartCtx(script, serving)));
  }

  lemma LaunchKeepsCleaner(bindings: seq<Served>, script: Script, serving: bool)
    ensures var (w', startup) := Launch(NewWorld(bindings), script, serving);
            CleanerFacts(w') && (startup.Aborted? ==> w'.cleaner.Started())
  {
    var w := NewWorld(bindings);
    assert CleanerFacts(w);
    StartingKeepsCleaner(w, script, serving);
    var w2 := BeforeOnStart(w, script, serving);
    ActsKeepCleaner(w2, script.onStart);
    AfterOnStartKeepsCleaner(RunActs(w2, script.onStart).0, script, serving);
  }

  lemma StopCleansUp(w: World, e1: Event, e2: Event, order: seq<Served>, script: Script, ctx: Ctx)
    requires CleanerFacts(w) && e1 in {Initiated, StoreFlag} && e2 in {Initiated, StoreFlag}
    ensures var up := WhileUp(w, script);
            var w' := RunShutdown(up.Emit(e1).Emit(e2), true, order, |order|, script, ctx).0.Emit(Stopped);
            CleanerFacts(w') && w'.cleaner.Started()
  {
    ActsKeepCleaner(w, script.running);
    var up := WhileUp(w, script);
    Unrelated(up, e1);
    Unrelated(up.Emit(e1), e2);
    ShutdownCleansUp(up.Emit(e1).Emit(e2), true, order, |order|, script, ctx);
    Unrelated(RunShutdown(up.Emit(e1).Emit(e2), true, order, |order|, script, ctx).0, Stopped);
  }

  /** When Serve returns, whether startup succeeded or not, the cleaner functions that ran are
      exactly those that were added, in the reverse order, each once. */
  lemma ServeRunsEveryCleaner(bindings: seq<Served>, script: Script)
    requires script.addressOk
    ensures var (w, exit) := Serve(NewWorld(bindings), script);
            exit.Some? ==> Ran(w.trace) == Reverse(Added(w.trace))
  {
    var w := NewWorld(bindings);
    LaunchKeepsCleaner(bindings, script, true);
    var (w1, startup) := Launch(w, script, true);
    if startup.Up? {
      StopCleansUp(w1, Initiated, StoreFlag, OrderOf(w, script, true), script, ServeStopCtx(script));
    }
  }

  /** The same for Start followed by Stop, and for a Start that fails. */
  lemma StopRunsEveryCleaner(bindings: seq<Served>, script: Script)
    ensures var w := NewWorld(bindings);
            var (w1, startup) := Launch(w, script, false);
            && (startup.Aborted? ==> Ran(w1.trace) == Reverse(Added(w1.trace)))
            && (startup.Up? ==>
                  var t := Stop(WhileUp(w1, script), OrderOf(w, script, false), script).0.trace;
                  Ran(t) == Reverse(Added(t)))
  {
    var w := NewWorld(bindings);
    LaunchKeepsCleaner(bindings, script, false);
    var (w1, startup) := Launch(w, script, false);
    if startup.Up? {
      StopCleansUp(w1, StoreFlag, Initiated, OrderOf(w, script, false), script, Enriched(StopCaller));
    }
  }

  // ----- the error of a shutdown -----

  /** The errors of the servers, in Add order. */
  function ServerErrors(order: seq<Served>, script: Script): seq<Error> {
    if order == [] then []
    else
      var b := order[0];
      var c := script.closes(b.name);
      (if b.http && c.Failed? then [ShutdownError(b.name, c.e)] else []) + ServerErrors(order[1..], script)
  }

  lemma {:induction false} ServerErrorsConcat(a: seq<Served>, b: seq<Served>, script: Script)
    ensures ServerErrors(a + b, script) == ServerErrors(a, script) + ServerErrors(b, script)
  {
    if a == [] {
      assert a + b == b;
    } else {
      assert (a + b)[0] == a[0] && (a + b)[1..] == a[1..] + b;
      ServerErrorsConcat(a[1..], b, script);
    }
  }

  lemma {:induction false} CloseErrors(w: World, order: seq<Served>, n: nat, script: Script, ctx: Ctx)
    requires n <= |order|
    ensures CloseBindings(w, order, n, script, ctx).1 == Reverse(ServerErrors(order[..n], script))
    decreases n
  {
    if n > 0 {
      var b := order[n - 1];
      var (w1, es) := ShutdownBinding(w, b, script, ctx);
      CloseErrors(w1, order, n - 1, script, ctx);
      assert order[..n] == order[..n - 1] + [b];
      ServerErrorsConcat(order[..n - 1], [b], script);
      assert [b][1..] == [];
      assert ServerErrors([b], script) == es;
      ReverseConcat(ServerErrors(order[..n - 1], script), es);
      assert Reverse(es) == es;
    }
  }

  /** The failures a trace shows, each as the error it stands for. Recovered panics and the
      errors of cleaner functions are no failures. */
  function Failures(trace: seq<Event>, script: Script): seq<Error> {
    Collect(trace, e => FailureOf(e, script))
  }

  function FailureOf(e: Event, script: Script): seq<Error> {
    match e
    case ShutdownFailed(name) =>
      if script.closes(name).Failed? then [ShutdownError(name, script.closes(name).e)] else []
    case OnStopFailed => if script.stopError.Some? then [OnStopError(script.stopError.value)] else []
    case CleanFailed => [DoubleClean]
    case _ => []
  }

  lemma FailuresEmit(trace: seq<Event>, e: Event, script: Script)
    ensures Failures(trace + [e], script) == Failures(trace, script) + FailureOf(e, script)
  {
    CollectEmit(trace, e => FailureOf(e, script), e);
  }

  lemma FailuresNone(trace: seq<Event>, es: seq<Event>, script: Script)
    requires forall e :: e in es ==> FailureOf(e, script) == []
    ensures Failures(trace + es, script) == Failures(trace, script)
  {
    CollectConcat(trace, es, e => FailureOf(e, script));
    CollectNothing(es, e => FailureOf(e, script));
  }

  lemma ActsFailNot(w: World, acts: seq<Act>, script: Script)
    ensures Failures(RunActs(w, acts).0.trace, script) == Failures(w.trace, script)
  {
    ActsCollectNothing(w, acts, e => FailureOf(e, script));
  }

  lemma {:induction false} CloseFailures(w: World, order: seq<Served>, n: nat, script: Script, ctx: Ctx)
    requires n <= |order|
    ensures var (w', es) := CloseBindings(w, order, n, script, ctx);
            Failures(w'.trace, script) == Failures(w.trace, script) + es
    decreases n
  {
    if n > 0 {
      var b := order[n - 1];
      CloseOneFailures(w, b, script, ctx);
      CloseFailures(ShutdownBinding(w, b, script, ctx).0, order, n - 1, script, ctx);
    }
  }

  lemma CloseOneFailures(w: World, b: Served, script: Script, ctx: Ctx)
    ensures var (w', es) := ShutdownBinding(w, b, script, ctx);
            Failures(w'.trace, script) == Failures(w.trace, script) + es
  {
    FailuresEmit(w.trace, Shutdown(b.name, ctx), script);
    var t := w.trace + [Shutdown(b.name, ctx)];
    FailuresEmit(t, ShutdownFailed(b.name), script);
    FailuresEmit(t, ShutdownPanicked(b.name), script);
  }

  lemma OnStopFailures(w: World, script: Script, ctx: Ctx)
    ensures var (w', es) := CallOnStop(w, script, ctx);
            Failures(w'.trace, script) == Failures(w.trace, script) + es
  {
    FailuresEmit(w.trace, OnStop(ctx), script);
    var w1 := RunActs(w.Emit(OnStop(ctx)), script.onStop).0;
    ActsFailNot(w.Emit(OnStop(ctx)), script.onStop, script);
    FailuresEmit(w1.trace, OnStopPanicked, script);
    FailuresEmit(w1.trace, OnStopFailed, script);
  }

  lemma CleanFailures(w: World, script: Script, ctx: Ctx)
    ensures var (w', es) := CallClean(w, ctx);
            Failures(w'.trace, script) == Failures(w.trace, script) + es
  {
    FailuresEmit(w.trace, Clean(ctx), script);
    var t := w.trace + [Clean(ctx)];
    if w.cleaner.Started() {
      FailuresEmit(t, CleanFailed, script);
      assert CallClean(w, ctx).0.trace == t + [CleanFailed];
    } else {
      var es := C.DrainEvents(w.cleaner.stack);
      DrainFailsNot(t, es, script);
      assert CallClean(w, ctx).0.trace == t + CleanEvents(es);
    }
  }

  lemma DrainFailsNot(trace: seq<Event>, es: seq<C.Event>, script: Script)
    ensures Failures(trace + CleanEvents(es), script) == Failures(trace, script)
  {
    FailuresNone(trace, CleanEvents(es), script);
  }

  /** The state of a shutdown when it calls OnStop. */
  function AtOnStop(w: World, normal: bool, order: seq<Served>, count: nat, script: Script, ctx: Ctx): World
    requires count <= |order|
  {
    CloseBindings(if normal then RunCallbacks(w, BeforeShutdown, 0, ctx) else w, order, count, script, ctx).0
  }

  /** OnStop returns an error, rather than panicking. */
  predicate OnStopFails(w: World, script: Script, ctx: Ctx) {
    script.stopError.Some? && RunActs(w.Emit(OnStop(ctx)), script.onStop).1 == Returned
  }

  /** The error runShutdown returns joins exactly the failures it logged, in order; it begins
      with the server errors in reverse Add order, then has the OnStop error exactly if OnStop
      returned one, and then the complaint about a second Clean exactly if user code had
      cleaned already. */
  lemma ShutdownErrors(w: World, normal: bool, order: seq<Served>, count: nat, script: Script, ctx: Ctx)
    returns (stopping: seq<Error>, cleaning: seq<Error>)
    requires count <= |order|
    ensures var (w', errs) := RunShutdown(w, normal, order, count, script, ctx);
            && Failures(w'.trace, script) == Failures(w.trace, script) + errs
            && errs == Reverse(ServerErrors(order[..count], script)) + stopping + cleaning
    ensures var w2 := AtOnStop(w, normal, order, count, script, ctx);
            && stopping == (if OnStopFails(w2, script, ctx) then [OnStopError(script.stopError.value)] else [])
            && cleaning == (if CallOnStop(w2, script, ctx).0.cleaner.Started() then [DoubleClean] else [])
  {
    var w1 := if normal then RunCallbacks(w, BeforeShutdown, 0, ctx) else w;
    if normal {
      PassCollectsNothing(w, BeforeShutdown, 0, ctx, e => FailureOf(e, script));
    }
    CloseErrors(w1, order, count, script, ctx);
    CloseFailures(w1, order, count, script, ctx);
    var (w2, closing) := CloseBindings(w1, order, count, script, ctx);
    OnStopFailures(w2, script, ctx);
    var (w3, es) := CallOnStop(w2, script, ctx);
    CleanFailures(w3, script, ctx);
    stopping, cleaning := es, CallClean(w3, ctx).1;
    Regroup(Failures(w.trace, script), closing, stopping, cleaning);
  }

  /** What the first Stop returns when it finds the daemon in state w: the errors of the server
      shutdowns in reverse Add order, OnStop's error exactly if OnStop returned one, and the
      complaint about a second Clean exactly if user code had cleaned already. */
  ghost predicate StopReturns(w: World, order: seq<Served>, script: Script, errs: seq<Error>) {
    var ctx := Enriched(StopCaller);
    var atStop := AtOnStop(w.Emit(StoreFlag).Emit(Initiated), true, order, |order|, script, ctx);
    errs == Reverse(ServerErrors(order, script))
          + (if OnStopFails(atStop, script, ctx) then [OnStopError(script.stopError.value)] else [])
          + (if CallOnStop(atStop, script, ctx).0.cleaner.Started() then [DoubleClean] else [])
  }

  lemma StopErrors(w: World, order: seq<Served>, script: Script)
    ensures StopReturns(w, order, script, Stop(w, order, script).1)
  {
    var w1 := w.Emit(StoreFlag).Emit(Initiated);
    var stopping, cleaning := ShutdownErrors(w1, true, order, |order|, script, Enriched(StopCaller));
    assert order[..|order|] == order;
  }

  lemma FramedFailures(w: World, w1: World, w2: World, errs: seq<Error>, script: Script)
    requires w1.trace == w.trace + [StoreFlag] + [Initiated]
    requires Failures(w2.trace, script) == Failures(w1.trace, script) + errs
    ensures Failures(w2.Emit(Stopped).trace, script) == Failures(w.trace, script) + errs
  {
    FailuresNone(w.trace, [StoreFlag], script);
    FailuresNone(w.trace + [StoreFlag], [Initiated], script);
    FailuresNone(w2.trace, [Stopped], script);
  }

  /** Stop returns exactly the failures it logs. */
  lemma StopLogsErrors(w: World, order: seq<Served>, script: Script)
    ensures var (w', errs) := Stop(w, order, script);
            Failures(w'.trace, script) == Failures(w.trace, script) + errs
  {
    var w1, ctx := w.Emit(StoreFlag).Emit(Initiated), Enriched(StopCaller);
    var stopping, cleaning := ShutdownErrors(w1, true, order, |order|, script, ctx);
    var (w2, errs) := RunShutdown(w1, true, order, |order|, script, ctx);
    FramedFailures(w, w1, w2, errs, script);
  }

  lemma Regroup<T>(a: seq<T>, b: seq<T>, c: seq<T>, d: seq<T>)
    ensures (a + b) + c + d == a + (b + c + d)
  {
  }

  // ----- what a shutdown logs -----

  /** What a shutdown shows of its steps, the recovered panics included. */
  datatype Record =
    | Closing(name: string)
    | CloseFailed(name: string)
    | CloseThrew(name: string)
    | Stopping
    | StopFailed
    | StopThrew

  function RecordOf(e: Event): seq<Record> {
    match e
    case Shutdown(name, _) => [Closing(name)]
    case ShutdownFailed(name) => [CloseFailed(name)]
    case ShutdownPanicked(name) => [CloseThrew(name)]
    case OnStop(_) => [Stopping]
    case OnStopFailed => [StopFailed]
    case OnStopPanicked => [StopThrew]
    case _ => []
  }

  function Records(trace: seq<Event>): seq<Record> {
    Collect(trace, RecordOf)
  }

  function ServerRecords(b: Served, script: Script): seq<Record> {
    if !b.http then []
    else
      match script.closes(b.name)
      case Drained => [Closing(b.name)]
      case Failed(_) => [Closing(b.name), CloseFailed(b.name)]
      case Threw => [Closing(b.name), CloseThrew(b.name)]
  }

  /** The servers of the first n bindings, from the last to the first. */
  function CloseRecords(order: seq<Served>, n: nat, script: Script): seq<Record>
    requires n <= |order|
  {
    if n == 0 then [] else ServerRecords(order[n - 1], script) + CloseRecords(order, n - 1, script)
  }

  lemma {:induction false} CloseLogs(w: World, order: seq<Served>, n: nat, script: Script, ctx: Ctx)
    requires n <= |order|
    ensures Records(CloseBindings(w, order, n, script, ctx).0.trace)
         == Records(w.trace) + CloseRecords(order, n, script)
    decreases n
  {
    if n > 0 {
      var b := order[n - 1];
      var w1 := ShutdownBinding(w, b, script, ctx).0;
      var t := w.trace + [Shutdown(b.name, ctx)];
      CollectEmit(w.trace, RecordOf, Shutdown(b.name, ctx));
      CollectEmit(t, RecordOf, ShutdownFailed(b.name));
      CollectEmit(t, RecordOf, ShutdownPanicked(b.name));
      assert Records(w1.trace) == Records(w.trace) + ServerRecords(b, script);
      CloseLogs(w1, order, n - 1, script, ctx);
      Join(Records(w.trace), ServerRecords(b, script), CloseRecords(order, n - 1, script));
    }
  }

  lemma CleanLogs(w: World, ctx: Ctx)
    ensures Records(CallClean(w, ctx).0.trace) == Records(w.trace)
  {
    var t := w.trace + [Clean(ctx)];
    RecordsNone(w.trace, [Clean(ctx)]);
    if w.cleaner.Started() {
      RecordsNone(t, [CleanFailed]);
    } else {
      RecordsNone(t, CleanEvents(C.DrainEvents(w.cleaner.stack)));
    }
  }

  lemma RecordsNone(trace: seq<Event>, es: seq<Event>)
    requires forall e :: e in es ==> RecordOf(e) == []
    ensures Records(trace + es) == Records(trace)
  {
    CollectConcat(trace, es, RecordOf);
    CollectNothing(es, RecordOf);
  }

  lemma RecordsEmit(trace: seq<Event>, e: Event)
    ensures Records(trace + [e]) == Records(trace) + RecordOf(e)
  {
    CollectEmit(trace, RecordOf, e);
  }

  /** OnStop is called; its panic is logged, and so is its error if it returns one. */
  ghost function StopRecords(w: World, script: Script): seq<Record> {
    if Throws(w, script.onStop) then [Stopping, StopThrew]
    else if script.stopError.Some? then [Stopping, StopFailed]
    else [Stopping]
  }

  lemma OnStopLogs(w: World, script: Script, ctx: Ctx)
    ensures Records(CallOnStop(w, script, ctx).0.trace)
         == Records(w.trace) + StopRecords(w.Emit(OnStop(ctx)), script)
  {
    var w0 := w.Emit(OnStop(ctx));
    RecordsEmit(w.trace, OnStop(ctx));
    ActsCollectNothing(w0, script.onStop, RecordOf);
    ThrowsIff(w0, script.onStop);
    OnStopEnds(w, w0, RunActs(w0, script.onStop).0, script, ctx);
  }

  lemma OnStopEnds(w: World, w0: World, w1: World, script: Script, ctx: Ctx)
    requires w0 == w.Emit(OnStop(ctx)) && Records(w1.trace) == Records(w.trace) + [Stopping]
    requires (w1, if Throws(w0, script.onStop) then Panicked else Returned) == RunActs(w0, script.onStop)
    ensures Records(CallOnStop(w, script, ctx).0.trace) == Records(w.trace) + StopRecords(w0, script)
  {
    RecordsEmit(w1.trace, if Throws(w0, script.onStop) then OnStopPanicked else OnStopFailed);
  }

  /** Every server of a shutdown is told to shut down, then logged if it fails or panics, and
      OnStop follows whatever they do: no panic keeps it, or Clean, from being called. */
  lemma ShutdownLogs(w: World, normal: bool, order: seq<Served>, count: nat, script: Script, ctx: Ctx)
    requires count <= |order|
    ensures Records(RunShutdown(w, normal, order, count, script, ctx).0.trace)
         == Records(w.trace) + CloseRecords(order, count, script)
              + StopRecords(AtOnStop(w, normal, order, count, script, ctx).Emit(OnStop(ctx)), script)
  {
    var w1 := if normal then RunCallbacks(w, BeforeShutdown, 0, ctx) else w;
    if normal {
      PassCollectsNothing(w, BeforeShutdown, 0, ctx, RecordOf);
    }
    CloseLogs(w1, order, count, script, ctx);
    var w2 := CloseBindings(w1, order, count, script, ctx).0;
    OnStopLogs(w2, script, ctx);
    CleanLogs(CallOnStop(w2, script, ctx).0, ctx);
  }

  // ----- names -----

  ghost predicate DistinctNames(bindings: seq<Served>) {
    forall i, j :: 0 <= i < j < |bindings| ==> bindings[i].name != bindings[j].name
  }

  /** User code cannot make two bindings share a name, nor take a binding away. */
  lemma {:induction false} ActsKeepNamesDistinct(w: World, acts: seq<Act>)
    requires DistinctNames(w.bindings)
    ensures var w' := RunActs(w, acts).0; DistinctNames(w'.bindings) && w.bindings <= w'.bindings
    decreases |acts|
  {
    if acts != [] && !ActPanics(w, acts[0]) {
      ActsKeepNamesDistinct(DoAct(w, acts[0]), acts[1..]);
    }
  }
}
