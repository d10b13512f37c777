/** One small automaton for every trace of the lifecycle: Start, Stop, Serve and all the
    failed startups. It is stated on its own, from the order of effects the documentation
    promises; the traces of module Lifecycle are then shown to be accepted by it. */
module LifecycleGrammar {
  import opened Basics
  import opened Lifecycle
  import C = Cleaners

  /** What a run is expected to use: the bindings in Add order and whether they can be listed,
      whether it is Serve that lists them, whether OnStart has a timeout, and the contexts of
      startup, of the shutdown after a failed startup, and of a normal shutdown. */
  datatype Plan = Plan(
    order: seq<Served>, ordered: bool, serving: bool, timed: bool, startCtx: Ctx, failCtx: Ctx, stopCtx: Ctx)

  datatype Mode =
    | Idle
    | Announced
    | InOnStart
    | Open(k: nat)                     // the first k bindings are open
    | Listened(k: nat)                 // binding k is being opened
    | Spawned(k: nat)
    | Probing(k: nat)
    | Greeted                          // start timeout cancelled after the callbacks
    | Refused                          // startup failed before any, and is yet to say so
    | Failing(k: nat)                  // startup failed with k bindings open
    | Running
    | Warned                           // shutdown announced, flag not stored yet
    | Flagged                          // flag stored, shutdown not announced yet
    | Draining                         // before-shutdown callbacks
    | Closing(k: nat, normal: bool)    // the bindings from k on are shut down
    | Stopping(normal: bool)           // in or after OnStop
    | Sweeping(normal: bool)           // in or after Clean
    | Finished
    | Stuck

  /** `armed`: a start timeout is pending. `got`: how far the bindings have come. */
  datatype State = State(mode: Mode, armed: bool, got: Progress)

  const INIT := State(Idle, false, NO_PROGRESS)

  /** The binding to shut down next when those from k on are done: the last http one below. */
  function NextHttp(order: seq<Served>, k: nat): (r: Option<nat>)
    requires k <= |order|
    ensures r.Some? ==> r.value < k && order[r.value].http && forall j :: r.value < j < k ==> !order[j].http
    ensures r.None? ==> forall j :: 0 <= j < k ==> !order[j].http
    decreases k
  {
    if k == 0 then None else if order[k - 1].http then Some(k - 1) else NextHttp(order, k - 1)
  }

  /** User code may add cleaners, and may run the Cleaner itself. */
  predicate Noise(e: Event) {
    e.CleanerAdded? || e.UserCleaning?
  }

  predicate UserTime(p: Plan, m: Mode) {
    m.InOnStart? || m.Running? || (m.Open? && m.k == |p.order|) || m.Draining? || m.Stopping?
  }

  /** A mode from which the bindings below m.0 remain to be shut down. */
  function ToClose(p: Plan, m: Mode): Option<(nat, bool)> {
    match m
    case Draining => Some((|p.order|, true))
    case Closing(k, normal) => if k <= |p.order| then Some((k, normal)) else None
    case _ => None
  }

  function TeardownCtx(p: Plan, normal: bool): Ctx {
    if normal then p.stopCtx else p.failCtx
  }

  function NextMode(p: Plan, s: State, e: Event): Mode {
    var n := |p.order|;
    var m := s.mode;
    if Noise(e) then if UserTime(p, m) then m else Stuck
    else
      match e
      case Starting => if m.Idle? then Announced else Stuck
      case StartTimeoutSet => if m.Announced? && p.timed && !s.armed then Announced else Stuck
      case OnStart(ctx) => if m.Announced? && s.armed == p.timed && ctx == p.startCtx then InOnStart else Stuck
      case OnStartReturned => if m.InOnStart? then Open(0) else Stuck
      case OnStartFailed => if m.InOnStart? then Refused else Stuck
      case OrderFailed =>
        if m == Open(0) && !p.ordered then if p.serving then Refused else Failing(0) else Stuck
      case StartErrorLogged => if m.Refused? && !s.armed then Failing(0) else Stuck
      case Listen(name) => if m.Open? && m.k < n && p.order[m.k].name == name then Listened(m.k) else Stuck
      case ListenFailed(name) =>
        if m.Listened? && m.k < n && p.order[m.k].name == name then Failing(m.k) else Stuck
      case Spawn(name) =>
        if m.Listened? && m.k < n && p.order[m.k].name == name then Spawned(m.k) else Stuck
      case Listening(name) =>
        if m.Spawned? && m.k < n && p.order[m.k].name == name then Probing(m.k) else Stuck
      case Opened(name) =>
        if m.Probing? && m.k < n && p.order[m.k].name == name then Open(m.k + 1) else Stuck
      case ProbeFailed(name) =>
        if m.Probing? && m.k < n && p.order[m.k].name == name then Failing(m.k) else Stuck
      case StartTimeoutCancelled =>
        if !s.armed then Stuck
        else if m.Failing? || m.Refused? then m
        else if m == Open(n) then Greeted
        else Stuck
      case Callback(phase, _, ctx) =>
        if phase.OnListenReady? && p.ordered && m == Open(n) && ctx == p.startCtx then m
        else if phase.BeforeShutdown? && m.Draining? && ctx == p.stopCtx then m
        else Stuck
      case CallbackPanicked(phase) =>
        if phase.OnListenReady? && m == Open(n) then m
        else if phase.BeforeShutdown? && m.Draining? then m
        else Stuck
      case Ready => if (m == Open(n) || m.Greeted?) && !s.armed then Running else Stuck
      case Initiated => if m.Running? then Warned else if m.Flagged? then Draining else Stuck
      case StoreFlag =>
        if m.Running? then Flagged
        else if m.Warned? then Draining
        else if m.Failing? && !s.armed && m.k <= n then Closing(m.k, false)
        else Stuck
      case Shutdown(name, ctx) =>
        var c := ToClose(p, m);
        if c.None? then Stuck
        else
          var j := NextHttp(p.order, c.value.0);
          if j.Some? && p.order[j.value].name == name && ctx == TeardownCtx(p, c.value.1)
          then Closing(j.value, c.value.1) else Stuck
      case ShutdownFailed(name) => if m.Closing? && m.k < n && p.order[m.k].name == name then m else Stuck
      case ShutdownPanicked(name) => if m.Closing? && m.k < n && p.order[m.k].name == name then m else Stuck
      case OnStop(ctx) =>
        var c := ToClose(p, m);
        if c.Some? && NextHttp(p.order, c.value.0).None? && ctx == TeardownCtx(p, c.value.1)
        then Stopping(c.value.1) else Stuck
      case OnStopFailed => if m.Stopping? then m else Stuck
      case OnStopPanicked => if m.Stopping? then m else Stuck
      case Clean(ctx) => if m.Stopping? && ctx == TeardownCtx(p, m.normal) then Sweeping(m.normal) else Stuck
      case CleanFailed => if m.Sweeping? then m else Stuck
      case Cleaning(_) => if m.Sweeping? then m else Stuck
      case Stopped => if m == Sweeping(true) then Finished else Stuck
  }

  function NextProgress(g: Progress, e: Event): Progress {
    match e
    case Listen(_) => g.(listened := g.listened + 1)
    case Spawn(_) => g.(spawned := g.spawned + 1)
    case Opened(_) => g.(opens := g.opens + 1)
    case _ => g
  }

  function Next(p: Plan, s: State, e: Event): State {
    State(NextMode(p, s, e),
          if e.StartTimeoutSet? then true else if e.StartTimeoutCancelled? then false else s.armed,
          NextProgress(s.got, e))
  }

  predicate StepsTo(p: Plan, trace: seq<Event>, states: seq<State>, i: nat)
    requires i < |trace| && |states| == |trace| + 1
  {
    states[i + 1] == Next(p, states[i], trace[i])
  }

  /** The states the automaton goes through on a trace. */
  predicate IsRun(p: Plan, trace: seq<Event>, states: seq<State>) {
    && |states| == |trace| + 1
    && states[0] == INIT
    && forall i :: 0 <= i < |trace| ==> StepsTo(p, trace, states, i)
  }

  lemma ExtendRun(p: Plan, trace: seq<Event>, states: seq<State>, e: Event)
    requires IsRun(p, trace, states)
    ensures IsRun(p, trace + [e], states + [Next(p, states[|trace|], e)])
  {
    var t, ss := trace + [e], states + [Next(p, states[|trace|], e)];
    forall i | 0 <= i < |t| ensures StepsTo(p, t, ss, i) {
      if i < |trace| {
        assert StepsTo(p, trace, states, i);
      }
    }
  }

  lemma {:induction false} RunExists(p: Plan, trace: seq<Event>)
    ensures exists states :: IsRun(p, trace, states)
  {
    if trace == [] {
      assert IsRun(p, trace, [INIT]);
    } else {
      var init, e := trace[..|trace| - 1], trace[|trace| - 1];
      RunExists(p, init);
      var ss :| IsRun(p, init, ss);
      ExtendRun(p, init, ss, e);
      assert init + [e] == trace;
    }
  }

  lemma {:induction false} RunIsUnique(p: Plan, trace: seq<Event>, a: seq<State>, b: seq<State>, i: nat)
    requires IsRun(p, trace, a) && IsRun(p, trace, b) && i <= |trace|
    ensures a[i] == b[i]
  {
    if i > 0 {
      RunIsUnique(p, trace, a, b, i - 1);
      assert StepsTo(p, trace, a, i - 1) && StepsTo(p, trace, b, i - 1);
    }
  }

  /** Where the automaton is after a trace. */
  ghost function Parse(p: Plan, trace: seq<Event>): State {
    RunExists(p, trace);
    var states :| IsRun(p, trace, states);
    states[|trace|]
  }

  lemma ParseIsRun(p: Plan, trace: seq<Event>, states: seq<State>)
    requires IsRun(p, trace, states)
    ensures Parse(p, trace) == states[|trace|]
  {
    var ss :| IsRun(p, trace, ss) && Parse(p, trace) == ss[|trace|];
    RunIsUnique(p, trace, ss, states, |trace|);
  }

  lemma ParseEmpty(p: Plan)
    ensures Parse(p, []) == INIT
  {
    ParseIsRun(p, [], [INIT]);
  }

  lemma ParseEmit(p: Plan, trace: seq<Event>, e: Event)
    ensures Parse(p, trace + [e]) == Next(p, Parse(p, trace), e)
  {
    RunExists(p, trace);
    var states :| IsRun(p, trace, states);
    ParseIsRun(p, trace, states);
    ExtendRun(p, trace, states, e);
    ParseIsRun(p, trace + [e], states + [Next(p, states[|trace|], e)]);
  }

  /** Events that leave the state alone. */
  lemma {:induction false} ParseStable(p: Plan, trace: seq<Event>, es: seq<Event>)
    requires forall e :: e in es ==> Next(p, Parse(p, trace), e) == Parse(p, trace)
    ensures Parse(p, trace + es) == Parse(p, trace)
  {
    if es == [] {
      assert trace + es == trace;
    } else {
      var init, e := es[..|es| - 1], es[|es| - 1];
      assert trace + es == (trace + init) + [e];
      ParseStable(p, trace, init);
      ParseEmit(p, trace + init, e);
    }
  }

  // ----- the pieces of a run -----

  lemma ActParses(p: Plan, w: World, a: Act)
    requires UserTime(p, Parse(p, w.trace).mode) && !ActPanics(w, a)
    ensures Parse(p, DoAct(w, a).trace) == Parse(p, w.trace)
  {
    match a
    case AddCleaner(fn) => ParseEmit(p, w.trace, CleanerAdded(fn.id));
    case CleanNow =>
      if !w.cleaner.Started() {
        ParseStable(p, w.trace, UserEvents(C.DrainEvents(w.cleaner.stack)));
      }
    case _ =>
  }

  lemma {:induction false} ActsParse(p: Plan, w: World, acts: seq<Act>)
    requires UserTime(p, Parse(p, w.trace).mode)
    ensures Parse(p, RunActs(w, acts).0.trace) == Parse(p, w.trace)
    decreases |acts|
  {
    if acts != [] && !ActPanics(w, acts[0]) {
      ActParses(p, w, acts[0]);
      ActsParse(p, DoAct(w, acts[0]), acts[1..]);
    }
  }

  /** The mode in which the callbacks of a phase run, and their context. */
  predicate CallbackTime(p: Plan, phase: Phase, m: Mode, ctx: Ctx) {
    match phase
    case OnListenReady => p.ordered && m == Open(|p.order|) && ctx == p.startCtx
    case BeforeShutdown => m.Draining? && ctx == p.stopCtx
  }

  lemma HookParses(p: Plan, w: World, phase: Phase, h: Hook, ctx: Ctx)
    requires CallbackTime(p, phase, Parse(p, w.trace).mode, ctx)
    ensures Parse(p, RunHook(w, phase, h, ctx).trace) == Parse(p, w.trace)
  {
    var w0 := w.Emit(Callback(phase, h.id, ctx));
    ParseEmit(p, w.trace, Callback(phase, h.id, ctx));
    ActsParse(p, w0, h.acts);
    ParseEmit(p, RunActs(w0, h.acts).0.trace, CallbackPanicked(phase));
  }

  lemma {:induction false} CallbacksParse(p: Plan, w: World, phase: Phase, i: nat, ctx: Ctx)
    requires i <= |w.Hooks(phase)|
    requires CallbackTime(p, phase, Parse(p, w.trace).mode, ctx)
    ensures Parse(p, RunCallbacks(w, phase, i, ctx).trace) == Parse(p, w.trace)
    decreases Weight(w.Hooks(phase)[i..])
  {
    if i < |w.Hooks(phase)| {
      RunHookAppends(w, phase, i, ctx, phase);
      HookParses(p, w, phase, w.Hooks(phase)[i], ctx);
      CallbacksParse(p, RunHook(w, phase, w.Hooks(phase)[i], ctx), phase, i + 1, ctx);
    }
  }

  lemma OpenOneParses(p: Plan, w: World, k: nat, script: Script)
    requires k < |p.order| && Parse(p, w.trace).mode == Open(k)
    ensures var (w1, ok) := OpenOne(w, p.order[k], script);
            var s := Parse(p, w.trace);
            var g := s.got;
            Parse(p, w1.trace) ==
              if ok then s.(mode := Open(k + 1), got := Progress(g.listened + 1, g.spawned + 1, g.opens + 1))
              else s.(mode := Failing(k),
                      got := Progress(g.listened + 1,
                                      if script.listens(p.order[k].name) then g.spawned + 1 else g.spawned,
                                      g.opens))
  {
    var name := p.order[k].name;
    var t1 := w.trace + [Listen(name)];
    ParseEmit(p, w.trace, Listen(name));
    ParseEmit(p, t1, ListenFailed(name));
    ParseEmit(p, t1, Spawn(name));
    var t2 := t1 + [Spawn(name)];
    ParseEmit(p, t2, Listening(name));
    ParseEmit(p, t2 + [Listening(name)], Opened(name));
    ParseEmit(p, t2 + [Listening(name)], ProbeFailed(name));
  }

  /** openBindings stops at the first binding that cannot be opened. */
  lemma {:induction false} OpenCount(w: World, order: seq<Served>, k: nat, script: Script)
    requires k <= |order|
    ensures OpenBindings(w, order, k, script).count == FirstFailure(order, k, script)
    decreases |order| - k
  {
    if k < |order| && ComesUp(order[k], script) {
      OpenCount(OpenOne(w, order[k], script).0, order, k + 1, script);
    }
  }

  lemma {:induction false} OpenParses(p: Plan, w: World, k: nat, script: Script)
    requires k <= |p.order| && Parse(p, w.trace).mode == Open(k) && Parse(p, w.trace).got == Progress(k, k, k)
    ensures var o, s := OpenBindings(w, p.order, k, script), Parse(p, w.trace);
            Parse(p, o.w.trace) ==
              State(if o.ok then Open(|p.order|) else Failing(o.count), s.armed, ProgressOf(p.order, o.count, script))
    decreases |p.order| - k
  {
    if k < |p.order| {
      OpenOneParses(p, w, k, script);
      var (w1, ok) := OpenOne(w, p.order[k], script);
      if ok {
        OpenParses(p, w1, k + 1, script);
      }
    }
  }

  /** The bindings from n on are closed: what remains is what remains below n. */
  predicate Closed(p: Plan, s: State, n: nat, normal: bool) {
    var c := ToClose(p, s.mode);
    && n <= |p.order|
    && c.Some? && (NextHttp(p.order, c.value.0), c.value.1) == (NextHttp(p.order, n), normal)
  }

  lemma ShutdownParses1(p: Plan, trace: seq<Event>, n: nat, normal: bool)
    requires 0 < n && Closed(p, Parse(p, trace), n, normal) && p.order[n - 1].http
    ensures Parse(p, trace + [Shutdown(p.order[n - 1].name, TeardownCtx(p, normal))])
         == Parse(p, trace).(mode := Closing(n - 1, normal))
  {
    assert NextHttp(p.order, n) == Some(n - 1);
    ParseEmit(p, trace, Shutdown(p.order[n - 1].name, TeardownCtx(p, normal)));
  }

  lemma ShutdownLogParses(p: Plan, trace: seq<Event>, e: Event)
    requires var m := Parse(p, trace).mode;
             && m.Closing? && m.k < |p.order|
             && e in {ShutdownFailed(p.order[m.k].name), ShutdownPanicked(p.order[m.k].name)}
    ensures Parse(p, trace + [e]) == Parse(p, trace)
  {
    ParseEmit(p, trace, e);
  }

  lemma CloseOneParses(p: Plan, w: World, n: nat, normal: bool, script: Script, ctx: Ctx)
    requires 0 < n && ctx == TeardownCtx(p, normal) && Closed(p, Parse(p, w.trace), n, normal)
    ensures var w1 := ShutdownBinding(w, p.order[n - 1], script, ctx).0;
            var s, s1 := Parse(p, w.trace), Parse(p, w1.trace);
            Closed(p, s1, n - 1, normal) && s1 == s.(mode := s1.mode)
  {
    var b := p.order[n - 1];
    if b.http {
      ShutdownParses1(p, w.trace, n, normal);
      var t1 := w.trace + [Shutdown(b.name, ctx)];
      match script.closes(b.name) {
        case Drained =>
        case Failed(_) => ShutdownLogParses(p, t1, ShutdownFailed(b.name));
        case Threw => ShutdownLogParses(p, t1, ShutdownPanicked(b.name));
      }
    }
  }

  lemma {:induction false} CloseParses(p: Plan, w: World, n: nat, normal: bool, script: Script, ctx: Ctx)
    requires ctx == TeardownCtx(p, normal) && Closed(p, Parse(p, w.trace), n, normal)
    ensures var s, s1 := Parse(p, w.trace), Parse(p, CloseBindings(w, p.order, n, script, ctx).0.trace);
            Closed(p, s1, 0, normal) && s1 == s.(mode := s1.mode)
    decreases n
  {
    if n > 0 {
      CloseOneParses(p, w, n, normal, script, ctx);
      CloseParses(p, ShutdownBinding(w, p.order[n - 1], script, ctx).0, n - 1, normal, script, ctx);
    }
  }

  lemma OnStopParses(p: Plan, w: World, normal: bool, script: Script, ctx: Ctx)
    requires ctx == TeardownCtx(p, normal) && Closed(p, Parse(p, w.trace), 0, normal)
    ensures var s := Parse(p, w.trace);
            Parse(p, CallOnStop(w, script, ctx).0.trace) == s.(mode := Stopping(normal))
  {
    ParseEmit(p, w.trace, OnStop(ctx));
    var w0 := w.Emit(OnStop(ctx));
    ActsParse(p, w0, script.onStop);
    var (w1, outcome) := RunActs(w0, script.onStop);
    ParseEmit(p, w1.trace, if outcome == Panicked then OnStopPanicked else OnStopFailed);
  }

  lemma SweepParses(p: Plan, trace: seq<Event>, es: seq<Event>)
    requires Parse(p, trace).mode.Sweeping?
    requires forall e :: e in es ==> e.CleanFailed? || e.Cleaning?
    ensures Parse(p, trace + es) == Parse(p, trace)
  {
    ParseStable(p, trace, es);
  }

  lemma CleanParses(p: Plan, w: World, normal: bool, ctx: Ctx)
    requires ctx == TeardownCtx(p, normal) && Parse(p, w.trace).mode == Stopping(normal)
    ensures var s := Parse(p, w.trace);
            Parse(p, CallClean(w, ctx).0.trace) == s.(mode := Sweeping(normal))
  {
    ParseEmit(p, w.trace, Clean(ctx));
    var t := w.trace + [Clean(ctx)];
    SweepParses(p, t, if w.cleaner.Started() then [CleanFailed] else CleanEvents(C.DrainEvents(w.cleaner.stack)));
  }

  /** The shutdown sequence, from the moment the bindings below n are all that is open. */
  lemma ShutdownParses(p: Plan, w: World, normal: bool, order: seq<Served>, n: nat, script: Script, ctx: Ctx)
    requires ctx == TeardownCtx(p, normal)
    requires order == p.order && n <= |order|
    requires Parse(p, w.trace).mode == if normal then Draining else Closing(n, false)
    requires normal ==> n == |order|
    ensures var s := Parse(p, w.trace);
            Parse(p, RunShutdown(w, normal, order, n, script, ctx).0.trace) == s.(mode := Sweeping(normal))
  {
    var w1 := if normal then RunCallbacks(w, BeforeShutdown, 0, ctx) else w;
    if normal {
      CallbacksParse(p, w, BeforeShutdown, 0, ctx);
    }
    CloseParses(p, w1, n, normal, script, ctx);
    var w2 := CloseBindings(w1, order, n, script, ctx).0;
    OnStopParses(p, w2, normal, script, ctx);
    CleanParses(p, CallOnStop(w2, script, ctx).0, normal, ctx);
  }

  // ----- the traces of Start, Stop and Serve -----

  function StartPlan(w: World, script: Script): Plan {
    Plan(OrderOf(w, script, false), script.ordered, false, false,
         StartCtx(script, false), FailCtx(script, false), Enriched(StopCaller))
  }

  function ServePlan(w: World, script: Script): Plan {
    Plan(OrderOf(w, script, true), script.ordered, true, TimesStart(script, true),
         StartCtx(script, true), FailCtx(script, true), ServeStopCtx(script))
  }

  /** Where a launch leaves the automaton. */
  function LaunchMode(startup: Startup): Mode {
    match startup
    case Up => Running
    case Aborted => Sweeping(false)
    case Rejected => Idle
    case Escaped => InOnStart
  }

  lemma AbortParses(p: Plan, w: World, order: seq<Served>, n: nat, script: Script, serving: bool)
    requires n <= |order| <= |p.order| && (order == p.order || (order == [] && n == 0))
    requires p.failCtx == FailCtx(script, serving)
    requires Parse(p, w.trace).mode == Failing(n) && !Parse(p, w.trace).armed
    ensures Parse(p, Abort(w, order, n, script, serving).trace) == Parse(p, w.trace).(mode := Sweeping(false))
  {
    ParseEmit(p, w.trace, StoreFlag);
    var w1 := w.Emit(StoreFlag);
    ShutdownParses(p, w1, false, p.order, n, script, p.failCtx);
    if order != p.order {
      assert RunShutdown(w1, false, order, n, script, p.failCtx)
          == RunShutdown(w1, false, p.order, n, script, p.failCtx);
    }
  }

  lemma CancelParses(p: Plan, w: World, script: Script, serving: bool)
    requires p.timed == TimesStart(script, serving) == Parse(p, w.trace).armed
    requires var m := Parse(p, w.trace).mode; m.Failing? || m.Refused? || m == Open(|p.order|)
    ensures var s, s1 := Parse(p, w.trace), Parse(p, Cancel(w, script, serving).trace);
            && !s1.armed && s1.got == s.got
            && (s1.mode == s.mode || (s.mode.Open? && s1.mode.Greeted?))
  {
    ParseEmit(p, w.trace, StartTimeoutCancelled);
  }

  /** A startup that fails before any binding is opened. */
  lemma GiveUpParses(p: Plan, w: World, logged: bool, script: Script, serving: bool)
    requires p.timed == TimesStart(script, serving) && p.failCtx == FailCtx(script, serving)
    requires Parse(p, w.trace) == State(if logged then Refused else Failing(0), p.timed, NO_PROGRESS)
    ensures Parse(p, GiveUp(w, logged, script, serving).trace) == State(Sweeping(false), false, NO_PROGRESS)
  {
    CancelParses(p, w, script, serving);
    var w1 := Cancel(w, script, serving);
    ParseEmit(p, w1.trace, StartErrorLogged);
    AbortParses(p, if logged then w1.Emit(StartErrorLogged) else w1, [], 0, script, serving);
  }

  lemma OpenAndGreetParses(p: Plan, w: World, script: Script, serving: bool)
    requires p.order == w.bindings && p.ordered && p.timed == TimesStart(script, serving)
    requires p.startCtx == StartCtx(script, serving) && p.failCtx == FailCtx(script, serving)
    requires Parse(p, w.trace) == State(Open(0), p.timed, NO_PROGRESS)
    ensures var (w', startup) := OpenAndGreet(w, script, serving);
            var count := FirstFailure(p.order, 0, script);
            && startup == (if count == |p.order| then Up else Aborted)
            && Parse(p, w'.trace) == State(LaunchMode(startup), false, ProgressOf(p.order, count, script))
  {
    OpenCount(w, p.order, 0, script);
    OpenParses(p, w, 0, script);
    var o := OpenBindings(w, p.order, 0, script);
    if o.ok {
      GreetParses(p, o.w, script, serving);
    } else {
      CancelParses(p, o.w, script, serving);
      AbortParses(p, Cancel(o.w, script, serving), p.order, o.count, script, serving);
    }
  }

  lemma GreetParses(p: Plan, w: World, script: Script, serving: bool)
    requires p.ordered && p.timed == TimesStart(script, serving) && p.startCtx == StartCtx(script, serving)
    requires Parse(p, w.trace).mode == Open(|p.order|) && Parse(p, w.trace).armed == p.timed
    ensures Parse(p, Greet(w, script, serving).trace) == State(Running, false, Parse(p, w.trace).got)
  {
    CallbacksParse(p, w, OnListenReady, 0, p.startCtx);
    var w1 := RunCallbacks(w, OnListenReady, 0, p.startCtx);
    CancelParses(p, w1, script, serving);
    ParseEmit(p, Cancel(w1, script, serving).trace, Ready);
  }

  lemma OnStartParses(p: Plan, w: World, script: Script, serving: bool)
    requires w.trace == [] && p.timed == TimesStart(script, serving) && p.startCtx == StartCtx(script, serving)
    ensures Parse(p, RunActs(BeforeOnStart(w, script, serving), script.onStart).0.trace)
         == State(InOnStart, p.timed, NO_PROGRESS)
  {
    var w1 := w.Emit(Starting);
    ParseEmpty(p);
    ParseEmit(p, w.trace, Starting);
    ParseEmit(p, w1.trace, StartTimeoutSet);
    var w2 := if p.timed then w1.Emit(StartTimeoutSet) else w1;
    ParseEmit(p, w2.trace, OnStart(p.startCtx));
    ActsParse(p, w2.Emit(OnStart(p.startCtx)), script.onStart);
  }

  lemma AfterOnStartParses(p: Plan, w: World, script: Script, serving: bool)
    requires p.order == w.bindings && p.ordered == script.ordered && p.timed == TimesStart(script, serving)
    requires p.serving == serving && p.startCtx == StartCtx(script, serving) && p.failCtx == FailCtx(script, serving)
    requires Parse(p, w.trace) == State(InOnStart, p.timed, NO_PROGRESS)
    ensures var (w', startup) := AfterOnStart(w, script, serving);
            var begins := script.startError.None? && script.ordered;
            var count := FirstFailure(p.order, 0, script);
            && startup == (if begins && count == |p.order| then Up else Aborted)
            && Parse(p, w'.trace)
                == State(LaunchMode(startup), false, if begins then ProgressOf(p.order, count, script) else NO_PROGRESS)
  {
    ParseEmit(p, w.trace, OnStartFailed);
    ParseEmit(p, w.trace, OnStartReturned);
    ParseEmit(p, w.trace + [OnStartReturned], OrderFailed);
    if script.startError.Some? {
      GiveUpParses(p, w.Emit(OnStartFailed), true, script, serving);
    } else if !script.ordered {
      GiveUpParses(p, w.Emit(OnStartReturned).Emit(OrderFailed), serving, script, serving);
    } else {
      OpenAndGreetParses(p, w.Emit(OnStartReturned), script, serving);
    }
  }

  /** How far a launch gets: up to the first binding that fails, once OnStart and the listing
      of the bindings have succeeded. */
  function LaunchProgress(w: World, script: Script, serving: bool): Progress {
    var order := OrderOf(w, script, serving);
    if Begins(w, script, serving) then ProgressOf(order, FirstFailure(order, 0, script), script) else NO_PROGRESS
  }

  lemma LaunchParses(p: Plan, w: World, script: Script, serving: bool)
    requires w.trace == []
    requires p.order == OrderOf(w, script, serving) && p.ordered == script.ordered
    requires p.serving == serving && p.timed == TimesStart(script, serving)
    requires p.startCtx == StartCtx(script, serving) && p.failCtx == FailCtx(script, serving)
    ensures var (w1, startup) := Launch(w, script, serving);
            var s := Parse(p, w1.trace);
            && s.mode == LaunchMode(startup)
            && s.got == LaunchProgress(w, script, serving)
            && (!startup.Escaped? ==> !s.armed)
            && (startup.Up? <==> Begins(w, script, serving) && s.got.opens == |p.order|)
  {
    ParseEmpty(p);
    OnStartParses(p, w, script, serving);
    var (w1, outcome) := RunActs(BeforeOnStart(w, script, serving), script.onStart);
    if outcome == Returned {
      AfterOnStartParses(p, w1, script, serving);
    }
  }

  lemma StopParses(p: Plan, w: World, script: Script)
    requires Parse(p, w.trace).mode == Draining
    ensures var w' := RunShutdown(w, true, p.order, |p.order|, script, p.stopCtx).0.Emit(Stopped);
            Parse(p, w'.trace) == Parse(p, w.trace).(mode := Finished)
  {
    ShutdownParses(p, w, true, p.order, |p.order|, script, p.stopCtx);
    ParseEmit(p, RunShutdown(w, true, p.order, |p.order|, script, p.stopCtx).0.trace, Stopped);
  }

  /** A daemon that is up is stopped, by Serve and by Instance.Stop. */
  lemma UpParses(p: Plan, w: World, script: Script)
    requires Parse(p, w.trace).mode == Running
    ensures p.stopCtx == ServeStopCtx(script) ==>
              Parse(p, StopServing(WhileUp(w, script), p.order, script).trace) == Parse(p, w.trace).(mode := Finished)
    ensures p.stopCtx == Enriched(StopCaller) ==>
              Parse(p, Stop(WhileUp(w, script), p.order, script).0.trace) == Parse(p, w.trace).(mode := Finished)
  {
    ActsParse(p, w, script.running);
    var up := WhileUp(w, script);
    StopBegins(p, up.trace);
    StopParses(p, up.Emit(Initiated).Emit(StoreFlag), script);
    StopParses(p, up.Emit(StoreFlag).Emit(Initiated), script);
  }

  lemma StopBegins(p: Plan, trace: seq<Event>)
    requires Parse(p, trace).mode == Running
    ensures Parse(p, trace + [Initiated] + [StoreFlag]) == Parse(p, trace).(mode := Draining)
    ensures Parse(p, trace + [StoreFlag] + [Initiated]) == Parse(p, trace).(mode := Draining)
  {
    ParseEmit(p, trace, Initiated);
    ParseEmit(p, trace + [Initiated], StoreFlag);
    ParseEmit(p, trace, StoreFlag);
    ParseEmit(p, trace + [StoreFlag], Initiated);
  }

  // ----- main results -----

  /** Every run of Serve is accepted. It comes to the end of a normal shutdown exactly when it
      returns success, and to the end of the shutdown of a failed startup, or to a refusal
      before OnStart, when it returns failure; it returns nothing only if OnStart's panic
      escapes, and then nothing at all is torn down. */
  lemma ServeIsAccepted(bindings: seq<Served>, script: Script)
    ensures var w := NewWorld(bindings);
            var (w', exit) := Serve(w, script);
            var s := Parse(ServePlan(w, script), w'.trace);
            && (exit == Some(EXIT_SUCCESS) <==> s.mode == Finished)
            && (exit == Some(EXIT_FAILURE) <==> s.mode == Sweeping(false) || s.mode == Idle)
            && (exit == None <==> s.mode == InOnStart)
            && (exit.Some? ==> !s.armed)
            && s.got == LaunchProgress(w, script, true)
  {
    var w := NewWorld(bindings);
    var p := ServePlan(w, script);
    LaunchParses(p, w, script, true);
    var (w1, startup) := Launch(w, script, true);
    if startup.Up? {
      UpParses(p, w1, script);
    }
  }

  /** Every Start is accepted, and so is the Stop that follows it. */
  lemma StartAndStopAreAccepted(bindings: seq<Served>, script: Script)
    ensures var w := NewWorld(bindings);
            var (w1, startup) := Launch(w, script, false);
            var p := StartPlan(w, script);
            && Parse(p, w1.trace).mode == LaunchMode(startup)
            && (startup.Up? ==> Parse(p, Stop(WhileUp(w1, script), p.order, script).0.trace).mode == Finished)
  {
    var w := NewWorld(bindings);
    var p := StartPlan(w, script);
    LaunchParses(p, w, script, false);
    var (w1, startup) := Launch(w, script, false);
    if startup.Up? {
      UpParses(p, w1, script);
    }
  }
}
