/** Which context each hook and each step of the shutdown is given, and which events only a
    startup that succeeded can lead to. */
module LifecycleContexts {
  import opened Basics
  import opened Lifecycle
  import opened LifecycleFacts
  import opened LifecycleGrammar

  /** Where a context comes from, and the deadline put on it, if any. */
  function Root(c: Ctx): Ctx {
    match c
    case WithTimeout(parent, _) => Root(parent)
    case Enriched(parent) => Root(parent)
    case _ => c
  }

  function Deadline(c: Ctx): Option<int> {
    match c
    case WithTimeout(_, d) => Some(d)
    case Enriched(parent) => Deadline(parent)
    case _ => None
  }

  /** Whether the config, the secrets and the logger can be found in the context. */
  predicate Carries(c: Ctx) {
    match c
    case Enriched(_) => true
    case WithTimeout(parent, _) => Carries(parent)
    case _ => false
  }

  /** A timeout option takes effect only if it is positive. */
  function Positive(d: int): Option<int> {
    if d > 0 then Some(d) else None
  }

  /** Whether the automaton is in a shutdown, and then whether in a normal one. */
  function TearingDown(m: Mode): Option<bool> {
    match m
    case Draining => Some(true)
    case Closing(_, normal) => Some(normal)
    case Stopping(normal) => Some(normal)
    case Sweeping(normal) => Some(normal)
    case Finished => Some(true)
    case _ => None
  }

  predicate AllOpen(p: Plan, m: Mode) {
    p.ordered && (m == Open(|p.order|) || m.Greeted? || WasReady(m))
  }

  /** What it takes for e to be in a trace that has led to mode m. */
  predicate Fits(p: Plan, e: Event, m: Mode) {
    match e
    case OnStart(ctx) => ctx == p.startCtx
    case Callback(OnListenReady, _, ctx) => ctx == p.startCtx && AllOpen(p, m)
    case Callback(BeforeShutdown, _, ctx) => ctx == p.stopCtx && TearingDown(m) == Some(true)
    case Shutdown(_, ctx) => TearingDown(m).Some? && ctx == TeardownCtx(p, TearingDown(m).value)
    case OnStop(ctx) => TearingDown(m).Some? && ctx == TeardownCtx(p, TearingDown(m).value)
    case Clean(ctx) => TearingDown(m).Some? && ctx == TeardownCtx(p, TearingDown(m).value)
    case Stopped => m.Finished?
    case ShutdownFailed(_) => TearingDown(m).Some?
    case OnStopFailed => TearingDown(m).Some?
    case CleanFailed => TearingDown(m).Some?
    case _ => true
  }

  /** Once in a shutdown, always in that shutdown; once all is open, always so. */
  lemma ModesPersist(p: Plan, s: State, e: Event)
    requires !NextMode(p, s, e).Stuck?
    ensures TearingDown(s.mode).Some? ==> TearingDown(NextMode(p, s, e)) == TearingDown(s.mode)
    ensures AllOpen(p, s.mode) ==> AllOpen(p, NextMode(p, s, e))
    ensures !s.mode.Finished?
  {
  }

  lemma NewEventFits(p: Plan, s: State, e: Event)
    requires !NextMode(p, s, e).Stuck?
    ensures Fits(p, e, NextMode(p, s, e))
  {
  }

  lemma {:induction false} EventsFit(p: Plan, trace: seq<Event>)
    requires !Parse(p, trace).mode.Stuck?
    ensures forall e :: e in trace ==> Fits(p, e, Parse(p, trace).mode)
  {
    if trace != [] {
      var init, last := trace[..|trace| - 1], trace[|trace| - 1];
      assert trace == init + [last];
      ParseEmit(p, init, last);
      var s := Parse(p, init);
      if s.mode.Stuck? {
        NothingAfterStuck(p, s, last);
      }
      EventsFit(p, init);
      ModesPersist(p, s, last);
      NewEventFits(p, s, last);
      forall e | e in init ensures Fits(p, e, Parse(p, trace).mode) {
        StillFits(p, e, s.mode, Parse(p, trace).mode);
      }
    }
  }

  lemma StillFits(p: Plan, e: Event, m: Mode, m': Mode)
    requires Fits(p, e, m) && !m.Finished?
    requires TearingDown(m).Some? ==> TearingDown(m') == TearingDown(m)
    requires AllOpen(p, m) ==> AllOpen(p, m')
    ensures Fits(p, e, m')
  {
  }

  /** The event was given a context that carries the values, with this root and this deadline. */
  predicate Given(e: Event, root: Ctx, deadline: Option<int>) {
    (e.OnStart? || e.Callback? || e.Shutdown? || e.OnStop? || e.Clean?)
      ==> Carries(e.ctx) && (Root(e.ctx), Deadline(e.ctx)) == (root, deadline)
  }

  /** The contexts of a run: one for startup, another for teardown. */
  ghost predicate Contexts(trace: seq<Event>, startRoot: Ctx, startDeadline: Option<int>, stopRoot: Ctx,
                           stopDeadline: Option<int>) {
    forall e :: e in trace ==>
      if e.OnStart? || (e.Callback? && e.phase.OnListenReady?) then Given(e, startRoot, startDeadline)
      else Given(e, stopRoot, stopDeadline)
  }

  /** A startup that fails runs no callback and does not announce "daemon stopped". */
  ghost predicate QuietUnlessReady(trace: seq<Event>) {
    Ready !in trace ==> forall e :: e in trace ==> !e.Callback? && !e.Stopped?
  }

  lemma PlanContexts(p: Plan, trace: seq<Event>)
    requires var m := Parse(p, trace).mode; m.Finished? || (!m.Stuck? && p.failCtx == p.stopCtx)
    requires Carries(p.startCtx) && Carries(p.stopCtx)
    ensures Contexts(trace, Root(p.startCtx), Deadline(p.startCtx), Root(p.stopCtx), Deadline(p.stopCtx))
  {
    EventsFit(p, trace);
  }

  lemma FailureIsQuiet(p: Plan, trace: seq<Event>)
    requires var m := Parse(p, trace).mode; m == Sweeping(false) || m.Finished? || m.Idle? || m.InOnStart?
    ensures QuietUnlessReady(trace)
  {
    if Parse(p, trace).mode.Finished? {
      AcceptedReady(p, trace);
    } else {
      NotOpenIsQuiet(p, trace);
    }
  }

  lemma NotOpenIsQuiet(p: Plan, trace: seq<Event>)
    requires var m := Parse(p, trace).mode; m == Sweeping(false) || m.Idle? || m.InOnStart?
    ensures forall e :: e in trace ==> !e.Callback? && !e.Stopped?
  {
    EventsFit(p, trace);
    forall e | e in trace ensures !e.Callback? && !e.Stopped? {
      assert Fits(p, e, Parse(p, trace).mode);
    }
  }

  lemma RootsAndDeadlines(script: Script, serving: bool)
    ensures Carries(StartCtx(script, serving)) && Carries(ServeStopCtx(script))
    ensures Root(StartCtx(script, serving)) == Caller
    ensures Deadline(StartCtx(script, serving)) == if serving then Positive(script.onStartTimeout) else None
    ensures Root(ServeStopCtx(script)) == Background
    ensures Deadline(ServeStopCtx(script)) == Positive(script.onStopTimeout)
    ensures Root(Enriched(StopCaller)) == StopCaller && Deadline(Enriched(StopCaller)) == None
  {
    assert Root(WithTimeout(Caller, script.onStartTimeout)) == Root(Caller);
    assert Root(WithTimeout(Background, script.onStopTimeout)) == Root(Background);
  }

  /** Serve starts on the caller's context, with OnStartTimeout as deadline, and tears down on
      Background with OnStopTimeout, whatever happened before: cancelling the caller's context
      cannot shorten the shutdown. Every context it hands out carries the config, the secrets
      and the logger. */
  lemma ServeContexts(bindings: seq<Served>, script: Script)
    ensures var t := Serve(NewWorld(bindings), script).0.trace;
            && Contexts(t, Caller, Positive(script.onStartTimeout), Background, Positive(script.onStopTimeout))
            && QuietUnlessReady(t)
  {
    var w := NewWorld(bindings);
    var p, t := ServePlan(w, script), Serve(w, script).0.trace;
    ServeIsAccepted(bindings, script);
    RootsAndDeadlines(script, true);
    PlanContexts(p, t);
    FailureIsQuiet(p, t);
  }

  /** A Start that fails uses its caller's context throughout, its teardown included, and no
      timeouts. */
  lemma FailedStartContexts(bindings: seq<Served>, script: Script)
    requires !Launch(NewWorld(bindings), script, false).1.Up?
    ensures var t := Launch(NewWorld(bindings), script, false).0.trace;
            && (forall e :: e in t ==> Given(e, Caller, None))
            && QuietUnlessReady(t)
  {
    var w := NewWorld(bindings);
    var p, t := StartPlan(w, script), Launch(w, script, false).0.trace;
    LaunchParses(p, w, script, false);
    RootsAndDeadlines(script, false);
    FailedStart(p, t);
  }

  lemma FailedStart(p: Plan, trace: seq<Event>)
    requires var m := Parse(p, trace).mode; m == Sweeping(false) || m.Idle? || m.InOnStart?
    requires p.failCtx == p.startCtx && Carries(p.startCtx)
    ensures forall e :: e in trace ==> Given(e, Root(p.startCtx), Deadline(p.startCtx))
    ensures QuietUnlessReady(trace)
  {
    EventsFit(p, trace);
    NotOpenIsQuiet(p, trace);
    forall e | e in trace ensures Given(e, Root(p.startCtx), Deadline(p.startCtx)) {
      assert Fits(p, e, Parse(p, trace).mode);
    }
  }

  /** A Start that succeeds is torn down on the context given to Stop. */
  lemma StopContexts(bindings: seq<Served>, script: Script)
    requires Launch(NewWorld(bindings), script, false).1.Up?
    ensures var w := NewWorld(bindings);
            var t := Stop(WhileUp(Launch(w, script, false).0, script), OrderOf(w, script, false), script).0.trace;
            Contexts(t, Caller, None, StopCaller, None)
  {
    var w := NewWorld(bindings);
    var p, w1 := StartPlan(w, script), Launch(w, script, false).0;
    LaunchParses(p, w, script, false);
    UpParses(p, w1, script);
    PlanContexts(p, Stop(WhileUp(w1, script), p.order, script).0.trace);
    RootsAndDeadlines(script, false);
  }
}
