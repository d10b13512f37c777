/** The lifecycle under every interleaving: the thread of Start or Serve, any number of threads
    calling Instance.Stop, and one serve-loop goroutine per binding, sharing the shutdown
    flag. What the first two do is a trace of module Lifecycle, executed one event at a time;
    an action that is not enabled leaves the state alone. */
module LifecycleRaces {
  import opened Basics
  import opened Lifecycle
  import opened LifecycleFacts
  import opened LifecycleGrammar

  type Thread = nat

  /** What a serve loop returns: nil, http.ErrServerClosed or another error. */
  datatype Return = Nil | ServerClosed | OtherError

  /** Why it returns: on its own, or because of something that happened. */
  datatype Cause = Own | Because(e: Event)

  /** runBindingServeLoop, between its atomic steps. */
  datatype Loop =
    | Serving
    | Back(ret: Return, cause: Cause)
    | Loaded(ret: Return, cause: Cause, flag: bool)
    | Gone(ret: Return, cause: Cause, flag: bool)

  datatype Entry =
    | Did(e: Event)
    | ServeReturned(name: string, ret: Return, cause: Cause)
    | FlagLoaded(name: string, value: bool)
    | ErrorLogged(name: string, ret: Return, cause: Cause)
    | DebugLogged(name: string, ret: Return)
    | StopCalled(t: Thread)
    | StopReturned(t: Thread, errs: seq<Error>)

  datatype Once = Unused | Held(winner: Thread) | Used(winner: Thread)

  /** What is executed: the trace of Start or Serve, that of the shutdown Stop runs and its
      error, and which bindings have an HTTP server. */
  datatype Program = Program(main: seq<Event>, stoppable: bool, stop: seq<Event>, errs: seq<Error>, http: set<string>)

  datatype State = State(
    flag: bool, main: seq<Event>, stop: seq<Event>,
    once: Once, called: set<Thread>, waiting: set<Thread>,
    loops: map<string, Loop>, log: seq<Entry>)

  function Init(p: Program): State {
    State.State(false, p.main, p.stop, Unused, {}, {}, map[], [])
  }

  datatype Action =
    | Main
    | CallStop(t: Thread)
    | Acquire(t: Thread)
    | StopStep(t: Thread)
    | Release(t: Thread)
    | ReturnStop(t: Thread)
    | ReturnServe(name: string, ret: Return, cause: Cause)
    | Load(name: string)
    | Log(name: string)

  /** One event of a lifecycle trace takes effect. */
  function Do(s: State, e: Event): State {
    s.(flag := s.flag || e.StoreFlag?,
       loops := if e.Spawn? then s.loops[e.name := Serving] else s.loops,
       log := s.log + [Did(e)])
  }

  predicate Shuts(e: Event, name: string) {
    e.Shutdown? && e.name == name
  }

  /** What can make a ServeFunc return: a step of the teardown, a cleaner function run by a Clean
      that a hook called, the end of OnStart's context, and the signal or cancellation that
      starts the shutdown. */
  predicate Ending(e: Event) {
    Teardown(e) || e.UserCleaning? || e.StartTimeoutCancelled? || e.Initiated?
  }

  /** What net/http and user code may do. An effect can only act once it has happened; it need
      not be later than the start of the loop, which can find its context cancelled. A
      server's own loop returns ErrServerClosed exactly because of its own Shutdown, and
      reacts to nothing else. */
  predicate MayReturn(p: Program, s: State, name: string, ret: Return, cause: Cause) {
    && (cause.Because? ==> Did(cause.e) in s.log && Ending(cause.e))
    && HttpFits(p, name, ret, cause)
  }

  predicate HttpFits(p: Program, name: string, ret: Return, cause: Cause) {
    name in p.http ==> (ret.ServerClosed? <==> cause.Because?) && (cause.Because? ==> Shuts(cause.e, name))
  }

  function Step(p: Program, s: State, a: Action): State {
    match a
    case Main =>
      if s.main == [] then s else Do(s, s.main[0]).(main := s.main[1..])
    case CallStop(t) =>
      if s.main != [] || !p.stoppable || t in s.called then s
      else s.(called := s.called + {t}, waiting := s.waiting + {t}, log := s.log + [StopCalled(t)])
    case Acquire(t) =>
      if t !in s.waiting || !s.once.Unused? then s else s.(once := Held(t))
    case StopStep(t) =>
      if s.once != Held(t) || s.stop == [] then s else Do(s, s.stop[0]).(stop := s.stop[1..])
    case Release(t) =>
      if s.once != Held(t) || s.stop != [] then s else s.(once := Used(t))
    case ReturnStop(t) =>
      if t !in s.waiting || !s.once.Used? then s
      else s.(waiting := s.waiting - {t},
              log := s.log + [StopReturned(t, if s.once.winner == t then p.errs else [])])
    case ReturnServe(name, ret, cause) =>
      if name !in s.loops || !s.loops[name].Serving? || !MayReturn(p, s, name, ret, cause) then s
      else s.(loops := s.loops[name := Back(ret, cause)], log := s.log + [ServeReturned(name, ret, cause)])
    case Load(name) =>
      if name !in s.loops || !s.loops[name].Back? then s
      else s.(loops := s.loops[name := Loaded(s.loops[name].ret, s.loops[name].cause, s.flag)],
              log := s.log + [FlagLoaded(name, s.flag)])
    case Log(name) =>
      if name !in s.loops || !s.loops[name].Loaded? then s
      else
        var l := s.loops[name];
        s.(loops := s.loops[name := Gone(l.ret, l.cause, l.flag)],
           log := s.log + if !l.flag then [ErrorLogged(name, l.ret, l.cause)]
                          else if l.ret.OtherError? then [DebugLogged(name, l.ret)]
                          else [])
  }

  function Run(p: Program, actions: seq<Action>): State {
    if actions == [] then Init(p)
    else Step(p, Run(p, actions[..|actions| - 1]), actions[|actions| - 1])
  }

  // ----- the flag -----

  ghost predicate FlagFirst(s: State) {
    && (s.flag <==> Did(StoreFlag) in s.log)
    && (forall e :: Did(e) in s.log && Teardown(e) ==> s.flag)
    && (!s.flag ==> FlagBeforeTeardown(s.main) && FlagBeforeTeardown(s.stop))
  }

  lemma TailFlagFirst(events: seq<Event>)
    requires events != [] && FlagBeforeTeardown(events)
    ensures !Teardown(events[0])
    ensures events[0] != StoreFlag ==> FlagBeforeTeardown(events[1..])
  {
    assert events[..0] == [];
    if events[0] != StoreFlag {
      var rest := events[1..];
      forall i | 0 <= i < |rest| && Teardown(rest[i]) ensures StoreFlag in rest[..i] {
        assert Teardown(events[i + 1]);
        assert events[..i + 1] == [events[0]] + rest[..i];
      }
    }
  }

  lemma FlagFirstStep(p: Program, s: State, a: Action)
    requires FlagFirst(s)
    ensures FlagFirst(Step(p, s, a))
  {
    if a.Main? && s.main != [] && !s.flag {
      TailFlagFirst(s.main);
    } else if a.StopStep? && s.stop != [] && !s.flag {
      TailFlagFirst(s.stop);
    }
  }

  // ----- the serve loops -----

  /** An error-level record about binding `name` is justified by what comes before it: the
      loop was started, what made it return happened, it returned, and only then loaded the
      flag, before anyone stored it. */
  ghost predicate Justified(log: seq<Entry>, name: string, ret: Return, cause: Cause) {
    exists j :: 0 <= j < |log| && log[j] == FlagLoaded(name, false) && Grounds(log[..j], name, ret, cause)
  }

  predicate Grounds(log: seq<Entry>, name: string, ret: Return, cause: Cause) {
    && Did(Spawn(name)) in log
    && (cause.Because? ==> Did(cause.e) in log)
    && ServeReturned(name, ret, cause) in log
    && Did(StoreFlag) !in log
  }

  /** The cause of a return: possible for the binding, and executed. */
  predicate CauseFits(p: Program, log: seq<Entry>, name: string, ret: Return, cause: Cause) {
    && HttpFits(p, name, ret, cause)
    && (cause.Because? ==> Ending(cause.e) && Did(cause.e) in log)
    && ServeReturned(name, ret, cause) in log
  }

  ghost predicate LoopFacts(p: Program, s: State, name: string, l: Loop) {
    && Did(Spawn(name)) in s.log
    && match l
       case Back(ret, cause) => CauseFits(p, s.log, name, ret, cause)
       case Loaded(ret, cause, flag) =>
         && (flag ==> s.flag) && CauseFits(p, s.log, name, ret, cause)
         && (!flag ==> Unprovoked(p, name, ret, cause) && Justified(s.log, name, ret, cause))
       case _ => true
  }

  /** Not the work of the teardown, and never an HTTP server's ErrServerClosed. */
  predicate Unprovoked(p: Program, name: string, ret: Return, cause: Cause) {
    && (cause.Because? ==> name !in p.http && Ending(cause.e) && !Teardown(cause.e))
    && !(name in p.http && ret.ServerClosed?)
  }

  ghost predicate RecordFacts(p: Program, log: seq<Entry>, e: Entry, before: seq<Entry>) {
    match e
    case ServeReturned(name, ret, cause) => cause.Because? ==> Ending(cause.e) && Did(cause.e) in before
    case ErrorLogged(name, ret, cause) => Justified(before, name, ret, cause) && Unprovoked(p, name, ret, cause)
    case DebugLogged(name, ret) => ret.OtherError? && Did(StoreFlag) in before
    case _ => true
  }

  ghost predicate LoopsFine(p: Program, s: State) {
    && (forall name :: name in s.loops ==> LoopFacts(p, s, name, s.loops[name]))
    && (forall k :: 0 <= k < |s.log| ==> RecordFacts(p, s.log, s.log[k], s.log[..k]))
  }

  lemma LoopsStep(p: Program, s: State, a: Action)
    requires FlagFirst(s) && LoopsFine(p, s)
    ensures LoopsFine(p, Step(p, s, a))
  {
    var s' := Step(p, s, a);
    LogGrows(p, s, a);
    forall name | name in s'.loops ensures LoopFacts(p, s', name, s'.loops[name]) {
      LoopFactsStep(p, s, a, name);
    }
    forall k | 0 <= k < |s'.log| ensures RecordFacts(p, s'.log, s'.log[k], s'.log[..k]) {
      if k < |s.log| {
        assert s'.log[..k] == s.log[..k];
        assert RecordFacts(p, s.log, s.log[k], s.log[..k]);
      } else {
        assert s'.log[..k] == s.log;
        RecordStep(p, s, a);
      }
    }
  }

  lemma LogGrows(p: Program, s: State, a: Action)
    ensures var s' := Step(p, s, a);
            |s.log| <= |s'.log| <= |s.log| + 1 && s'.log[..|s.log|] == s.log && (s.flag ==> s'.flag)
  {
  }

  lemma RecordStep(p: Program, s: State, a: Action)
    requires FlagFirst(s) && LoopsFine(p, s) && |Step(p, s, a).log| > |s.log|
    ensures RecordFacts(p, Step(p, s, a).log, Step(p, s, a).log[|s.log|], s.log)
  {
    if a.Log? {
      assert LoopFacts(p, s, a.name, s.loops[a.name]);
    }
  }

  lemma LoopFactsStep(p: Program, s: State, a: Action, name: string)
    requires FlagFirst(s) && LoopsFine(p, s) && name in Step(p, s, a).loops
    ensures LoopFacts(p, Step(p, s, a), name, Step(p, s, a).loops[name])
  {
    var s' := Step(p, s, a);
    if name in s.loops {
      var l := s.loops[name];
      assert LoopFacts(p, s, name, l);
      if s'.loops[name] == l {
        LogGrows(p, s, a);
        FactsPersist(p, s, s', name, l);
      } else if a == Load(name) && !s.flag {
        var k := |s.log|;
        assert s'.log[k] == FlagLoaded(name, false) && s'.log[..k] == s.log;
      }
    }
  }

  lemma FactsPersist(p: Program, s: State, s': State, name: string, l: Loop)
    requires LoopFacts(p, s, name, l) && (s.flag ==> s'.flag)
    requires |s.log| <= |s'.log| && s'.log[..|s.log|] == s.log
    ensures LoopFacts(p, s', name, l)
  {
    var more := s'.log[|s.log|..];
    assert s'.log == s.log + more;
    if l.Loaded? && !l.flag {
      var j :| 0 <= j < |s.log| && s.log[j] == FlagLoaded(name, false) && Grounds(s.log[..j], name, l.ret, l.cause);
      assert s'.log[..j] == s.log[..j] && s'.log[j] == s.log[j];
    }
  }

  // ----- Stop runs once -----

  function DoneBy(x: Entry): seq<Event> {
    if x.Did? then [x.e] else []
  }

  /** The lifecycle events executed so far, in order. */
  function Done(log: seq<Entry>): seq<Event> {
    Collect(log, DoneBy)
  }

  /** What is done and what is left are, together, the whole program. */
  predicate OnSchedule(p: Program, s: State) {
    Done(s.log) + (s.main + s.stop) == p.main + p.stop
  }

  predicate OnceHolds(p: Program, s: State) {
    && (!s.once.Unused? ==> s.main == [] && s.once.winner in s.called)
    && (s.once.Unused? ==> s.stop == p.stop)
    && (s.once.Used? ==> s.stop == [])
    && (s.main != [] ==> s.called == {})
    && s.waiting <= s.called
    && (!s.once.Used? ==> s.waiting == s.called)
  }

  /** A Stop returns only after the whole shutdown, and with its error only to the winner. */
  ghost predicate StopFits(p: Program, s: State, x: Entry, before: seq<Entry>)
    requires x.StopReturned?
  {
    && s.once.Used?
    && Done(before) == p.main + p.stop
    && x.errs == (if s.once.winner == x.t then p.errs else [])
  }

  ghost predicate StopsFit(p: Program, s: State) {
    forall k :: 0 <= k < |s.log| && s.log[k].StopReturned? ==> StopFits(p, s, s.log[k], s.log[..k])
  }

  ghost predicate OnceFine(p: Program, s: State) {
    OnSchedule(p, s) && OnceHolds(p, s) && StopsFit(p, s)
  }

  lemma DoStep(s: State, e: Event)
    ensures Done(Do(s, e).log) == Done(s.log) + [e]
  {
    CollectEmit(s.log, DoneBy, Did(e));
  }

  lemma MainOnSchedule(p: Program, s: State)
    requires OnSchedule(p, s)
    ensures OnSchedule(p, Step(p, s, Main))
  {
    if s.main != [] {
      DoStep(s, s.main[0]);
      Shift(Done(s.log), s.main, s.stop);
    }
  }

  lemma StopOnSchedule(p: Program, s: State, t: Thread)
    requires OnSchedule(p, s) && OnceHolds(p, s)
    ensures OnSchedule(p, Step(p, s, StopStep(t)))
  {
    if s.once == Held(t) && s.stop != [] {
      DoStep(s, s.stop[0]);
      Shift(Done(s.log), s.stop, []);
      assert s.stop + [] == s.stop && [] + s.stop == s.stop;
      assert s.stop[1..] + [] == s.stop[1..] && [] + s.stop[1..] == s.stop[1..];
    }
  }

  /** The other actions execute no event. */
  lemma OthersOnSchedule(p: Program, s: State, a: Action)
    requires OnSchedule(p, s) && !a.Main? && !a.StopStep?
    ensures OnSchedule(p, Step(p, s, a))
  {
    var s' := Step(p, s, a);
    assert s'.main == s.main && s'.stop == s.stop;
    LogGrows(p, s, a);
    if |s'.log| > |s.log| {
      assert s'.log == s.log + [s'.log[|s.log|]];
      CollectEmit(s.log, DoneBy, s'.log[|s.log|]);
    } else {
      assert s'.log == s.log;
    }
  }

  lemma Shift<T>(done: seq<T>, todo: seq<T>, rest: seq<T>)
    requires todo != []
    ensures (done + [todo[0]]) + (todo[1..] + rest) == done + (todo + rest)
  {
  }

  lemma OnceHoldsStep(p: Program, s: State, a: Action)
    requires OnceHolds(p, s)
    ensures OnceHolds(p, Step(p, s, a))
    ensures s.once.Used? ==> Step(p, s, a).once == s.once
  {
  }

  lemma StopsStep(p: Program, s: State, a: Action)
    requires OnceFine(p, s)
    ensures StopsFit(p, Step(p, s, a))
  {
    var s' := Step(p, s, a);
    LogGrows(p, s, a);
    OnceHoldsStep(p, s, a);
    forall k | 0 <= k < |s'.log| && s'.log[k].StopReturned? ensures StopFits(p, s', s'.log[k], s'.log[..k]) {
      if k < |s.log| {
        assert s'.log[..k] == s.log[..k];
        assert StopFits(p, s, s.log[k], s.log[..k]);
      } else {
        assert s'.log[..k] == s.log;
        ReturnedStop(p, s, a);
      }
    }
  }

  lemma ReturnedStop(p: Program, s: State, a: Action)
    requires OnceFine(p, s)
    requires var s' := Step(p, s, a); |s'.log| > |s.log| && s'.log[|s.log|].StopReturned?
    ensures var s' := Step(p, s, a); StopFits(p, s', s'.log[|s.log|], s.log)
  {
    assert a.ReturnStop?;
    assert s.main + s.stop == [];
    assert Done(s.log) + [] == Done(s.log);
  }

  lemma OnceStep(p: Program, s: State, a: Action)
    requires OnceFine(p, s)
    ensures OnceFine(p, Step(p, s, a))
  {
    OnceHoldsStep(p, s, a);
    StopsStep(p, s, a);
    match a
    case Main => MainOnSchedule(p, s);
    case StopStep(t) => StopOnSchedule(p, s, t);
    case _ => OthersOnSchedule(p, s, a);
  }

  // ----- main results -----

  ghost predicate Inv(p: Program, s: State) {
    FlagFirst(s) && LoopsFine(p, s) && OnceFine(p, s)
  }

  lemma {:induction false} RunKeepsInv(p: Program, actions: seq<Action>)
    requires FlagBeforeTeardown(p.main) && FlagBeforeTeardown(p.stop)
    ensures Inv(p, Run(p, actions))
  {
    if actions == [] {
      assert Done([]) + (p.main + p.stop) == p.main + p.stop;
    } else {
      var s, a := Run(p, actions[..|actions| - 1]), actions[|actions| - 1];
      RunKeepsInv(p, actions[..|actions| - 1]);
      FlagFirstStep(p, s, a);
      LoopsStep(p, s, a);
      OnceStep(p, s, a);
    }
  }

  /** The program that Serve executes. */
  function ServeProgram(bindings: seq<Served>, script: Script): Program {
    var w := NewWorld(bindings);
    Program(Serve(w, script).0.trace, false, [], [], HttpSet(OrderOf(w, script, true)))
  }

  /** The program that Start executes, with what user code does once it is up, and after it the
      shutdown of Stop. */
  function StartProgram(bindings: seq<Served>, script: Script): Program {
    var w := NewWorld(bindings);
    var (w1, startup) := Launch(w, script, false);
    var order := OrderOf(w, script, false);
    var up := WhileUp(w1, script);
    var (w2, errs) := Stop(up, order, script);
    StopExtends(up, order, script);
    Program(if startup.Up? then up.trace else w1.trace, startup.Up?,
            if startup.Up? then w2.trace[|up.trace|..] else [], errs, HttpSet(order))
  }

  function HttpSet(order: seq<Served>): set<string> {
    set b | b in order && b.http :: b.name
  }

  /** Every thread of every run executes its program with the flag stored before any step of the
      teardown: before-shutdown callbacks, server Shutdowns, OnStop, and the final Clean with
      its cleaner functions. */
  lemma ProgramsStoreFlagFirst(bindings: seq<Served>, script: Script)
    ensures FlagBeforeTeardown(ServeProgram(bindings, script).main)
    ensures FlagBeforeTeardown(StartProgram(bindings, script).main)
    ensures FlagBeforeTeardown(StartProgram(bindings, script).stop)
  {
    var w := NewWorld(bindings);
    ServeIsFlagFirst(bindings, script);
    StartIsFlagFirst(bindings, script);
    var w1 := Launch(w, script, false).0;
    StopStoresFirst(WhileUp(w1, script), OrderOf(w, script, false), script);
  }

  lemma ServeIsFlagFirst(bindings: seq<Served>, script: Script)
    ensures FlagBeforeTeardown(Serve(NewWorld(bindings), script).0.trace)
  {
    var w := NewWorld(bindings);
    ServeIsAccepted(bindings, script);
    AcceptedTraces(ServePlan(w, script), Serve(w, script).0.trace);
  }

  lemma StartIsFlagFirst(bindings: seq<Served>, script: Script)
    ensures FlagBeforeTeardown(StartProgram(bindings, script).main)
  {
    var w := NewWorld(bindings);
    var p := StartPlan(w, script);
    var (w1, startup) := Launch(w, script, false);
    LaunchParses(p, w, script, false);
    if startup.Up? {
      ActsParse(p, w1, script.running);
    }
    AcceptedTraces(p, StartProgram(bindings, script).main);
  }

  lemma StopExtends(w: World, order: seq<Served>, script: Script)
    ensures w.trace + [StoreFlag] <= Stop(w, order, script).0.trace
  {
    var w1 := w.Emit(StoreFlag).Emit(Initiated);
    ShutdownExtends(w1, true, order, |order|, script, Enriched(StopCaller));
    assert w.trace + [StoreFlag] <= w1.trace;
  }

  lemma StopStoresFirst(w: World, order: seq<Served>, script: Script)
    ensures |w.trace| < |Stop(w, order, script).0.trace|
    ensures var t := Stop(w, order, script).0.trace[|w.trace|..]; t[0] == StoreFlag && FlagBeforeTeardown(t)
  {
    StopExtends(w, order, script);
    var whole := Stop(w, order, script).0.trace;
    var t := whole[|w.trace|..];
    assert whole[|w.trace|] == (w.trace + [StoreFlag])[|w.trace|];
    forall i | 0 <= i < |t| && Teardown(t[i]) ensures StoreFlag in t[..i] {
      assert t[..i][0] == StoreFlag;
    }
  }

  lemma ShutdownExtends(w: World, normal: bool, order: seq<Served>, count: nat, script: Script, ctx: Ctx)
    requires count <= |order|
    ensures w.trace <= RunShutdown(w, normal, order, count, script, ctx).0.trace
  {
    if normal {
      CallbacksExtend(w, BeforeShutdown, 0, ctx);
    }
    var w1 := if normal then RunCallbacks(w, BeforeShutdown, 0, ctx) else w;
    CloseExtends(w1, order, count, script, ctx);
    var w2 := CloseBindings(w1, order, count, script, ctx).0;
    ActsExtend(w2.Emit(OnStop(ctx)), script.onStop);
  }

  lemma {:induction false} ActsExtend(w: World, acts: seq<Act>)
    ensures w.trace <= RunActs(w, acts).0.trace
    decreases |acts|
  {
    if acts != [] && !ActPanics(w, acts[0]) {
      ActsExtend(DoAct(w, acts[0]), acts[1..]);
    }
  }

  lemma {:induction false} CallbacksExtend(w: World, phase: Phase, i: nat, ctx: Ctx)
    requires i <= |w.Hooks(phase)|
    ensures w.trace <= RunCallbacks(w, phase, i, ctx).trace
    decreases Weight(w.Hooks(phase)[i..])
  {
    if i < |w.Hooks(phase)| {
      var h := w.Hooks(phase)[i];
      ActsExtend(w.Emit(Callback(phase, h.id, ctx)), h.acts);
      RunHookAppends(w, phase, i, ctx, phase);
      CallbacksExtend(RunHook(w, phase, h, ctx), phase, i + 1, ctx);
    }
  }

  lemma {:induction false} CloseExtends(w: World, order: seq<Served>, n: nat, script: Script, ctx: Ctx)
    requires n <= |order|
    ensures w.trace <= CloseBindings(w, order, n, script, ctx).0.trace
    decreases n
  {
    if n > 0 {
      CloseExtends(ShutdownBinding(w, order[n - 1], script, ctx).0, order, n - 1, script, ctx);
    }
  }

  /** A run of the lifecycle: that of Serve, or that of Start with any Stops after it. */
  ghost predicate LifecycleRun(p: Program, bindings: seq<Served>, script: Script) {
    p == ServeProgram(bindings, script) || p == StartProgram(bindings, script)
  }

  /** In any interleaving of any run, an error-level record about a binding is about a loop that
      had returned and then loaded the flag before it was stored, and never about a return
      that the teardown caused, nor about an HTTP server's ErrServerClosed, of which there is
      no record of any level; a debug record comes only after the flag was stored. */
  lemma NoFalseAlarm(p: Program, bindings: seq<Served>, script: Script, actions: seq<Action>, k: nat)
    requires LifecycleRun(p, bindings, script)
    requires k < |Run(p, actions).log|
    ensures var log := Run(p, actions).log;
            match log[k]
            case ErrorLogged(name, ret, cause) =>
              Justified(log[..k], name, ret, cause) && Unprovoked(p, name, ret, cause)
            case DebugLogged(name, ret) => ret.OtherError? && Did(StoreFlag) in log[..k]
            case _ => true
  {
    ProgramsStoreFlagFirst(bindings, script);
    RunKeepsInv(p, actions);
    var log := Run(p, actions).log;
    assert RecordFacts(p, log, log[k], log[..k]);
  }

  /** The shutdown runs once, in every interleaving of any number of Stops: what has been
      executed is a prefix of Start followed by one shutdown; no Stop returns before all of it
      has been; and of all the callers only one may be given its error. */
  lemma StopRunsOnce(p: Program, bindings: seq<Served>, script: Script, actions: seq<Action>)
    requires p == StartProgram(bindings, script)
    ensures var s := Run(p, actions);
            && Done(s.log) <= p.main + p.stop
            && forall k :: 0 <= k < |s.log| && s.log[k].StopReturned? ==>
                 && Done(s.log[..k]) == p.main + p.stop
                 && s.once.Used?
                 && s.log[k].errs == if s.once.winner == s.log[k].t then p.errs else []
  {
    ProgramsStoreFlagFirst(bindings, script);
    RunKeepsInv(p, actions);
    var s := Run(p, actions);
    assert OnSchedule(p, s) && StopsFit(p, s);
  }

  // ----- progress -----

  /** The run of p's actions from s on. */
  function RunOn(p: Program, s: State, actions: seq<Action>): State
    decreases |actions|
  {
    if actions == [] then s else RunOn(p, Step(p, s, actions[0]), actions[1..])
  }

  lemma {:induction false} RunThenOn(p: Program, a: seq<Action>, b: seq<Action>)
    ensures Run(p, a + b) == RunOn(p, Run(p, a), b)
    decreases |b|
  {
    if b == [] {
      assert a + b == a;
    } else {
      RunThenOn(p, a + [b[0]], b[1..]);
      assert a + b == (a + [b[0]]) + b[1..];
      RunNext(p, a, b[0]);
    }
  }

  lemma RunNext(p: Program, actions: seq<Action>, a: Action)
    ensures Run(p, actions + [a]) == Step(p, Run(p, actions), a)
  {
    assert (actions + [a])[..|actions|] == actions;
  }

  /** Start or Serve is through; and if Stop has been called, so are the shutdown and every
      caller. */
  predicate Through(s: State) {
    || (s.main == [] && s.waiting == s.called == {})
    || (s.main == [] && s.waiting == {} && s.once.Used? && s.stop == [])
  }

  function Stage(once: Once): nat {
    match once case Unused => 2 case Held(_) => 1 case Used(_) => 0
  }

  /** An action that brings a run closer to its end. */
  ghost function Nearer(s: State): Action
    requires s.main != [] || s.waiting != {}
  {
    if s.main != [] then Main
    else if s.once.Held? then if s.stop != [] then StopStep(s.once.winner) else Release(s.once.winner)
    else
      var t :| t in s.waiting;
      if s.once.Unused? then Acquire(t) else ReturnStop(t)
  }

  lemma NearerIsEnabled(p: Program, s: State)
    requires OnceHolds(p, s) && (s.main != [] || s.waiting != {})
    ensures var s' := Step(p, s, Nearer(s));
            if s.main != [] then |s'.main| < |s.main|
            else s'.main == [] && (Stage(s'.once) < Stage(s.once)
                  || (s'.once == s.once && |s'.stop| < |s.stop|)
                  || (s'.once == s.once && s'.stop == s.stop && |s'.waiting| < |s.waiting|))
  {
  }

  lemma {:induction false} EndsFrom(p: Program, s: State) returns (more: seq<Action>)
    requires OnceHolds(p, s)
    ensures Through(RunOn(p, s, more))
    decreases |s.main|, Stage(s.once), |s.stop|, |s.waiting|
  {
    if s.main != [] || s.waiting != {} {
      var a := Nearer(s);
      NearerIsEnabled(p, s);
      OnceHoldsStep(p, s, a);
      var rest := EndsFrom(p, Step(p, s, a));
      more := [a] + rest;
      assert more[1..] == rest;
    } else {
      more := [];
    }
  }

  /** Progress: from every state that any interleaving reaches, the run can go on to where Start
      or Serve is through, the shutdown is complete if Stop was called at all, and every caller
      of Stop has returned. */
  lemma StopsCanReturn(p: Program, bindings: seq<Served>, script: Script, actions: seq<Action>)
    requires LifecycleRun(p, bindings, script)
    ensures exists more :: Through(Run(p, actions + more))
  {
    ProgramsStoreFlagFirst(bindings, script);
    RunKeepsInv(p, actions);
    var more := EndsFrom(p, Run(p, actions));
    RunThenOn(p, actions, more);
    assert Through(Run(p, actions + more));
  }

  // ----- the flag stored late -----

  /** Some run of p ends in s. */
  ghost predicate Reaches(p: Program, s: State) {
    exists actions :: Run(p, actions) == s
  }

  lemma ReachesNext(p: Program, s: State, a: Action) returns (s': State)
    requires Reaches(p, s)
    ensures s' == Step(p, s, a) && Reaches(p, s')
  {
    var actions :| Run(p, actions) == s;
    RunNext(p, actions, a);
    s' := Run(p, actions + [a]);
  }

  /** From a state in which a loop is serving and the flag is not stored, any return it may make
      can be recorded as an error. */
  lemma AlarmFrom(p: Program, s: State, name: string, ret: Return, cause: Cause) returns (s': State)
    requires Reaches(p, s) && !s.flag && name in s.loops && s.loops[name].Serving?
    requires MayReturn(p, s, name, ret, cause)
    ensures Reaches(p, s') && ErrorLogged(name, ret, cause) in s'.log
  {
    s' := ReachesNext(p, s, ReturnServe(name, ret, cause));
    assert s'.loops[name] == Back(ret, cause) && !s'.flag;
    s' := ReachesNext(p, s', Load(name));
    assert s'.loops[name] == Loaded(ret, cause, false);
    s' := ReachesNext(p, s', Log(name));
  }

  /** Storing the flag after the Shutdown instead would raise a false alarm. */
  lemma LateFlagRaisesFalseAlarm(ctx: Ctx)
    ensures var p := Program([Spawn("api"), Shutdown("api", ctx), StoreFlag], false, [], [], {"api"});
            exists s :: Reaches(p, s) && ErrorLogged("api", ServerClosed, Because(Shutdown("api", ctx))) in s.log
  {
    var down := Shutdown("api", ctx);
    var p := Program([Spawn("api"), down, StoreFlag], false, [], [], {"api"});
    var s := MainRuns(p, 2);
    assert s.log[1] == Did(down) && StoreFlag !in p.main[..2] && p.main[0] == Spawn("api");
    s := AlarmFrom(p, s, "api", ServerClosed, Because(down));
  }

  /** What the state is when the main thread alone has executed its first n events. */
  ghost predicate RanMain(p: Program, s: State, n: nat)
    requires n <= |p.main|
  {
    && s.main == p.main[n..]
    && |s.log| == n
    && (forall k :: 0 <= k < n ==> s.log[k] == Did(p.main[k]))
    && (s.flag <==> StoreFlag in p.main[..n])
    && (forall k :: 0 <= k < n && p.main[k].Spawn? ==>
          p.main[k].name in s.loops && s.loops[p.main[k].name].Serving?)
  }

  lemma MainNext(p: Program, s: State, n: nat)
    requires n < |p.main| && RanMain(p, s, n)
    ensures RanMain(p, Step(p, s, Main), n + 1)
  {
    assert s.main[0] == p.main[n] && s.main[1..] == p.main[n + 1..];
    assert p.main[..n + 1] == p.main[..n] + [p.main[n]];
  }

  /** The main thread can execute the first n events of its program on its own. */
  lemma {:induction false} MainRuns(p: Program, n: nat) returns (s: State)
    requires n <= |p.main|
    ensures Reaches(p, s) && RanMain(p, s, n)
  {
    if n == 0 {
      assert Run(p, []) == Init(p);
      s := Init(p);
    } else {
      s := MainRuns(p, n - 1);
      MainNext(p, s, n - 1);
      s := ReachesNext(p, s, Main);
    }
  }
}
