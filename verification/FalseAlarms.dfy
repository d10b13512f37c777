/** When a serve loop that was made to return is reported as an error all the same. The flag is
    stored before every step of the teardown (LifecycleRaces.ProgramsStoreFlagFirst), but a
    ServeFunc can also be ended by what comes earlier: a hook that runs the Cleaner itself, the
    cancellation of OnStart's context before the flag is stored (scaffold.go:433-436), and the
    signal or cancellation that starts a shutdown (scaffold.go:455-464). */
module FalseAlarms {
  import opened Basics
  import opened Lifecycle
  import opened LifecycleFacts
  import opened LifecycleGrammar
  import opened LifecycleRaces
  import opened StartupLaws
  import C = Cleaners

  function Events(p: Program): seq<Event> { p.main + p.stop }

  /** The program executes e before it stores the flag. */
  ghost predicate BeforeFlag(events: seq<Event>, e: Event) {
    exists i :: 0 <= i < |events| && events[i] == e && StoreFlag !in events[..i]
  }

  /** A binding that e can make return too early: not an HTTP one, started and hit by e before
      the flag is stored. */
  ghost predicate Exposed(p: Program, name: string, e: Event) {
    name !in p.http && Ending(e) && BeforeFlag(Events(p), Spawn(name)) && BeforeFlag(Events(p), e)
  }

  lemma DoneHolds(log: seq<Entry>, e: Event)
    ensures e in Done(log) <==> Did(e) in log
  {
    CollectMembers(log, DoneBy, e);
    if Did(e) in log {
      var i :| 0 <= i < |log| && log[i] == Did(e);
      assert e in DoneBy(log[i]);
    }
  }

  lemma ExecutedBeforeFlag(p: Program, log: seq<Entry>, more: seq<Entry>, e: Event)
    requires Done(log + more) <= Events(p)
    requires Did(e) in log && Did(StoreFlag) !in log
    ensures BeforeFlag(Events(p), e)
  {
    CollectConcat(log, more, DoneBy);
    DoneHolds(log, e);
    DoneHolds(log, StoreFlag);
    var done := Done(log);
    var i :| 0 <= i < |done| && done[i] == e;
    assert Events(p)[..i] == done[..i] && Events(p)[i] == e;
  }

  /** Stop's own program starts with the flag. */
  lemma StopStartsWithFlag(p: Program, bindings: seq<Served>, script: Script)
    requires LifecycleRun(p, bindings, script)
    ensures p.stop == [] || p.stop[0] == StoreFlag
  {
    if p != ServeProgram(bindings, script) {
      var w := NewWorld(bindings);
      var order := OrderOf(w, script, false);
      StopStoresFirst(WhileUp(Launch(w, script, false).0, script), order, script);
    }
  }

  lemma IndexBeforeFlag(p: Program, e: Event) returns (i: nat)
    requires BeforeFlag(Events(p), e) && e != StoreFlag && (p.stop == [] || p.stop[0] == StoreFlag)
    ensures i < |p.main| && p.main[i] == e && StoreFlag !in p.main[..i]
  {
    i :| 0 <= i < |Events(p)| && Events(p)[i] == e && StoreFlag !in Events(p)[..i];
    assert forall k :: 0 <= k < i ==> Events(p)[..i][k] == Events(p)[k] != StoreFlag;
    assert p.stop != [] ==> Events(p)[|p.main|] == StoreFlag;
    assert Events(p)[..i] == p.main[..i];
  }

  /** Some interleaving of p logs an error record about the binding for a return that e caused. */
  ghost predicate CanAlarm(p: Program, name: string, ret: Return, e: Event) {
    exists actions :: ErrorLogged(name, ret, Because(e)) in Run(p, actions).log
  }

  /** Exactly when a return that e caused can be reported as an error: iff the binding is not an
      HTTP one and both its start and e come before the flag is stored. */
  lemma FalseAlarmIff(p: Program, bindings: seq<Served>, script: Script, name: string, ret: Return, e: Event)
    requires LifecycleRun(p, bindings, script)
    ensures CanAlarm(p, name, ret, e) <==> Exposed(p, name, e)
  {
    if CanAlarm(p, name, ret, e) {
      var actions :| ErrorLogged(name, ret, Because(e)) in Run(p, actions).log;
      AlarmNeedsExposure(p, bindings, script, actions, name, ret, e);
    }
    if Exposed(p, name, e) {
      StopStartsWithFlag(p, bindings, script);
      var s := ExposureAlarms(p, name, ret, e);
      var actions :| Run(p, actions) == s;
    }
  }

  lemma AlarmNeedsExposure(p: Program, bindings: seq<Served>, script: Script, actions: seq<Action>,
                           name: string, ret: Return, e: Event)
    requires LifecycleRun(p, bindings, script)
    requires ErrorLogged(name, ret, Because(e)) in Run(p, actions).log
    ensures Exposed(p, name, e)
  {
    var k := AlarmIsJustified(p, bindings, script, actions, name, ret, e);
    DoneIsPrefix(p, bindings, script, actions);
    JustifiedExposes(p, Run(p, actions).log, k, name, ret, e);
  }

  lemma AlarmIsJustified(p: Program, bindings: seq<Served>, script: Script, actions: seq<Action>,
                         name: string, ret: Return, e: Event) returns (k: nat)
    requires LifecycleRun(p, bindings, script)
    requires ErrorLogged(name, ret, Because(e)) in Run(p, actions).log
    ensures k < |Run(p, actions).log| && Justified(Run(p, actions).log[..k], name, ret, Because(e))
    ensures name !in p.http && Ending(e)
  {
    k :| 0 <= k < |Run(p, actions).log| && Run(p, actions).log[k] == ErrorLogged(name, ret, Because(e));
    NoFalseAlarm(p, bindings, script, actions, k);
  }

  lemma JustifiedExposes(p: Program, log: seq<Entry>, k: nat, name: string, ret: Return, e: Event)
    requires Done(log) <= Events(p) && k <= |log| && Justified(log[..k], name, ret, Because(e))
    ensures BeforeFlag(Events(p), Spawn(name)) && BeforeFlag(Events(p), e)
  {
    var j :| 0 <= j < k && log[..k][j] == FlagLoaded(name, false) && Grounds(log[..k][..j], name, ret, Because(e));
    assert log[..k][..j] == log[..j] && log == log[..j] + log[j..];
    ExecutedBeforeFlag(p, log[..j], log[j..], Spawn(name));
    ExecutedBeforeFlag(p, log[..j], log[j..], e);
  }

  lemma DoneIsPrefix(p: Program, bindings: seq<Served>, script: Script, actions: seq<Action>)
    requires LifecycleRun(p, bindings, script)
    ensures Done(Run(p, actions).log) <= Events(p)
  {
    ProgramsStoreFlagFirst(bindings, script);
    RunKeepsInv(p, actions);
  }

  lemma ExposureAlarms(p: Program, name: string, ret: Return, e: Event) returns (s: LifecycleRaces.State)
    requires Exposed(p, name, e) && e != StoreFlag && (p.stop == [] || p.stop[0] == StoreFlag)
    ensures Reaches(p, s) && ErrorLogged(name, ret, Because(e)) in s.log
  {
    var i := IndexBeforeFlag(p, Spawn(name));
    var j := IndexBeforeFlag(p, e);
    NoFlagThrough(p.main, i);
    NoFlagThrough(p.main, j);
    s := MainRuns(p, if i < j then j + 1 else i + 1);
    assert s.log[j] == Did(e) && p.main[i].Spawn?;
    s := AlarmFrom(p, s, name, ret, Because(e));
  }

  lemma NoFlagThrough(events: seq<Event>, i: nat)
    requires i < |events| && events[i] != StoreFlag && StoreFlag !in events[..i]
    ensures StoreFlag !in events[..i + 1]
  {
    assert events[..i + 1] == events[..i] + [events[i]];
  }

  /** An HTTP binding never raises a false alarm: every error record about it is about a server
      that stopped on its own, and not with ErrServerClosed. */
  lemma HttpNeverFalseAlarm(bindings: seq<Served>, script: Script, serving: bool, actions: seq<Action>, k: nat)
    requires var p := if serving then ServeProgram(bindings, script) else StartProgram(bindings, script);
             && k < |Run(p, actions).log| && Run(p, actions).log[k].ErrorLogged?
             && Served(Run(p, actions).log[k].name, true) in OrderOf(NewWorld(bindings), script, serving)
    ensures var p := if serving then ServeProgram(bindings, script) else StartProgram(bindings, script);
            Run(p, actions).log[k].cause == Own && !Run(p, actions).log[k].ret.ServerClosed?
  {
    NoFalseAlarm(if serving then ServeProgram(bindings, script) else StartProgram(bindings, script),
                 bindings, script, actions, k);
  }

  // ----- who is exposed -----

  lemma {:induction false} PrefixIsAccepted(p: Plan, trace: seq<Event>, i: nat)
    requires i <= |trace| && !Parse(p, trace).mode.Stuck?
    ensures !Parse(p, trace[..i]).mode.Stuck?
    decreases |trace| - i
  {
    if i < |trace| {
      PrefixIsAccepted(p, trace, i + 1);
      assert trace[..i + 1] == trace[..i] + [trace[i]];
      ParseEmit(p, trace[..i], trace[i]);
      if Parse(p, trace[..i]).mode.Stuck? {
        NothingAfterStuck(p, Parse(p, trace[..i]), trace[i]);
      }
    } else {
      assert trace[..i] == trace;
    }
  }

  /** In every accepted trace the bindings are started, and the start timeout is cancelled,
      before the flag is stored. */
  lemma StartupIsBeforeFlag(p: Plan, trace: seq<Event>, e: Event)
    requires !Parse(p, trace).mode.Stuck? && e in trace && (e.Spawn? || e.StartTimeoutCancelled?)
    ensures BeforeFlag(trace, e)
  {
    var i :| 0 <= i < |trace| && trace[i] == e;
    PrefixIsAccepted(p, trace, i);
    PrefixIsAccepted(p, trace, i + 1);
    assert trace[..i + 1] == trace[..i] + [e];
    ParseEmit(p, trace[..i], e);
    AcceptedFlag(p, trace[..i]);
    assert !PastFlag(Parse(p, trace[..i]).mode);
  }

  lemma BeforeFlagExtends(a: seq<Event>, b: seq<Event>, e: Event)
    requires a <= b && BeforeFlag(a, e)
    ensures BeforeFlag(b, e)
  {
    var i :| 0 <= i < |a| && a[i] == e && StoreFlag !in a[..i];
    assert b[i] == e && b[..i] == a[..i];
  }

  /** A binding of a ServeFunc that Serve started. */
  predicate StartedForeign(bindings: seq<Served>, script: Script, name: string) {
    && Served(name, true) !in OrderOf(NewWorld(bindings), script, true)
    && Spawn(name) in Serve(NewWorld(bindings), script).0.trace
  }

  /** A Serve with an OnStartTimeout cancels it, if it returns. */
  lemma ServeCancels(bindings: seq<Served>, script: Script)
    requires script.addressOk && script.onStartTimeout > 0 && Serve(NewWorld(bindings), script).1.Some?
    ensures StartTimeoutCancelled in ServeProgram(bindings, script).main
  {
    var p, trace := ServePlan(NewWorld(bindings), script), ServeProgram(bindings, script).main;
    ServeIsAccepted(bindings, script);
    ServedIsNotIdle(bindings, script);
    EndsTornDown(p, trace);
    var marked := Collect(trace, e => MarkedBy(e, Untimed));
    CollectMembers(trace, e => MarkedBy(e, Untimed), ());
    assert Tallied(trace).untimed == 1 && marked[0] == ();
    var i :| 0 <= i < |trace| && () in MarkedBy(trace[i], Untimed);
    assert trace[i] == StartTimeoutCancelled;
  }

  /** With an OnStartTimeout, cancelling it can end every ServeFunc that Serve has started, and
      raise an alarm. */
  lemma CancelledStartAlarms(bindings: seq<Served>, script: Script, name: string, ret: Return)
    requires script.addressOk && script.onStartTimeout > 0 && Serve(NewWorld(bindings), script).1.Some?
    requires StartedForeign(bindings, script, name)
    ensures CanAlarm(ServeProgram(bindings, script), name, ret, StartTimeoutCancelled)
  {
    var p := ServeProgram(bindings, script);
    ServeCancels(bindings, script);
    ServedBeforeFlag(bindings, script, Spawn(name));
    ServedBeforeFlag(bindings, script, StartTimeoutCancelled);
    assert Events(p) == p.main;
    FalseAlarmIff(p, bindings, script, name, ret, StartTimeoutCancelled);
  }

  lemma ServedBeforeFlag(bindings: seq<Served>, script: Script, e: Event)
    requires e in ServeProgram(bindings, script).main && (e.Spawn? || e.StartTimeoutCancelled?)
    ensures BeforeFlag(ServeProgram(bindings, script).main, e)
  {
    ServeIsAccepted(bindings, script);
    StartupIsBeforeFlag(ServePlan(NewWorld(bindings), script), ServeProgram(bindings, script).main, e);
  }

  /** What a Serve that came up executes before it stores the flag. */
  lemma UpBeforeFlag(bindings: seq<Served>, script: Script) returns (up: seq<Event>)
    requires Launch(NewWorld(bindings), script, true).1.Up?
    ensures up == WhileUp(Launch(NewWorld(bindings), script, true).0, script).trace
    ensures StoreFlag !in up && up + [Initiated] <= ServeProgram(bindings, script).main
    ensures var main := ServeProgram(bindings, script).main;
            forall name :: Spawn(name) in main ==> BeforeFlag(main, Spawn(name))
  {
    var w := NewWorld(bindings);
    var plan := ServePlan(w, script);
    var w1 := Launch(w, script, true).0;
    LaunchParses(plan, w, script, true);
    ActsParse(plan, w1, script.running);
    up := WhileUp(w1, script).trace;
    AcceptedFlag(plan, up);
    UpIsPrefix(WhileUp(w1, script), OrderOf(w, script, true), script);
    forall name | Spawn(name) in ServeProgram(bindings, script).main
      ensures BeforeFlag(ServeProgram(bindings, script).main, Spawn(name))
    {
      ServedBeforeFlag(bindings, script, Spawn(name));
    }
  }

  lemma UpIsPrefix(w: World, order: seq<Served>, script: Script)
    ensures w.trace + [Initiated] <= StopServing(w, order, script).trace
  {
    var w1 := w.Emit(Initiated).Emit(StoreFlag);
    ShutdownExtends(w1, true, order, |order|, script, ServeStopCtx(script));
    assert w.trace + [Initiated] <= w1.trace;
  }

  /** What Serve did while up, and the event that starts its shutdown, are before the flag. */
  lemma UpExposes(p: Program, up: seq<Event>, name: string, e: Event)
    requires StoreFlag !in up && up + [Initiated] <= p.main
    requires name !in p.http && BeforeFlag(p.main, Spawn(name))
    requires e in up + [Initiated] && Ending(e)
    ensures Exposed(p, name, e)
  {
    var es := up + [Initiated];
    var i :| 0 <= i < |es| && es[i] == e;
    assert es[..i] == up[..i];
    BeforeFlagExtends(es, Events(p), e);
    BeforeFlagExtends(p.main, Events(p), Spawn(name));
  }

  /** In every Serve that came up, the signal or cancellation that ends it can end every
      ServeFunc before the flag is stored, and raise an alarm. */
  lemma SignalAlarms(bindings: seq<Served>, script: Script, name: string, ret: Return)
    requires Launch(NewWorld(bindings), script, true).1.Up? && StartedForeign(bindings, script, name)
    ensures CanAlarm(ServeProgram(bindings, script), name, ret, Initiated)
  {
    var p := ServeProgram(bindings, script);
    var up := UpBeforeFlag(bindings, script);
    UpExposes(p, up, name, Initiated);
    FalseAlarmIff(p, bindings, script, name, ret, Initiated);
  }

  /** So can a cleaner function run by a Clean that user code calls while the daemon is up, or
      called earlier. */
  lemma HookCleaningAlarms(bindings: seq<Served>, script: Script, name: string, ret: Return, e: C.Event)
    requires Launch(NewWorld(bindings), script, true).1.Up? && StartedForeign(bindings, script, name)
    requires UserCleaning(e) in WhileUp(Launch(NewWorld(bindings), script, true).0, script).trace
    ensures CanAlarm(ServeProgram(bindings, script), name, ret, UserCleaning(e))
  {
    var p := ServeProgram(bindings, script);
    var up := UpBeforeFlag(bindings, script);
    UpExposes(p, up, name, UserCleaning(e));
    FalseAlarmIff(p, bindings, script, name, ret, UserCleaning(e));
  }

  // ----- runs with a false alarm -----

  lemma SpawnedIsInTrace(trace: seq<Event>, name: string)
    requires name in Spawns(trace)
    ensures Spawn(name) in trace
  {
    CollectMembers(trace, SpawnedBy, name);
    var i :| 0 <= i < |trace| && name in SpawnedBy(trace[i]);
    assert trace[i] == Spawn(name);
  }

  /** A ServeFunc that watches OnStart's context: the second binding cannot be listened on, Serve
      cancels that context and only then stores the flag, and the return is reported. */
  lemma CancelledStartRaisesAlarm(script: Script, ret: Return)
    requires script.addressOk && script.startError.None? && script.ordered && script.onStart == []
    requires script.onStartTimeout > 0
    requires script.listens("a") && script.answers("a") && !script.listens("b")
    ensures CanAlarm(ServeProgram([Served("a", false), Served("b", true)], script), "a", ret, StartTimeoutCancelled)
  {
    var order := [Served("a", false), Served("b", true)];
    var w, p := NewWorld(order), ServeProgram(order, script);
    assert RunActs(BeforeOnStart(w, script, true), []) == (BeforeOnStart(w, script, true), Returned);
    assert OrderOf(w, script, true) == order && Begins(w, script, true);
    assert FirstFailure(order, 0, script) == 1 by {
      assert ComesUp(order[0], script) && !ComesUp(order[1], script);
    }
    StartupAccounting(order, script);
    NamesHold(order[..1] + [], "a");
    assert (order[..1] + [])[0].name == "a";
    SpawnedIsInTrace(p.main, "a");
    ServeReturns(order, script);
    CancelledStartAlarms(order, script, "a", ret);
  }

  /** A foreign server that a cleaner function stops: user code runs the Cleaner itself while the
      daemon is up, and the return is reported. */
  lemma HookCleaningRaisesAlarm(script: Script, fn: C.Fn, ret: Return)
    requires script.addressOk && script.startError.None? && script.ordered
    requires script.onStart == [AddCleaner(fn)] && script.running == [CleanNow]
    requires script.listens("a") && script.answers("a")
    ensures CanAlarm(ServeProgram([Served("a", false)], script), "a", ret, UserCleaning(C.Invoked(fn.id)))
  {
    var order := [Served("a", false)];
    var w, p := NewWorld(order), ServeProgram(order, script);
    var before := BeforeOnStart(w, script, true);
    OneCleaner(before, fn);
    assert OrderOf(w, script, true) == order && Begins(w, script, true);
    assert FirstFailure(order, 0, script) == 1 by {
      assert ComesUp(order[0], script);
    }
    LaunchParses(ServePlan(w, script), w, script, true);
    CleanedWhileUp(w, script, fn);
    StartupAccounting(order, script);
    NamesHold(order[..1] + [], "a");
    assert (order[..1] + [])[0].name == "a";
    SpawnedIsInTrace(p.main, "a");
    HookCleaningAlarms(order, script, "a", ret, C.Invoked(fn.id));
  }

  lemma OneCleaner(w: World, fn: C.Fn)
    requires w.cleaner == C.FRESH
    ensures var (w1, outcome) := RunActs(w, [AddCleaner(fn)]);
            && outcome == Returned && w1.bindings == w.bindings && w1.ready == w.ready
            && w1.cleaner == C.State([fn], false, false)
  {
    var w1 := DoAct(w, AddCleaner(fn));
    assert [AddCleaner(fn)][1..] == [];
    assert RunActs(w1, []) == (w1, Returned);
    assert [] + [fn] == [fn];
  }

  lemma {:induction false} OpenKeeps(w: World, order: seq<Served>, k: nat, script: Script)
    requires k <= |order|
    ensures var w' := OpenBindings(w, order, k, script).w; w'.cleaner == w.cleaner && w'.ready == w.ready
    decreases |order| - k
  {
    if k < |order| {
      OpenKeeps(OpenOne(w, order[k], script).0, order, k + 1, script);
    }
  }

  /** What one Clean does while a single function is registered. */
  lemma OneClean(w: World, fn: C.Fn)
    requires w.cleaner == C.State([fn], false, false)
    ensures UserCleaning(C.Invoked(fn.id)) in RunActs(w, [CleanNow]).0.trace
  {
    var es := C.DrainEvents([fn]);
    assert es[0] == C.Invoked(fn.id);
    var w1 := DoAct(w, CleanNow);
    assert w1.trace == w.trace + UserEvents(es);
    assert w1.trace[|w.trace|] == UserCleaning(C.Invoked(fn.id));
    assert [CleanNow][1..] == [];
    assert RunActs(w1, []) == (w1, Returned);
  }

  lemma CleanedWhileUp(w: World, script: Script, fn: C.Fn)
    requires w.ready == [] && w.cleaner == C.FRESH
    requires script.onStart == [AddCleaner(fn)] && script.running == [CleanNow]
    requires Launch(w, script, true).1.Up?
    ensures UserCleaning(C.Invoked(fn.id)) in WhileUp(Launch(w, script, true).0, script).trace
  {
    var before := BeforeOnStart(w, script, true);
    OneCleaner(before, fn);
    var started := RunActs(before, script.onStart).0.Emit(OnStartReturned);
    OpenKeeps(started, started.bindings, 0, script);
    var w1 := Launch(w, script, true).0;
    assert w1.cleaner == C.State([fn], false, false);
    OneClean(w1, fn);
  }
}
