/** What Stop returns over a whole run: exactly the failures of the shutdown. */
module StopErrors {
  import opened Basics
  import opened Lifecycle
  import opened LifecycleFacts
  import opened LifecycleGrammar
  import opened LifecycleContexts
  import opened LifecycleRaces
  import opened ShutdownLaws

  /** No failure is logged while the daemon starts or is up. */
  lemma NoneWhileUp(p: Plan, trace: seq<Event>, script: Script)
    requires Parse(p, trace).mode == Running
    ensures Failures(trace, script) == [] && StoreFlag !in trace
  {
    AcceptedTraces(p, trace);
    EventsFit(p, trace);
    forall e | e in trace ensures FailureOf(e, script) == [] {
      assert Fits(p, e, Parse(p, trace).mode);
    }
    FailuresNone([], trace, script);
    assert [] + trace == trace;
  }

  /** Start followed by Stop: the errors Stop returns are all the failures in the trace, and all
      of them are logged after the flag is stored. */
  lemma StopReturnsFailures(bindings: seq<Served>, script: Script)
    requires Launch(NewWorld(bindings), script, false).1.Up?
    ensures var w := NewWorld(bindings);
            var up, order := WhileUp(Launch(w, script, false).0, script), OrderOf(w, script, false);
            var (w', errs) := Stop(up, order, script);
            && errs == Failures(w'.trace, script)
            && StoreFlag !in up.trace && up.trace + [StoreFlag] <= w'.trace
            && errs == Failures(w'.trace[|up.trace| + 1..], script)
            && StopReturns(up, order, script, errs)
  {
    var w := NewWorld(bindings);
    var p, w1 := StartPlan(w, script), Launch(w, script, false).0;
    var up, order := WhileUp(w1, script), OrderOf(w, script, false);
    LaunchParses(p, w, script, false);
    ActsParse(p, w1, script.running);
    NoneWhileUp(p, up.trace, script);
    StopErrors(up, order, script);
    StopLogsErrors(up, order, script);
    StopExtends(up, order, script);
    SplitFailures(up.trace, Stop(up, order, script).0.trace, script);
  }

  lemma SplitFailures(before: seq<Event>, trace: seq<Event>, script: Script)
    requires before + [StoreFlag] <= trace
    ensures Failures(trace, script) == Failures(before, script) + Failures(trace[|before| + 1..], script)
  {
    var after := trace[|before| + 1..];
    assert trace == (before + [StoreFlag]) + after;
    FailuresJoin(before + [StoreFlag], after, script);
    FailuresEmit(before, StoreFlag, script);
  }

  lemma FailuresJoin(before: seq<Event>, after: seq<Event>, script: Script)
    ensures Failures(before + after, script) == Failures(before, script) + Failures(after, script)
  {
    CollectConcat(before, after, e => FailureOf(e, script));
  }

  /** What the threads execute is that trace, and what the winner is given are its failures. */
  lemma ProgramReturnsFailures(bindings: seq<Served>, script: Script)
    requires Launch(NewWorld(bindings), script, false).1.Up?
    ensures var w, p := NewWorld(bindings), StartProgram(bindings, script);
            var up, order := WhileUp(Launch(w, script, false).0, script), OrderOf(w, script, false);
            && p.main + p.stop == Stop(up, order, script).0.trace
            && p.errs == Failures(p.stop, script)
            && StopReturns(up, order, script, p.errs)
  {
    var w, p := NewWorld(bindings), StartProgram(bindings, script);
    var up, order := WhileUp(Launch(w, script, false).0, script), OrderOf(w, script, false);
    StopReturnsFailures(bindings, script);
    var whole := Stop(up, order, script).0.trace;
    assert whole == up.trace + p.stop;
    StopLogsErrors(up, order, script);
    FailuresJoin(up.trace, p.stop, script);
  }
}
