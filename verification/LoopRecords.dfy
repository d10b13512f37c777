/** What is logged of the serve loops: every return is classified by the flag it finds, and
    leaves exactly the record its class calls for. */
module LoopRecords {
  import opened Basics
  import opened Lifecycle
  import opened LifecycleFacts
  import opened LifecycleGrammar
  import opened LifecycleRaces
  import opened ShutdownLaws
  import opened StartupLaws
  import E = StopErrors

  function RecordBy(x: Entry, name: string): seq<Entry> {
    if (x.ErrorLogged? || x.DebugLogged?) && x.name == name then [x] else []
  }

  /** The records about a binding. */
  function RecordsOn(log: seq<Entry>, name: string): seq<Entry> {
    Collect(log, x => RecordBy(x, name))
  }

  lemma RecordsEmit(log: seq<Entry>, x: Entry, name: string)
    ensures RecordsOn(log + [x], name) == RecordsOn(log, name) + RecordBy(x, name)
  {
    CollectEmit(log, x => RecordBy(x, name), x);
  }

  /** A return that finds the flag unset is an error whatever it returned; one that finds it set
      is worth a debug record only if it is an error, and not http.ErrServerClosed. */
  function Verdict(name: string, ret: Return, cause: Cause, flag: bool): seq<Entry> {
    if !flag then [ErrorLogged(name, ret, cause)]
    else
      match ret
      case OtherError => [DebugLogged(name, ret)]
      case Nil => []
      case ServerClosed => []
  }

  /** The binding's serve loop is not started twice. */
  predicate StartsOnce(events: seq<Event>, name: string) {
    events == [] || ((events[0] == Spawn(name) ==> Spawn(name) !in events[1..]) && StartsOnce(events[1..], name))
  }

  ghost predicate Classified(s: LifecycleRaces.State, name: string) {
    if name !in s.loops then RecordsOn(s.log, name) == []
    else
      match s.loops[name]
      case Gone(ret, cause, flag) =>
        && ServeReturned(name, ret, cause) in s.log && FlagLoaded(name, flag) in s.log
        && RecordsOn(s.log, name) == Verdict(name, ret, cause, flag)
      case Loaded(ret, cause, flag) =>
        && ServeReturned(name, ret, cause) in s.log && FlagLoaded(name, flag) in s.log
        && RecordsOn(s.log, name) == []
      case Back(ret, cause) => ServeReturned(name, ret, cause) in s.log && RecordsOn(s.log, name) == []
      case Serving => RecordsOn(s.log, name) == []
  }

  ghost predicate StartsFit(s: LifecycleRaces.State, name: string) {
    && StartsOnce(s.main + s.stop, name)
    && (name in s.loops ==> Spawn(name) !in s.main + s.stop)
  }

  /** What one action adds to the records of a binding. */
  lemma StepRecords(p: Program, s: LifecycleRaces.State, a: Action, name: string)
    ensures var s' := Step(p, s, a);
            && (forall x :: x in s.log ==> x in s'.log)
            && RecordsOn(s'.log, name) == RecordsOn(s.log, name) +
                 if a == Log(name) && name in s.loops && s.loops[name].Loaded?
                 then Verdict(name, s.loops[name].ret, s.loops[name].cause, s.loops[name].flag) else []
  {
    var s' := Step(p, s, a);
    LogGrows(p, s, a);
    if |s'.log| > |s.log| {
      assert s'.log == s.log + [s'.log[|s.log|]];
      RecordsEmit(s.log, s'.log[|s.log|], name);
    } else {
      assert s'.log == s.log;
    }
  }

  lemma StartsStep(p: Program, s: LifecycleRaces.State, a: Action, name: string)
    requires OnceHolds(p, s) && StartsFit(s, name)
    ensures StartsFit(Step(p, s, a), name)
  {
    var todo, s' := s.main + s.stop, Step(p, s, a);
    if a.Main? && s.main != [] {
      assert todo[0] == s.main[0] && todo[1..] == s'.main + s'.stop;
    } else if a.StopStep? && s.once == Held(a.t) && s.stop != [] {
      assert todo[0] == s.stop[0] && todo[1..] == s'.main + s'.stop;
    } else {
      assert s'.main + s'.stop == todo;
    }
  }

  /** Nothing about the binding has changed. */
  lemma ClassifiedStays(s: LifecycleRaces.State, s': LifecycleRaces.State, name: string)
    requires Classified(s, name) && RecordsOn(s'.log, name) == RecordsOn(s.log, name)
    requires name in s'.loops <==> name in s.loops
    requires name in s.loops ==> s'.loops[name] == s.loops[name]
    requires forall x :: x in s.log ==> x in s'.log
    ensures Classified(s', name)
  {
  }

  /** The loop itself moves on. */
  lemma OwnStep(p: Program, s: LifecycleRaces.State, a: Action, name: string)
    requires Classified(s, name) && Step(p, s, a) != s
    requires a in {Load(name), Log(name)} || (a.ReturnServe? && a.name == name)
    ensures Classified(Step(p, s, a), name)
  {
    var s' := Step(p, s, a);
    StepRecords(p, s, a, name);
    assert RecordsOn(s.log, name) == [];
    if !a.Log? {
      assert s'.log[|s.log|] in s'.log;
    }
  }

  lemma ClassifiedStep(p: Program, s: LifecycleRaces.State, a: Action, name: string)
    requires OnceHolds(p, s) && StartsFit(s, name) && Classified(s, name)
    ensures Classified(Step(p, s, a), name)
  {
    var s' := Step(p, s, a);
    if s' != s {
      if a in {Load(name), Log(name)} || (a.ReturnServe? && a.name == name) {
        OwnStep(p, s, a, name);
      } else {
        StepRecords(p, s, a, name);
        assert RecordsOn(s.log, name) + [] == RecordsOn(s.log, name);
        OthersLoop(p, s, a, name);
        if name in s.loops || name !in s'.loops {
          ClassifiedStays(s, s', name);
        }
      }
    }
  }

  /** What others do leaves the loop alone, but for starting it. */
  lemma OthersLoop(p: Program, s: LifecycleRaces.State, a: Action, name: string)
    requires OnceHolds(p, s) && StartsFit(s, name) && Step(p, s, a) != s
    requires a !in {Load(name), Log(name)} && !(a.ReturnServe? && a.name == name)
    ensures var s' := Step(p, s, a);
            && (name in s.loops ==> name in s'.loops && s'.loops[name] == s.loops[name])
            && (name !in s.loops && name in s'.loops ==> s'.loops[name].Serving?)
  {
    if a.Main? || a.StopStep? {
      var e := if a.Main? then s.main[0] else s.stop[0];
      assert e in s.main + s.stop;
    }
  }

  lemma {:induction false} RunClassifies(p: Program, actions: seq<Action>, name: string)
    requires FlagBeforeTeardown(p.main) && FlagBeforeTeardown(p.stop) && StartsOnce(p.main + p.stop, name)
    ensures StartsFit(Run(p, actions), name) && Classified(Run(p, actions), name)
  {
    if actions != [] {
      var init, a := actions[..|actions| - 1], actions[|actions| - 1];
      RunClassifies(p, init, name);
      RunKeepsInv(p, init);
      StartsStep(p, Run(p, init), a, name);
      ClassifiedStep(p, Run(p, init), a, name);
    }
  }

  // ----- the loops of a run -----

  lemma {:induction false} NamesDistinct(order: seq<Served>)
    requires DistinctNames(order)
    ensures NoDuplicates(Names(order))
  {
    if order != [] {
      var init, b := order[..|order| - 1], order[|order| - 1];
      assert order == init + [b];
      NamesDistinct(init);
      NamesConcat(init, [b]);
      OneName(b);
      NamesHold(init, b.name);
    }
  }

  lemma SpawnShows(trace: seq<Event>, name: string)
    ensures Spawn(name) in trace ==> name in Spawns(trace)
  {
    CollectMembers(trace, SpawnedBy, name);
    if Spawn(name) in trace {
      var i :| 0 <= i < |trace| && trace[i] == Spawn(name);
      assert name in SpawnedBy(trace[i]);
    }
  }

  lemma {:induction false} DistinctSpawns(trace: seq<Event>, name: string)
    requires NoDuplicates(Spawns(trace))
    ensures StartsOnce(trace, name)
    decreases |trace|
  {
    if trace != [] {
      var rest := trace[1..];
      assert trace == [trace[0]] + rest;
      CollectConcat([trace[0]], rest, SpawnedBy);
      CollectEmit([], SpawnedBy, trace[0]);
      assert [] + [trace[0]] == [trace[0]];
      var first := Spawns([trace[0]]);
      assert forall i :: 0 <= i < |Spawns(rest)| ==> Spawns(trace)[|first| + i] == Spawns(rest)[i];
      DistinctSpawns(rest, name);
      SpawnShows(rest, name);
      assert trace[0] == Spawn(name) ==> Spawns(trace)[0] == name;
    }
  }

  lemma AccountedStartOnce(order: seq<Served>, begins: bool, script: Script, trace: seq<Event>, name: string)
    requires DistinctNames(order) && Accounts(order, begins, script, trace)
    ensures StartsOnce(trace, name)
  {
    if begins {
      var n := FirstFailure(order, 0, script);
      var last := if n < |order| && script.listens(order[n].name) then [order[n]] else [];
      assert order[..n] + last == order[..n + |last|];
      NamesDistinct(order[..n + |last|]);
    }
    DistinctSpawns(trace, name);
  }

  lemma RunStartsOnce(p: Program, bindings: seq<Served>, script: Script, name: string)
    requires LifecycleRun(p, bindings, script) && DistinctNames(bindings)
    ensures StartsOnce(p.main + p.stop, name)
  {
    var w, serving := NewWorld(bindings), p == ServeProgram(bindings, script);
    var order, begins := OrderOf(w, script, serving), Begins(w, script, serving);
    OrderIsDistinct(bindings, script, serving);
    if serving {
      StartupAccounting(bindings, script);
    } else {
      StartAccounting(bindings, script);
      if Launch(w, script, false).1.Up? {
        E.ProgramReturnsFailures(bindings, script);
        StopAccounting(p.main + p.stop, bindings, script);
      }
    }
    assert p.stop == [] ==> p.main + p.stop == p.main;
    AccountedStartOnce(order, begins, script, p.main + p.stop, name);
  }

  /** In every interleaving of every run over distinct names: a binding's serve loop that has
      returned and loaded the flag leaves exactly the record its return calls for, an error if
      the flag was not set, a debug record if it was and the return was an unexpected error,
      and none otherwise; before that there is no record about the binding. */
  lemma EveryReturnIsClassified(p: Program, bindings: seq<Served>, script: Script, actions: seq<Action>, name: string)
    requires LifecycleRun(p, bindings, script) && DistinctNames(bindings)
    ensures Classified(Run(p, actions), name)
  {
    ProgramsStoreFlagFirst(bindings, script);
    RunStartsOnce(p, bindings, script, name);
    RunClassifies(p, actions, name);
  }
}
