/** cleaner.go under any number of threads. Each critical section of Add and Clean is one
    atomic step, and the drain between Clean's two critical sections runs outside the lock.
    A thread inside a cleaner function may call Add and Clean again, so a thread carries a
    stack of activation frames. A run is any sequence of actions; an action that is not
    enabled leaves the state alone, so every interleaving is some sequence. */
module CleanerRuns {
  import opened Basics
  import C = Cleaners

  type Thread = nat
  type FnId = nat

  datatype Frame =
    | Draining(snapshot: seq<FnId>, left: nat)  // between Clean's two critical sections
    | Inside(fn: FnId)                          // executing a cleaner function

  datatype Event =
    | Added(t: Thread, fn: FnId)
    | AddPanicked(t: Thread)
    | CleanStarted(t: Thread)
    | CleanRefused(t: Thread)
    | Invoked(t: Thread, fn: FnId)
    | Finished(t: Thread, fn: FnId, end: C.End)
    | CleanReturned(t: Thread)

  datatype State = State(
    stack: seq<FnId>, running: bool, done: bool,
    frames: map<Thread, seq<Frame>>, log: seq<Event>)
  {
    predicate Started() { running || done }

    function Frames(t: Thread): seq<Frame> {
      if t in frames then frames[t] else []
    }

    /** Client code runs at the top level of a thread or inside a cleaner function. */
    predicate InClientCode(t: Thread) {
      Frames(t) == [] || Frames(t)[|Frames(t)| - 1].Inside?
    }
  }

  const INIT := State([], false, false, map[], [])

  datatype Action =
    | Add(t: Thread, fn: FnId)
    | Clean(t: Thread)
    | Invoke(t: Thread)
    | Finish(t: Thread, end: C.End)
    | Complete(t: Thread)

  function Step(s: State, a: Action): State {
    var fs := s.Frames(a.t);
    match a
    case Add(t, fn) =>
      if !s.InClientCode(t) then s
      else if s.Started() then s.(log := s.log + [AddPanicked(t)])
      else s.(stack := s.stack + [fn], log := s.log + [Added(t, fn)])
    case Clean(t) =>
      if !s.InClientCode(t) then s
      else if s.Started() then s.(log := s.log + [CleanRefused(t)])
      else s.(running := true, stack := [],
              frames := s.frames[t := fs + [Draining(s.stack, |s.stack|)]],
              log := s.log + [CleanStarted(t)])
    case Invoke(t) =>
      if fs == [] || !fs[|fs| - 1].Draining? then s
      else
        var d := fs[|fs| - 1];
        if !(0 < d.left <= |d.snapshot|) then s
        else
          var fn := d.snapshot[d.left - 1];
          s.(frames := s.frames[t := fs[..|fs| - 1] + [d.(left := d.left - 1), Inside(fn)]],
             log := s.log + [Invoked(t, fn)])
    case Finish(t, end) =>
      if fs == [] || !fs[|fs| - 1].Inside? then s
      else s.(frames := s.frames[t := fs[..|fs| - 1]],
              log := s.log + [Finished(t, fs[|fs| - 1].fn, end)])
    case Complete(t) =>
      if fs == [] || !fs[|fs| - 1].Draining? || fs[|fs| - 1].left != 0 then s
      else s.(frames := s.frames[t := fs[..|fs| - 1]], running := false, done := true,
              log := s.log + [CleanReturned(t)])
  }

  function Run(s: State, actions: seq<Action>): State {
    if actions == [] then s
    else Step(Run(s, actions[..|actions| - 1]), actions[|actions| - 1])
  }

  // ----- reading a log -----

  function AddedBy(e: Event): seq<FnId> {
    if e.Added? then [e.fn] else []
  }

  function InvokedBy(e: Event): seq<FnId> {
    if e.Invoked? then [e.fn] else []
  }

  /** The functions added, and those invoked, in the order of the log. */
  function AddedIn(log: seq<Event>): seq<FnId> {
    Collect(log, AddedBy)
  }

  function InvokedIn(log: seq<Event>): seq<FnId> {
    Collect(log, InvokedBy)
  }

  /** The thread whose Clean won, if any has. */
  function Winner(log: seq<Event>): Option<Thread> {
    if log == [] then None
    else if log[|log| - 1].CleanStarted? then Some(log[|log| - 1].t)
    else Winner(log[..|log| - 1])
  }

  lemma LogExtends(log: seq<Event>, e: Event)
    ensures AddedIn(log + [e]) == AddedIn(log) + AddedBy(e)
    ensures InvokedIn(log + [e]) == InvokedIn(log) + InvokedBy(e)
    ensures Winner(log + [e]) == if e.CleanStarted? then Some(e.t) else Winner(log)
    ensures WellOrdered(log) && Fits(e, Winner(log)) ==> WellOrdered(log + [e])
  {
    var l := log + [e];
    CollectEmit(log, AddedBy, e);
    CollectEmit(log, InvokedBy, e);
    assert l[..|log|] == log;
    if WellOrdered(log) && Fits(e, Winner(log)) {
      forall j | 0 <= j < |l| ensures Fits(l[j], Winner(l[..j])) {
        if j < |log| {
          assert l[..j] == log[..j];
        }
      }
    }
  }

  /** What an event says about the log before it. Adds succeed, and a Clean starts, only
      while no Clean has started; Adds panic and Cleans are refused only afterwards; and
      cleaner functions are run by the winner alone. */
  predicate Fits(e: Event, winner: Option<Thread>) {
    match e
    case Added(_, _) => winner.None?
    case CleanStarted(_) => winner.None?
    case AddPanicked(_) => winner.Some?
    case CleanRefused(_) => winner.Some?
    case Invoked(t, _) => winner == Some(t)
    case Finished(t, _, _) => winner == Some(t)
    case CleanReturned(t) => winner == Some(t)
  }

  ghost predicate WellOrdered(log: seq<Event>) {
    forall j :: 0 <= j < |log| ==> Fits(log[j], Winner(log[..j]))
  }

  // ----- the invariant -----

  ghost predicate AllIdle(s: State) {
    forall u :: s.Frames(u) == []
  }

  /** The frames of a thread that is draining: of the functions added it has yet to start
      the first `left`, and it has started the others, latest first. */
  ghost predicate DrainFrames(fs: seq<Frame>, added: seq<FnId>, invoked: seq<FnId>) {
    && 1 <= |fs| <= 2
    && fs[0].Draining?
    && (|fs| == 2 ==> fs[1].Inside?)
    && fs[0].snapshot == added
    && fs[0].left <= |added|
    && invoked == Reverse(added)[..|added| - fs[0].left]
  }

  ghost predicate Drains(s: State, t: Thread) {
    && DrainFrames(s.Frames(t), AddedIn(s.log), InvokedIn(s.log))
    && forall u :: u != t ==> s.Frames(u) == []
  }

  ghost predicate Inv(s: State) {
    && WellOrdered(s.log)
    && (Winner(s.log).Some? <==> s.Started())
    && !(s.running && s.done)
    && s.stack == (if s.Started() then [] else AddedIn(s.log))
    && (!s.Started() ==> InvokedIn(s.log) == [] && AllIdle(s))
    && (s.running ==> Drains(s, Winner(s.log).value))
    && (s.done ==> InvokedIn(s.log) == Reverse(AddedIn(s.log)) && AllIdle(s))
  }

  lemma StepKeepsInv(s: State, a: Action)
    requires Inv(s)
    ensures Inv(Step(s, a))
  {
    var s' := Step(s, a);
    if s' != s {
      StepLogs(s, a);
      if a.Add? || a.Clean? {
        CallStep(s, a);
      } else {
        DrainStep(s, a);
      }
    }
  }

  lemma CallStep(s: State, a: Action)
    requires Inv(s) && Step(s, a) != s
    requires a.Add? || a.Clean?
    ensures var s' := Step(s, a);
            && (!s'.Started() || s'.done ==> AllIdle(s'))
            && (s'.running ==> Drains(s', if s.Started() then Winner(s.log).value else a.t))
  {
    StepLogs(s, a);
    if a.Clean? && !s.Started() {
      FirstCleanFrames(s, Step(s, a), a.t);
    } else {
      SameFrames(s, Step(s, a));
    }
  }

  lemma SameFrames(s: State, s': State)
    requires s'.frames == s.frames
    ensures forall u :: s'.Frames(u) == s.Frames(u)
  {
  }

  lemma FirstCleanFrames(s: State, s': State, t: Thread)
    requires AllIdle(s) && s'.frames == s.frames[t := s.Frames(t) + [Draining(s.stack, |s.stack|)]]
    ensures DrainFrames(s'.Frames(t), s.stack, [])
    ensures forall u :: u != t ==> s'.Frames(u) == []
  {
    assert forall u :: u != t ==> s'.Frames(u) == s.Frames(u);
    assert Reverse(s.stack)[..0] == [];
  }

  /** A step that does something logs one event, and the event fits. */
  lemma StepLogs(s: State, a: Action)
    requires Inv(s) && Step(s, a) != s
    ensures var log' := Step(s, a).log;
            && |log'| == |s.log| + 1
            && var e := log'[|s.log|];
            && WellOrdered(log')
            && AddedIn(log') == AddedIn(s.log) + AddedBy(e)
            && InvokedIn(log') == InvokedIn(s.log) + InvokedBy(e)
            && Winner(log') == if e.CleanStarted? then Some(e.t) else Winner(s.log)
  {
    var log' := Step(s, a).log;
    var e := log'[|s.log|];
    assert log' == s.log + [e];
    LogExtends(s.log, e);
    assert Fits(e, Winner(s.log)) by {
      if s.running && s.Frames(a.t) != [] {
        assert a.t == Winner(s.log).value;
      }
    }
  }

  lemma DrainStep(s: State, a: Action)
    requires Inv(s) && Step(s, a) != s
    requires a.Invoke? || a.Complete? || a.Finish?
    ensures var s' := Step(s, a);
            if a.Complete? then s'.done && InvokedIn(s'.log) == Reverse(AddedIn(s'.log)) && AllIdle(s')
            else s'.running && Drains(s', a.t) && Winner(s'.log) == Some(a.t)
  {
    assert s.running && a.t == Winner(s.log).value;
    StepLogs(s, a);
    DrainStepFrames(s, a, AddedIn(s.log), InvokedIn(s.log));
  }

  lemma DrainStepFrames(s: State, a: Action, added: seq<FnId>, invoked: seq<FnId>)
    requires DrainFrames(s.Frames(a.t), added, invoked)
    requires forall u :: u != a.t ==> s.Frames(u) == []
    requires Step(s, a) != s && (a.Invoke? || a.Complete? || a.Finish?)
    ensures var s' := Step(s, a);
            if a.Complete? then invoked == Reverse(added) && AllIdle(s')
            else
              && DrainFrames(s'.Frames(a.t), added,
                             invoked + if a.Invoke? then [s'.log[|s.log|].fn] else [])
              && forall u :: u != a.t ==> s'.Frames(u) == []
  {
    var s' := Step(s, a);
    FrameStep(s.Frames(a.t), added, invoked);
    OtherFrames(s, s', a.t, s'.Frames(a.t));
    assert a.Complete? ==> s'.Frames(a.t) == [];
  }

  lemma OtherFrames(s: State, s': State, t: Thread, fs: seq<Frame>)
    requires s'.frames == s.frames[t := fs]
    ensures forall u :: u != t ==> s'.Frames(u) == s.Frames(u)
  {
  }

  lemma FrameStep(fs: seq<Frame>, added: seq<FnId>, invoked: seq<FnId>)
    requires DrainFrames(fs, added, invoked)
    ensures |fs| == 2 ==> DrainFrames(fs[..1], added, invoked)
    ensures |fs| == 1 && fs[0].left == 0 ==> fs[..0] == [] && invoked == Reverse(added)
    ensures |fs| == 1 && fs[0].left > 0 ==>
              var fn := added[fs[0].left - 1];
              DrainFrames(fs[..0] + [fs[0].(left := fs[0].left - 1), Inside(fn)], added, invoked + [fn])
  {
    var r, n := Reverse(added), |added| - fs[0].left;
    if n == |r| {
      assert r[..n] == r;
    } else {
      assert r[..n + 1] == r[..n] + [r[n]];
    }
  }

  lemma {:induction false} RunKeepsInv(s: State, actions: seq<Action>)
    requires Inv(s)
    ensures Inv(Run(s, actions))
  {
    if actions != [] {
      RunKeepsInv(s, actions[..|actions| - 1]);
      StepKeepsInv(Run(s, actions[..|actions| - 1]), actions[|actions| - 1]);
    }
  }

  // ----- main results -----

  /** Safety of every interleaving. The log is well ordered; the functions invoked so far
      are always the most recently added ones, latest first; and once the winning Clean has
      returned they are all of them, each exactly once. */
  lemma EveryInterleavingIsLifo(actions: seq<Action>)
    ensures var s := Run(INIT, actions);
            && WellOrdered(s.log)
            && InvokedIn(s.log) <= Reverse(AddedIn(s.log))
            && (s.done ==> InvokedIn(s.log) == Reverse(AddedIn(s.log)))
            && (Winner(s.log).Some? <==> s.Started())
            && (!s.Started() ==> s.stack == AddedIn(s.log))
  {
    RunKeepsInv(INIT, actions);
  }

  /** At most one Clean ever starts, and no Add succeeds after it. */
  lemma {:induction false} OneCleanStarts(actions: seq<Action>, i: nat, j: nat)
    requires i < j < |Run(INIT, actions).log|
    requires Run(INIT, actions).log[i].CleanStarted?
    ensures var e := Run(INIT, actions).log[j]; !e.CleanStarted? && !e.Added?
  {
    RunKeepsInv(INIT, actions);
    var log := Run(INIT, actions).log;
    StartIsRemembered(log[..j], i);
  }

  lemma {:induction false} StartIsRemembered(log: seq<Event>, i: nat)
    requires i < |log| && log[i].CleanStarted?
    ensures Winner(log).Some?
  {
    if i < |log| - 1 {
      StartIsRemembered(log[..|log| - 1], i);
    }
  }

  /** Once a Clean has started, the Cleaner never accepts work again. */
  lemma {:induction false} StartedForever(s: State, actions: seq<Action>)
    requires Inv(s) && s.Started()
    ensures Run(s, actions).Started()
    ensures Run(s, actions).stack == []
    ensures AddedIn(Run(s, actions).log) == AddedIn(s.log)
  {
    if actions != [] {
      var before := Run(s, actions[..|actions| - 1]);
      StartedForever(s, actions[..|actions| - 1]);
      RunKeepsInv(s, actions[..|actions| - 1]);
      StartedStep(before, actions[|actions| - 1]);
    }
  }

  lemma StartedStep(s: State, a: Action)
    requires Inv(s) && s.Started()
    ensures Step(s, a).Started() && Step(s, a).stack == []
    ensures AddedIn(Step(s, a).log) == AddedIn(s.log)
  {
    var s' := Step(s, a);
    if s' != s {
      assert s'.log == s.log + [s'.log[|s.log|]];
      LogExtends(s.log, s'.log[|s.log|]);
    }
  }

  // ----- progress -----

  lemma {:induction false} RunConcat(s: State, a: seq<Action>, b: seq<Action>)
    ensures Run(s, a + b) == Run(Run(s, a), b)
  {
    if b == [] {
      assert a + b == a;
    } else {
      assert (a + b)[..|a + b| - 1] == a + b[..|b| - 1];
      RunConcat(s, a, b[..|b| - 1]);
    }
  }

  /** How much of a drain is left: what has yet to start, and the function that is running. */
  function Left(fs: seq<Frame>): nat {
    if fs == [] || !fs[0].Draining? then 0 else 2 * fs[0].left + |fs|
  }

  /** The next thing the draining thread does. */
  function NextOf(t: Thread, fs: seq<Frame>): Action
    requires 1 <= |fs| <= 2 && fs[0].Draining?
  {
    if |fs| == 2 then Finish(t, C.Ok) else if fs[0].left > 0 then Invoke(t) else Complete(t)
  }

  lemma NextMakesProgress(s: State, t: Thread)
    requires Inv(s) && s.running && t == Winner(s.log).value
    ensures 1 <= |s.Frames(t)| <= 2 && s.Frames(t)[0].Draining?
    ensures var s' := Step(s, NextOf(t, s.Frames(t)));
            && s'.Started()
            && (s'.running ==> Winner(s'.log) == Some(t) && Left(s'.Frames(t)) < Left(s.Frames(t)))
  {
    var a := NextOf(t, s.Frames(t));
    var s' := Step(s, a);
    assert Drains(s, t);
    assert s' != s by {
      assert |s'.log| == |s.log| + 1;
    }
    DrainStep(s, a);
  }

  /** From wherever a drain has got to, it can be completed. */
  lemma {:induction false} CompletesFrom(s: State) returns (more: seq<Action>)
    requires Inv(s) && s.Started()
    ensures Run(s, more).done
    decreases if s.running then 1 + Left(s.Frames(Winner(s.log).value)) else 0
  {
    if s.running {
      var t := Winner(s.log).value;
      NextMakesProgress(s, t);
      var a := NextOf(t, s.Frames(t));
      StepKeepsInv(s, a);
      var rest := CompletesFrom(Step(s, a));
      more := [a] + rest;
      RunConcat(s, [a], rest);
      assert [a][..0] == [];
      assert Run(s, [a]) == Step(s, a);
    } else {
      more := [];
    }
  }

  /** Progress: in whatever state the threads have left the Cleaner, once a Clean has started
      it can go on to its end, with every function added invoked, latest first. */
  lemma StartedCleanCanComplete(actions: seq<Action>)
    requires Run(INIT, actions).Started()
    ensures exists more :: var s := Run(INIT, actions + more);
              s.done && InvokedIn(s.log) == Reverse(AddedIn(s.log))
  {
    RunKeepsInv(INIT, actions);
    var more := CompletesFrom(Run(INIT, actions));
    RunConcat(INIT, actions, more);
    RunKeepsInv(INIT, actions + more);
    var s := Run(INIT, actions + more);
    assert s.done && InvokedIn(s.log) == Reverse(AddedIn(s.log));
  }

  // ----- a Clean that is refused -----

  function FinishedBy(e: Event): seq<FnId> {
    if e.Finished? then [e.fn] else []
  }

  function FinishedIn(log: seq<Event>): seq<FnId> {
    Collect(log, FinishedBy)
  }

  /** The cleaner function that is being executed, if one is. */
  function Current(fs: seq<Frame>): seq<FnId> {
    if |fs| == 2 && fs[1].Inside? then [fs[1].fn] else []
  }

  function WinnerFrames(s: State): seq<Frame> {
    if Winner(s.log).Some? then s.Frames(Winner(s.log).value) else []
  }

  /** Every function invoked has finished, but for the one being executed; and the winning
      Clean has returned exactly when the Cleaner is done. */
  ghost predicate Ends(s: State) {
    && InvokedIn(s.log) == FinishedIn(s.log) + Current(WinnerFrames(s))
    && (s.done <==> exists t :: CleanReturned(t) in s.log)
  }

  lemma EndsStep(s: State, a: Action)
    requires Inv(s) && Ends(s)
    ensures Ends(Step(s, a))
  {
    var s' := Step(s, a);
    if s' != s {
      StepLogs(s, a);
      var e := s'.log[|s.log|];
      assert s'.log == s.log + [e];
      CollectEmit(s.log, FinishedBy, e);
      ReturnedStep(s, a);
      CurrentMoves(s, a);
      Regroup(FinishedIn(s.log), FinishedBy(e), Current(WinnerFrames(s')), Current(WinnerFrames(s)), InvokedBy(e));
    }
  }

  lemma Regroup<T>(all: seq<T>, a: seq<T>, b: seq<T>, c: seq<T>, d: seq<T>)
    requires a + b == c + d
    ensures (all + a) + b == (all + c) + d
  {
    assert (all + a) + b == all + (a + b);
    assert (all + c) + d == all + (c + d);
  }

  lemma ReturnedStep(s: State, a: Action)
    requires s.done <==> exists t :: CleanReturned(t) in s.log
    ensures Step(s, a).done <==> exists t :: CleanReturned(t) in Step(s, a).log
  {
    if a.Complete? && Step(s, a) != s {
      assert Step(s, a).log[|s.log|] == CleanReturned(a.t);
    } else {
      assert forall t :: CleanReturned(t) in Step(s, a).log <==> CleanReturned(t) in s.log;
    }
  }

  lemma CurrentMoves(s: State, a: Action)
    requires Inv(s) && Step(s, a) != s
    ensures var s' := Step(s, a);
            var e := s'.log[|s.log|];
            FinishedBy(e) + Current(WinnerFrames(s')) == Current(WinnerFrames(s)) + InvokedBy(e)
  {
    StepLogs(s, a);
    if a.Add? || a.Clean? {
      CallStep(s, a);
    } else {
      assert s.running && a.t == Winner(s.log).value;
      assert Drains(s, a.t);
      CurrentStep(s, a);
    }
  }

  lemma CurrentStep(s: State, a: Action)
    requires Step(s, a) != s && (a.Invoke? || a.Complete? || a.Finish?)
    requires DrainFrames(s.Frames(a.t), AddedIn(s.log), InvokedIn(s.log))
    ensures var e := Step(s, a).log[|s.log|];
            FinishedBy(e) + Current(Step(s, a).Frames(a.t)) == Current(s.Frames(a.t)) + InvokedBy(e)
  {
  }

  lemma {:induction false} RunKeepsEnds(actions: seq<Action>)
    ensures Ends(Run(INIT, actions))
  {
    if actions != [] {
      RunKeepsInv(INIT, actions[..|actions| - 1]);
      RunKeepsEnds(actions[..|actions| - 1]);
      EndsStep(Run(INIT, actions[..|actions| - 1]), actions[|actions| - 1]);
    }
  }

  /** A Clean that finds the Cleaner started is refused at once and waits for nothing. Every
      function added has been invoked by then iff the winner has none left to start, and has
      finished iff in addition the winner is inside none; the winner has returned iff the
      Cleaner is done. */
  lemma RefusedCleanFinds(actions: seq<Action>, t: Thread)
    requires Run(INIT, actions).Started() && Run(INIT, actions).InClientCode(t)
    ensures var s := Run(INIT, actions);
            && Step(s, Clean(t)) == s.(log := s.log + [CleanRefused(t)])
            && Winner(s.log).Some?
            && var fs := s.Frames(Winner(s.log).value);
            && (!s.done ==> fs != [] && fs[0].Draining?)
            && (InvokedIn(s.log) == Reverse(AddedIn(s.log)) <==> s.done || fs[0].left == 0)
            && (FinishedIn(s.log) == Reverse(AddedIn(s.log)) <==> s.done || (fs[0].left == 0 && |fs| == 1))
            && (s.done <==> CleanReturned(Winner(s.log).value) in s.log)
  {
    RunKeepsInv(INIT, actions);
    RunKeepsEnds(actions);
    var s := Run(INIT, actions);
    var winner := Winner(s.log).value;
    if s.running {
      assert Drains(s, winner);
      PrefixLengths(Reverse(AddedIn(s.log)), InvokedIn(s.log), FinishedIn(s.log), Current(s.Frames(winner)));
    }
    ReturnedByWinner(s);
  }

  lemma PrefixLengths(all: seq<FnId>, invoked: seq<FnId>, finished: seq<FnId>, current: seq<FnId>)
    requires invoked <= all && invoked == finished + current
    ensures invoked == all <==> |invoked| == |all|
    ensures finished == all <==> |invoked| == |all| && current == []
  {
    assert current == [] ==> finished == invoked;
    assert current != [] ==> |finished| < |all|;
  }

  lemma ReturnedByWinner(s: State)
    requires Inv(s) && Ends(s) && s.Started()
    ensures s.done <==> CleanReturned(Winner(s.log).value) in s.log
  {
    if s.done {
      var t :| CleanReturned(t) in s.log;
      var j :| 0 <= j < |s.log| && s.log[j] == CleanReturned(t);
      assert Fits(s.log[j], Winner(s.log[..j]));
      WinnerStays(s.log, j);
    }
  }

  lemma {:induction false} WinnerStays(log: seq<Event>, j: nat)
    requires WellOrdered(log) && j <= |log| && Winner(log[..j]).Some?
    ensures Winner(log) == Winner(log[..j])
  {
    if j < |log| {
      var init := log[..|log| - 1];
      assert init[..j] == log[..j];
      assert forall k :: 0 <= k < |init| ==> init[..k] == log[..k];
      WinnerStays(init, j);
      assert Fits(log[|log| - 1], Winner(init));
    } else {
      assert log[..j] == log;
    }
  }

  /** The refusal can come while nothing has been invoked yet. */
  lemma RefusedBeforeTheDrain()
    ensures exists actions :: var s := Run(INIT, actions);
              s.log == [Added(0, 1), CleanStarted(0), CleanRefused(1)] && InvokedIn(s.log) == []
  {
    var added := State([1], false, false, map[], [Added(0, 1)]);
    assert Run(INIT, []) == INIT;
    RunNext([], Add(0, 1));
    assert Run(INIT, [] + [Add(0, 1)]) == added;
    RunNext([] + [Add(0, 1)], Clean(0));
    var started := Step(added, Clean(0));
    assert started.log == [Added(0, 1), CleanStarted(0)] && started.Frames(1) == [];
    RunNext([] + [Add(0, 1)] + [Clean(0)], Clean(1));
    var s := Run(INIT, [] + [Add(0, 1)] + [Clean(0)] + [Clean(1)]);
    assert s.log == [Added(0, 1), CleanStarted(0), CleanRefused(1)];
    CollectNothing(s.log, InvokedBy);
  }

  lemma RunNext(actions: seq<Action>, a: Action)
    ensures Run(INIT, actions + [a]) == Step(Run(INIT, actions), a)
  {
    assert (actions + [a])[..|actions|] == actions;
  }
}
