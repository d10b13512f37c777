/** What acceptance by the automaton of LifecycleGrammar means for a trace, read directly off
    the trace: the flag comes before any teardown, teardown mirrors opening, and everything
    that must happen once does. */
module LifecycleFacts {
  import opened Basics
  import opened Lifecycle
  import opened LifecycleGrammar

  /** Effects of the framework's own shutdown sequence. */
  predicate Teardown(e: Event) {
    || (e.Callback? && e.phase.BeforeShutdown?)
    || e.Shutdown? || e.OnStop? || e.Clean? || e.Cleaning?
  }

  ghost predicate FlagBeforeTeardown(trace: seq<Event>) {
    forall i :: 0 <= i < |trace| && Teardown(trace[i]) ==> StoreFlag in trace[..i]
  }

  function NameOf(b: Served): seq<string> { [b.name] }
  function HttpNameOf(b: Served): seq<string> { if b.http then [b.name] else [] }

  function Names(order: seq<Served>): seq<string> { Collect(order, NameOf) }
  function HttpNames(order: seq<Served>): seq<string> { Collect(order, HttpNameOf) }

  function ListenedBy(e: Event): seq<string> { if e.Listen? then [e.name] else [] }
  function OpenedBy(e: Event): seq<string> { if e.Opened? then [e.name] else [] }
  function SpawnedBy(e: Event): seq<string> { if e.Spawn? then [e.name] else [] }
  function ShutdownBy(e: Event): seq<string> { if e.Shutdown? then [e.name] else [] }

  /** The bindings listened on, opened, given a serve loop and shut down, in the order of the
      trace. */
  function Listens(trace: seq<Event>): seq<string> { Collect(trace, ListenedBy) }
  function OpenedIn(trace: seq<Event>): seq<string> { Collect(trace, OpenedBy) }
  function Spawns(trace: seq<Event>): seq<string> { Collect(trace, SpawnedBy) }
  function Shutdowns(trace: seq<Event>): seq<string> { Collect(trace, ShutdownBy) }

  datatype Milestone = Timed | Untimed | Started | StoppedOnce | CleanedOnce

  predicate Marks(e: Event, m: Milestone) {
    match m
    case Timed => e.StartTimeoutSet?
    case Untimed => e.StartTimeoutCancelled?
    case Started => e.OnStart?
    case StoppedOnce => e.OnStop?
    case CleanedOnce => e.Clean?
  }

  function MarkedBy(e: Event, m: Milestone): seq<()> { if Marks(e, m) then [()] else [] }

  function Tally(trace: seq<Event>, m: Milestone): nat {
    |Collect(trace, e => MarkedBy(e, m))|
  }

  // ----- the flag -----

  predicate PastFlag(m: Mode) {
    m.Flagged? || m.Draining? || m.Closing? || m.Stopping? || m.Sweeping? || m.Finished?
  }

  ghost predicate FlagFacts(trace: seq<Event>, s: State) {
    && FlagBeforeTeardown(trace)
    && (StoreFlag in trace <==> PastFlag(s.mode))
  }

  lemma FlagStep(p: Plan, trace: seq<Event>, s: State, e: Event)
    requires FlagFacts(trace, s) && !NextMode(p, s, e).Stuck?
    ensures FlagFacts(trace + [e], Next(p, s, e))
  {
    var t := trace + [e];
    assert Teardown(e) ==> PastFlag(s.mode);
    forall i | 0 <= i < |t| && Teardown(t[i]) ensures StoreFlag in t[..i] {
      if i < |trace| {
        assert t[..i] == trace[..i];
      } else {
        assert t[..i] == trace;
      }
    }
    assert PastFlag(NextMode(p, s, e)) <==> PastFlag(s.mode) || e.StoreFlag?;
  }

  // ----- readiness -----

  predicate WasReady(m: Mode) {
    match m
    case Closing(_, normal) => normal
    case Stopping(normal) => normal
    case Sweeping(normal) => normal
    case _ => m.Running? || m.Warned? || m.Flagged? || m.Draining? || m.Finished?
  }

  lemma ReadyStep(p: Plan, s: State, e: Event)
    requires !NextMode(p, s, e).Stuck?
    ensures WasReady(NextMode(p, s, e)) <==> WasReady(s.mode) || e.Ready?
  {
  }

  // ----- opening and closing -----

  /** How the progress of the bindings shows in the mode. */
  predicate CountFits(p: Plan, s: State) {
    InStep(p, s.got) && ModeShows(s.mode, s.got) && EndsShow(p, s)
  }

  predicate InStep(p: Plan, g: Progress) {
    g.opens <= g.spawned <= g.listened <= g.opens + 1 && g.listened <= |p.order|
  }

  predicate ModeShows(m: Mode, g: Progress) {
    match m
    case Open(k) => g == Progress(k, k, k)
    case Listened(k) => g == Progress(k + 1, k, k)
    case Spawned(k) => g == Progress(k + 1, k + 1, k)
    case Probing(k) => g == Progress(k + 1, k + 1, k)
    case Refused => g == NO_PROGRESS
    case Failing(k) => g.opens == k
    case Closing(k, _) => k <= g.opens
    case _ => true
  }

  predicate EndsShow(p: Plan, s: State) {
    && (WasReady(s.mode) || s.mode.Greeted? ==> s.got.opens == |p.order|)
    && (s.mode.Idle? || s.mode.Announced? || s.mode.InOnStart? ==> s.got == NO_PROGRESS)
  }

  lemma InStepStep(p: Plan, s: State, e: Event)
    requires CountFits(p, s) && !NextMode(p, s, e).Stuck?
    ensures InStep(p, NextProgress(s.got, e))
  {
  }

  lemma ModeShowsStep(p: Plan, s: State, e: Event)
    requires CountFits(p, s) && !NextMode(p, s, e).Stuck?
    ensures ModeShows(NextMode(p, s, e), NextProgress(s.got, e))
  {
  }

  lemma EndsShowStep(p: Plan, s: State, e: Event)
    requires CountFits(p, s) && !NextMode(p, s, e).Stuck?
    ensures EndsShow(p, Next(p, s, e))
  {
  }

  lemma CountStep(p: Plan, s: State, e: Event)
    requires CountFits(p, s) && !NextMode(p, s, e).Stuck?
    ensures CountFits(p, Next(p, s, e))
  {
    InStepStep(p, s, e);
    ModeShowsStep(p, s, e);
    EndsShowStep(p, s, e);
  }

  lemma NamesConcat(a: seq<Served>, b: seq<Served>)
    ensures Names(a + b) == Names(a) + Names(b)
    ensures HttpNames(a + b) == HttpNames(a) + HttpNames(b)
  {
    CollectConcat(a, b, NameOf);
    CollectConcat(a, b, HttpNameOf);
  }

  lemma OneName(b: Served)
    ensures Names([b]) == NameOf(b) && HttpNames([b]) == HttpNameOf(b)
  {
    CollectEmit([], NameOf, b);
    CollectEmit([], HttpNameOf, b);
    assert [] + [b] == [b] && [] + NameOf(b) == NameOf(b) && [] + HttpNameOf(b) == HttpNameOf(b);
  }

  lemma OneMore(order: seq<Served>, k: nat)
    requires k < |order|
    ensures Names(order[..k + 1]) == Names(order[..k]) + [order[k].name]
  {
    assert order[..k + 1] == order[..k] + [order[k]];
    CollectEmit(order[..k], NameOf, order[k]);
  }

  /** The trace shows this progress: bindings are listened on, given a serve loop and opened in
      the order, each from the first. */
  predicate Shows(order: seq<Served>, g: Progress, listens: seq<string>, spawns: seq<string>, opens: seq<string>) {
    && g.listened <= |order| && g.spawned <= |order| && g.opens <= |order|
    && (listens, spawns, opens) == (Names(order[..g.listened]), Names(order[..g.spawned]), Names(order[..g.opens]))
  }

  /** The binding an event is about is the next one of its kind. */
  predicate NextInOrder(order: seq<Served>, g: Progress, e: Event) {
    && (e.Listen? ==> g.listened < |order| && order[g.listened].name == e.name)
    && (e.Spawn? ==> g.spawned < |order| && order[g.spawned].name == e.name)
    && (e.Opened? ==> g.opens < |order| && order[g.opens].name == e.name)
  }

  lemma OpensInOrder(p: Plan, s: State, e: Event)
    requires CountFits(p, s) && !NextMode(p, s, e).Stuck?
    ensures NextInOrder(p.order, s.got, e)
  {
  }

  lemma ShowsMore(order: seq<Served>, g: Progress, listens: seq<string>, spawns: seq<string>, opens: seq<string>,
                  e: Event)
    requires Shows(order, g, listens, spawns, opens) && NextInOrder(order, g, e)
    ensures Shows(order, NextProgress(g, e), listens + ListenedBy(e), spawns + SpawnedBy(e), opens + OpenedBy(e))
  {
    assert listens + [] == listens && spawns + [] == spawns && opens + [] == opens;
    if e.Listen? {
      OneMore(order, g.listened);
    } else if e.Spawn? {
      OneMore(order, g.spawned);
    } else if e.Opened? {
      OneMore(order, g.opens);
    }
  }

  /** The bindings shut down so far are the open ones from this index on. */
  function ClosedFrom(s: State): nat {
    if s.mode.Closing? then s.mode.k
    else if s.mode.Stopping? || s.mode.Sweeping? || s.mode.Finished? then 0
    else s.got.opens
  }

  predicate MirrorFacts(p: Plan, shut: seq<string>, s: State)
    requires CountFits(p, s)
  {
    shut == Reverse(HttpNames(p.order[ClosedFrom(s)..s.got.opens]))
  }

  /** Skipping bindings without a server does not change what has been shut down. */
  lemma SkipForeign(order: seq<Served>, lo: nat, hi: nat, count: nat)
    requires lo <= hi <= count <= |order| && forall j :: lo <= j < hi ==> !order[j].http
    ensures HttpNames(order[lo..count]) == HttpNames(order[hi..count])
  {
    assert order[lo..count] == order[lo..hi] + order[hi..count];
    NamesConcat(order[lo..hi], order[hi..count]);
    CollectNothing(order[lo..hi], HttpNameOf);
  }

  lemma MirrorStep(p: Plan, shut: seq<string>, s: State, e: Event)
    requires CountFits(p, s) && MirrorFacts(p, shut, s) && !NextMode(p, s, e).Stuck?
    ensures CountFits(p, Next(p, s, e))
    ensures MirrorFacts(p, shut + ShutdownBy(e), Next(p, s, e))
  {
    CountStep(p, s, e);
    if e.Shutdown? {
      ShutdownMirrors(p, s, e);
    } else {
      assert shut + [] == shut;
      OthersMirror(p, s, e);
    }
  }

  /** Nothing else changes which servers are left to shut down. */
  lemma OthersMirror(p: Plan, s: State, e: Event)
    requires CountFits(p, s) && CountFits(p, Next(p, s, e)) && !NextMode(p, s, e).Stuck? && !e.Shutdown?
    ensures HttpNames(p.order[ClosedFrom(Next(p, s, e))..Next(p, s, e).got.opens])
         == HttpNames(p.order[ClosedFrom(s)..s.got.opens])
  {
    MirrorModes(p, s, e);
    if e.OnStop? {
      SkipForeign(p.order, 0, ClosedFrom(s), s.got.opens);
    } else if e.Opened? {
      assert p.order[s.got.opens..s.got.opens] == [] && p.order[s.got.opens + 1..s.got.opens + 1] == [];
    }
  }

  lemma MirrorModes(p: Plan, s: State, e: Event)
    requires CountFits(p, s) && !NextMode(p, s, e).Stuck? && !e.Shutdown?
    ensures e.Opened? ==> ClosedFrom(s) == s.got.opens && ClosedFrom(Next(p, s, e)) == s.got.opens + 1
    ensures e.OnStop? ==> ClosedFrom(Next(p, s, e)) == 0 && ClosedFrom(s) <= s.got.opens
                          && forall j :: 0 <= j < ClosedFrom(s) ==> !p.order[j].http
    ensures !e.Opened? && !e.OnStop? ==> ClosedFrom(Next(p, s, e)) == ClosedFrom(s)
  {
  }

  lemma ShutdownMirrors(p: Plan, s: State, e: Event)
    requires CountFits(p, s) && e.Shutdown? && !NextMode(p, s, e).Stuck?
    ensures var k := NextMode(p, s, e).k;
            k <= s.got.opens &&
            Reverse(HttpNames(p.order[k..s.got.opens]))
              == Reverse(HttpNames(p.order[ClosedFrom(s)..s.got.opens])) + [e.name]
  {
    var k, m := NextMode(p, s, e).k, ToClose(p, s.mode).value.0;
    assert m == ClosedFrom(s);
    SkipForeign(p.order, k + 1, m, s.got.opens);
    assert p.order[k..s.got.opens] == [p.order[k]] + p.order[k + 1..s.got.opens];
    NamesConcat([p.order[k]], p.order[k + 1..s.got.opens]);
    OneName(p.order[k]);
    ReverseConcat([e.name], HttpNames(p.order[k + 1..s.got.opens]));
    assert Reverse([e.name]) == [e.name];
  }

  // ----- exactly once -----

  /** How often each milestone has been passed. */
  datatype Tallies = Tallies(started: int, stopped: int, cleaned: int, timed: int, untimed: int)

  function Tallied(trace: seq<Event>): Tallies {
    Tallies(Tally(trace, Started), Tally(trace, StoppedOnce), Tally(trace, CleanedOnce),
            Tally(trace, Timed), Tally(trace, Untimed))
  }

  function OneIf(c: bool): int { if c then 1 else 0 }

  /** What has to have happened when the automaton is in state s. */
  function Due(p: Plan, s: State): Tallies {
    var m := s.mode;
    var timed := OneIf(if m.Idle? || m.Announced? then s.armed else p.timed);
    Tallies(OneIf(!m.Idle? && !m.Announced?), OneIf(m.Stopping? || m.Sweeping? || m.Finished?),
            OneIf(m.Sweeping? || m.Finished?), timed, timed - OneIf(s.armed))
  }

  predicate OnceFacts(p: Plan, trace: seq<Event>, s: State) {
    Tallied(trace) == Due(p, s) && (s.mode.Idle? ==> !s.armed)
  }

  lemma TallyEmit(trace: seq<Event>, e: Event, m: Milestone)
    ensures Tally(trace + [e], m) == Tally(trace, m) + if Marks(e, m) then 1 else 0
  {
    CollectEmit(trace, e => MarkedBy(e, m), e);
  }

  lemma OnceStep(p: Plan, trace: seq<Event>, s: State, e: Event)
    requires OnceFacts(p, trace, s) && !NextMode(p, s, e).Stuck?
    ensures OnceFacts(p, trace + [e], Next(p, s, e))
  {
    TallyEmit(trace, e, Timed);
    TallyEmit(trace, e, Untimed);
    TallyEmit(trace, e, Started);
    TallyEmit(trace, e, StoppedOnce);
    TallyEmit(trace, e, CleanedOnce);
  }

  // ----- every accepted trace -----

  ghost predicate Facts(p: Plan, trace: seq<Event>, s: State) {
    && FlagFacts(trace, s)
    && (Ready in trace <==> WasReady(s.mode))
    && CountFits(p, s)
    && Shows(p.order, s.got, Listens(trace), Spawns(trace), OpenedIn(trace))
    && MirrorFacts(p, Shutdowns(trace), s)
    && OnceFacts(p, trace, s)
  }

  lemma NothingAfterStuck(p: Plan, s: State, e: Event)
    requires s.mode.Stuck?
    ensures NextMode(p, s, e).Stuck?
  {
  }

  lemma FactsStep(p: Plan, trace: seq<Event>, s: State, e: Event)
    requires Facts(p, trace, s) && !NextMode(p, s, e).Stuck?
    ensures Facts(p, trace + [e], Next(p, s, e))
  {
    FlagStep(p, trace, s, e);
    ReadyStep(p, s, e);
    CollectEmit(trace, OpenedBy, e);
    CollectEmit(trace, ListenedBy, e);
    CollectEmit(trace, SpawnedBy, e);
    CollectEmit(trace, ShutdownBy, e);
    CountStep(p, s, e);
    OpensInOrder(p, s, e);
    ShowsMore(p.order, s.got, Listens(trace), Spawns(trace), OpenedIn(trace), e);
    MirrorStep(p, Shutdowns(trace), s, e);
    OnceStep(p, trace, s, e);
  }

  lemma {:induction false} AcceptedTraces(p: Plan, trace: seq<Event>)
    requires !Parse(p, trace).mode.Stuck?
    ensures Facts(p, trace, Parse(p, trace))
  {
    if trace == [] {
      ParseEmpty(p);
      assert p.order[..0] == [] && p.order[0..0] == [];
    } else {
      var init, e := trace[..|trace| - 1], trace[|trace| - 1];
      assert trace == init + [e];
      ParseEmit(p, init, e);
      var s := Parse(p, init);
      if s.mode.Stuck? {
        NothingAfterStuck(p, s, e);
      }
      AcceptedTraces(p, init);
      FactsStep(p, init, s, e);
    }
  }

  lemma AcceptedReady(p: Plan, trace: seq<Event>)
    requires !Parse(p, trace).mode.Stuck?
    ensures Ready in trace <==> WasReady(Parse(p, trace).mode)
  {
    AcceptedTraces(p, trace);
  }

  lemma AcceptedFlag(p: Plan, trace: seq<Event>)
    requires !Parse(p, trace).mode.Stuck?
    ensures FlagFacts(trace, Parse(p, trace))
  {
    AcceptedTraces(p, trace);
  }

  lemma AcceptedCounts(p: Plan, trace: seq<Event>)
    requires !Parse(p, trace).mode.Stuck?
    ensures var s := Parse(p, trace);
            && Shows(p.order, s.got, Listens(trace), Spawns(trace), OpenedIn(trace))
            && (s.mode == Sweeping(false) || s.mode.Finished? || s.mode.Idle? ==>
                  Shutdowns(trace) == Reverse(HttpNames(p.order[..s.got.opens])))
  {
    AcceptedTraces(p, trace);
    var opens := Parse(p, trace).got.opens;
    assert p.order[0..opens] == p.order[..opens];
  }

  // ----- main results -----

  /** What a shutdown that has run to its end shows, whether it followed a normal run or a
      failed startup: OnStart, OnStop and Clean once each; every positive start timeout
      cancelled exactly once; and the HTTP bindings that were opened, and no others, shut
      down in the reverse of the order in which they were opened. */
  ghost predicate TornDown(p: Plan, trace: seq<Event>) {
    && Tallied(trace) == Tallies(1, 1, 1, OneIf(p.timed), OneIf(p.timed))
    && FlagBeforeTeardown(trace)
    && exists n :: 0 <= n <= |p.order| && MirrorsFirst(p, trace, n)
  }

  /** Exactly the first n bindings were opened; at most one more was tried, and at most that one
      has a serve loop without having been opened. */
  predicate MirrorsFirst(p: Plan, trace: seq<Event>, n: nat)
    requires n <= |p.order|
  {
    && OpenedIn(trace) == Names(p.order[..n])
    && Shutdowns(trace) == Reverse(HttpNames(p.order[..n]))
    && (Ready in trace ==> n == |p.order|)
    && (Listens(trace) == Names(p.order[..n]) || (n < |p.order| && Listens(trace) == Names(p.order[..n + 1])))
    && (Spawns(trace) == Names(p.order[..n]) || (Spawns(trace) == Listens(trace)))
  }

  lemma EndsTornDown(p: Plan, trace: seq<Event>)
    requires var s := Parse(p, trace); (s.mode == Finished || s.mode == Sweeping(false)) && !s.armed
    ensures TornDown(p, trace)
    ensures Ready in trace <==> Parse(p, trace).mode == Finished
  {
    AcceptedTraces(p, trace);
    var g := Parse(p, trace).got;
    assert p.order[0..g.opens] == p.order[..g.opens];
    assert g.listened == g.opens || g.listened == g.opens + 1;
    assert g.spawned == g.opens || g.spawned == g.listened;
    assert MirrorsFirst(p, trace, g.opens);
  }

  /** Serve returns success exactly when its trace contains "daemon ready"; unless it refuses
      to start or OnStart panics, its trace is that of one complete teardown. */
  lemma ServeGuarantees(bindings: seq<Served>, script: Script)
    ensures var w := NewWorld(bindings);
            var (w', exit) := Serve(w, script);
            && (exit == Some(0) <==> Ready in w'.trace)
            && (exit.Some? ==> exit.value in {0, 1})
            && (exit.Some? && script.addressOk ==>
                  && TornDown(ServePlan(w, script), w'.trace)
                  && Tallied(w'.trace).timed == Tallied(w'.trace).untimed == OneIf(script.onStartTimeout > 0))
            && (exit.None? ==> FlagBeforeTeardown(w'.trace) && StoreFlag !in w'.trace)
  {
    var w := NewWorld(bindings);
    var p := ServePlan(w, script);
    var (w', exit) := Serve(w, script);
    ServeIsAccepted(bindings, script);
    AcceptedReady(p, w'.trace);
    AcceptedFlag(p, w'.trace);
    if exit.Some? && script.addressOk {
      ServedIsNotIdle(bindings, script);
      EndsTornDown(p, w'.trace);
    }
  }

  /** Startup accounting. Once OnStart and the listing of the bindings have succeeded, with n
      the first binding that cannot be listened on or does not answer: the bindings before n
      are opened; n is tried, and has a serve loop exactly if it could be listened on; those
      after it are never tried. Otherwise none is. */
  ghost predicate Accounts(order: seq<Served>, begins: bool, script: Script, trace: seq<Event>) {
    var n := FirstFailure(order, 0, script);
    (OpenedIn(trace), Listens(trace), Spawns(trace)) ==
      if begins then
        (Names(order[..n]),
         Names(order[..if n < |order| then n + 1 else n]),
         Names(order[..n] + if n < |order| && script.listens(order[n].name) then [order[n]] else []))
      else ([], [], [])
  }

  /** The HTTP bindings that were opened are shut down, in reverse, and no others. */
  ghost predicate ClosesOpened(order: seq<Served>, begins: bool, script: Script, trace: seq<Event>) {
    Shutdowns(trace) == if begins then Reverse(HttpNames(order[..FirstFailure(order, 0, script)])) else []
  }

  /** Serve accounts for its bindings, shuts down exactly the opened ones, and succeeds exactly
      when startup gets to opening them and all come up. */
  lemma StartupAccounting(bindings: seq<Served>, script: Script)
    ensures var w := NewWorld(bindings);
            var (w', exit) := Serve(w, script);
            var order, begins := OrderOf(w, script, true), Begins(w, script, true);
            && Accounts(order, begins, script, w'.trace)
            && (exit.Some? ==> ClosesOpened(order, begins, script, w'.trace))
            && (exit == Some(EXIT_SUCCESS) <==> begins && forall b :: b in order ==> ComesUp(b, script))
  {
    var w := NewWorld(bindings);
    var p := ServePlan(w, script);
    ServeIsAccepted(bindings, script);
    LaunchParses(p, w, script, true);
    CountedBindings(p, Serve(w, script).0.trace, Begins(w, script, true), script);
  }

  /** Start accounts for its bindings in the same way; when it fails after OnStart it shuts down
      exactly the opened ones, and it succeeds exactly when all come up. */
  lemma StartAccounting(bindings: seq<Served>, script: Script)
    ensures var w := NewWorld(bindings);
            var (w', startup) := Launch(w, script, false);
            var order, begins := OrderOf(w, script, false), Begins(w, script, false);
            && Accounts(order, begins, script, w'.trace)
            && (startup.Aborted? ==> ClosesOpened(order, begins, script, w'.trace))
            && (startup.Up? <==> begins && forall b :: b in order ==> ComesUp(b, script))
  {
    var w := NewWorld(bindings);
    var p := StartPlan(w, script);
    LaunchParses(p, w, script, false);
    CountedBindings(p, Launch(w, script, false).0.trace, Begins(w, script, false), script);
  }

  /** Once a successful Start has been stopped, all its HTTP bindings have been shut down, in
      reverse. */
  lemma StopAccounting(t: seq<Event>, bindings: seq<Served>, script: Script)
    requires var w := NewWorld(bindings);
             && Launch(w, script, false).1.Up?
             && t == Stop(WhileUp(Launch(w, script, false).0, script), OrderOf(w, script, false), script).0.trace
    ensures var order := OrderOf(NewWorld(bindings), script, false);
            Accounts(order, true, script, t) && ClosesOpened(order, true, script, t)
  {
    var w := NewWorld(bindings);
    var p := StartPlan(w, script);
    LaunchParses(p, w, script, false);
    UpParses(p, Launch(w, script, false).0, script);
    CountedBindings(p, t, true, script);
  }

  lemma CountedBindings(p: Plan, trace: seq<Event>, begins: bool, script: Script)
    requires !Parse(p, trace).mode.Stuck?
    requires Parse(p, trace).got ==
             if begins then ProgressOf(p.order, FirstFailure(p.order, 0, script), script) else NO_PROGRESS
    ensures Accounts(p.order, begins, script, trace)
    ensures var m := Parse(p, trace).mode;
            m == Sweeping(false) || m.Finished? || m.Idle? ==> ClosesOpened(p.order, begins, script, trace)
  {
    AcceptedCounts(p, trace);
    var n := FirstFailure(p.order, 0, script);
    if begins {
      if n < |p.order| {
        assert p.order[..n + 1] == p.order[..n] + [p.order[n]];
      }
      assert p.order[..n] + [] == p.order[..n];
    } else {
      assert p.order[..0] == [];
    }
  }

  lemma ServedIsNotIdle(bindings: seq<Served>, script: Script)
    requires script.addressOk
    ensures var w := NewWorld(bindings); !Parse(ServePlan(w, script), Serve(w, script).0.trace).mode.Idle?
  {
    var w := NewWorld(bindings);
    LaunchParses(ServePlan(w, script), w, script, true);
    ServeIsAccepted(bindings, script);
  }

  /** Start leaves the flag unset and nothing torn down when it succeeds, and a complete
      teardown when it fails after OnStart. */
  lemma StartGuarantees(bindings: seq<Served>, script: Script)
    ensures var w := NewWorld(bindings);
            var (w1, startup) := Launch(w, script, false);
            var p := StartPlan(w, script);
            && (startup.Up? <==> Ready in w1.trace)
            && (startup.Up? ==> StoreFlag !in w1.trace && OpenedIn(w1.trace) == Names(p.order))
            && (startup.Aborted? ==> TornDown(p, w1.trace) && Tallied(w1.trace).timed == 0)
  {
    var w := NewWorld(bindings);
    var p := StartPlan(w, script);
    LaunchParses(p, w, script, false);
    var (w1, startup) := Launch(w, script, false);
    if startup.Aborted? {
      EndsTornDown(p, w1.trace);
    } else {
      AcceptedReady(p, w1.trace);
      if startup.Up? {
        UpFacts(p, w1.trace);
      }
    }
  }

  lemma UpFacts(p: Plan, trace: seq<Event>)
    requires Parse(p, trace).mode == Running
    ensures StoreFlag !in trace && OpenedIn(trace) == Names(p.order)
  {
    AcceptedTraces(p, trace);
    assert p.order[..|p.order|] == p.order;
  }

  /** Stop completes the teardown of a successful Start. */
  lemma StopGuarantees(p: Plan, t: seq<Event>, bindings: seq<Served>, script: Script)
    requires var w := NewWorld(bindings);
             && Launch(w, script, false).1.Up?
             && p == StartPlan(w, script)
             && t == Stop(WhileUp(Launch(w, script, false).0, script), p.order, script).0.trace
    ensures TornDown(p, t) && Ready in t
  {
    var w := NewWorld(bindings);
    LaunchParses(p, w, script, false);
    UpParses(p, Launch(w, script, false).0, script);
    AcceptedTraces(p, t);
    EndsTornDown(p, t);
  }
}
