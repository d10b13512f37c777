/** scaffold.go as a function of a script of what the environment does: the hooks' bodies and
    errors, what user code does while the daemon is up, and the outcome of every listen,
    probe and server shutdown.
    Every effect is an event of one trace. Module Daemons holds the code that is proved
    against these functions; LifecycleGrammar and LifecycleRaces say what the traces mean. */
module Lifecycle {
  import opened Basics
  import C = Cleaners

  /** Contexts as chains: two roots besides Background, a deadline, and the values enrichCtx
      attaches. */
  datatype Ctx = Background | Caller | StopCaller | WithTimeout(parent: Ctx, d: int) | Enriched(parent: Ctx)

  datatype Phase = OnListenReady | BeforeShutdown

  /** What user code in a hook does, up to a panic if there is one. */
  datatype Act =
    | Register(phase: Phase, hook: Hook)
    | AddCleaner(fn: C.Fn)
    | CleanNow
    | AddBinding(b: Served)
    | Panic

  datatype Hook = Hook(id: nat, acts: seq<Act>)

  /** A binding as the lifecycle sees it: http, or with a ServeFunc that owns its listener. */
  datatype Served = Served(name: string, http: bool)

  datatype Event =
    | Starting
    | StartTimeoutSet
    | StartTimeoutCancelled
    | OnStart(ctx: Ctx)
    | OnStartReturned
    | OnStartFailed
    | OrderFailed
    | StartErrorLogged
    | Listen(name: string)
    | ListenFailed(name: string)
    | Spawn(name: string)
    | Listening(name: string)
    | Opened(name: string)
    | ProbeFailed(name: string)
    | Callback(phase: Phase, id: nat, ctx: Ctx)
    | CallbackPanicked(phase: Phase)
    | Ready
    | Initiated
    | StoreFlag
    | Shutdown(name: string, ctx: Ctx)
    | ShutdownFailed(name: string)
    | ShutdownPanicked(name: string)
    | OnStop(ctx: Ctx)
    | OnStopFailed
    | OnStopPanicked
    | Clean(ctx: Ctx)
    | CleanFailed
    | Stopped
    // what user code does inside the hooks
    | CleanerAdded(id: nat)
    | Cleaning(e: C.Event)      // during the Clean that ends a shutdown
    | UserCleaning(e: C.Event)  // during a Clean that a hook called itself

  datatype Error = ShutdownError(name: string, e: nat) | OnStopError(e: nat) | DoubleClean

  datatype Closing = Drained | Failed(e: nat) | Threw

  datatype Script = Script(
    addressOk: bool,
    onStart: seq<Act>, startError: Option<nat>, onStartTimeout: int,
    running: seq<Act>,
    onStop: seq<Act>, stopError: Option<nat>, onStopTimeout: int,
    ordered: bool,
    listens: string -> bool, answers: string -> bool, closes: string -> Closing)

  /** The shared state of a run. */
  datatype World = World(
    ready: seq<Hook>, before: seq<Hook>, cleaner: C.State, bindings: seq<Served>, trace: seq<Event>)
  {
    function Emit(e: Event): World { this.(trace := trace + [e]) }
    function EmitAll(es: seq<Event>): World { this.(trace := trace + es) }

    function Hooks(phase: Phase): seq<Hook> {
      match phase case OnListenReady => ready case BeforeShutdown => before
    }

    function AddHook(phase: Phase, h: Hook): World {
      match phase
      case OnListenReady => this.(ready := ready + [h])
      case BeforeShutdown => this.(before := before + [h])
    }

    predicate HasBinding(name: string) {
      exists b :: b in bindings && b.name == name
    }
  }

  function NewWorld(bindings: seq<Served>): World {
    World([], [], C.FRESH, bindings, [])
  }

  // ----- user code -----

  function UserEvents(es: seq<C.Event>): (r: seq<Event>)
    ensures |r| == |es| && forall i :: 0 <= i < |es| ==> r[i] == UserCleaning(es[i])
  {
    seq(|es|, i requires 0 <= i < |es| => UserCleaning(es[i]))
  }

  function CleanEvents(es: seq<C.Event>): (r: seq<Event>)
    ensures |r| == |es| && forall i :: 0 <= i < |es| ==> r[i] == Cleaning(es[i])
  {
    seq(|es|, i requires 0 <= i < |es| => Cleaning(es[i]))
  }

  const CLEANED_UP := C.State([], false, true)

  predicate ActPanics(w: World, a: Act) {
    match a
    case AddCleaner(_) => w.cleaner.Started()
    case AddBinding(b) => w.HasBinding(b.name)
    case Panic => true
    case _ => false
  }

  function DoAct(w: World, a: Act): World
    requires !ActPanics(w, a)
  {
    match a
    case Register(phase, h) => w.AddHook(phase, h)
    case AddCleaner(fn) => w.(cleaner := w.cleaner.(stack := w.cleaner.stack + [fn])).Emit(CleanerAdded(fn.id))
    case CleanNow =>
      if w.cleaner.Started() then w
      else w.(cleaner := CLEANED_UP).EmitAll(UserEvents(C.DrainEvents(w.cleaner.stack)))
    case AddBinding(b) => w.(bindings := w.bindings + [b])
  }

  function RunActs(w: World, acts: seq<Act>): (World, Outcome)
    decreases |acts|
  {
    if acts == [] then (w, Returned)
    else if ActPanics(w, acts[0]) then (w, Panicked)
    else RunActs(DoAct(w, acts[0]), acts[1..])
  }

  // ----- callbacks -----

  /** How many callbacks a list of hooks can lead to, itself included. */
  function Weight(hooks: seq<Hook>): nat {
    if hooks == [] then 0 else HookWeight(hooks[0]) + Weight(hooks[1..])
  }

  function HookWeight(h: Hook): nat
    decreases h
  {
    1 + ActsWeight(h.acts)
  }

  function ActsWeight(acts: seq<Act>): nat
    decreases acts
  {
    if acts == [] then 0
    else ActWeight(acts[0]) + ActsWeight(acts[1..])
  }

  function ActWeight(a: Act): nat
    decreases a
  {
    if a.Register? then HookWeight(a.hook) else 0
  }

  lemma {:induction false} WeightConcat(a: seq<Hook>, b: seq<Hook>)
    ensures Weight(a + b) == Weight(a) + Weight(b)
  {
    if a == [] {
      assert a + b == b;
    } else {
      assert (a + b)[0] == a[0] && (a + b)[1..] == a[1..] + b;
      WeightConcat(a[1..], b);
    }
  }

  /** User code only appends to the lists of callbacks, and only what its acts contain. */
  lemma {:induction false} ActsAppend(w: World, acts: seq<Act>, phase: Phase)
    ensures var w' := RunActs(w, acts).0;
            && w.Hooks(phase) <= w'.Hooks(phase)
            && Weight(w'.Hooks(phase)[|w.Hooks(phase)|..]) <= ActsWeight(acts)
    decreases |acts|
  {
    if acts == [] || ActPanics(w, acts[0]) {
      assert w.Hooks(phase)[|w.Hooks(phase)|..] == [];
    } else {
      var a, w1, w' := acts[0], DoAct(w, acts[0]), RunActs(w, acts).0;
      ActsAppend(w1, acts[1..], phase);
      var l, l1, l' := w.Hooks(phase), w1.Hooks(phase), w'.Hooks(phase);
      if a.Register? && a.phase == phase {
        assert l1 == l + [a.hook];
        assert l'[|l|..] == [a.hook] + l'[|l1|..];
        WeightConcat([a.hook], l'[|l1|..]);
        assert [a.hook][1..] == [];
        assert Weight([a.hook]) == HookWeight(a.hook);
      } else {
        assert l1 == l;
      }
    }
  }

  /** One callback, its panic recovered and logged. */
  function RunHook(w: World, phase: Phase, h: Hook, ctx: Ctx): World {
    var (w1, outcome) := RunActs(w.Emit(Callback(phase, h.id, ctx)), h.acts);
    if outcome == Panicked then w1.Emit(CallbackPanicked(phase)) else w1
  }

  lemma RunHookAppends(w: World, phase: Phase, i: nat, ctx: Ctx, p: Phase)
    requires i < |w.Hooks(phase)|
    ensures var w' := RunHook(w, phase, w.Hooks(phase)[i], ctx);
            && w.Hooks(p) <= w'.Hooks(p)
            && (p == phase ==> Weight(w'.Hooks(p)[i + 1..]) < Weight(w.Hooks(p)[i..]))
  {
    var h := w.Hooks(phase)[i];
    ActsAppend(w.Emit(Callback(phase, h.id, ctx)), h.acts, p);
    if p == phase {
      WeightStep(w.Hooks(p), RunHook(w, phase, h, ctx).Hooks(p), i);
    }
  }

  lemma WeightStep(l: seq<Hook>, l': seq<Hook>, i: nat)
    requires i < |l| && l <= l' && Weight(l'[|l|..]) <= ActsWeight(l[i].acts)
    ensures Weight(l'[i + 1..]) < Weight(l[i..])
  {
    assert l'[i + 1..] == l[i + 1..] + l'[|l|..];
    WeightConcat(l[i + 1..], l'[|l|..]);
    assert l[i..][1..] == l[i + 1..];
  }

  /** runCallbacks from index i: callbacks registered on the way run in the same pass. */
  function RunCallbacks(w: World, phase: Phase, i: nat, ctx: Ctx): World
    requires i <= |w.Hooks(phase)|
    decreases Weight(w.Hooks(phase)[i..])
  {
    if i == |w.Hooks(phase)| then w
    else
      RunHookAppends(w, phase, i, ctx, phase);
      RunCallbacks(RunHook(w, phase, w.Hooks(phase)[i], ctx), phase, i + 1, ctx)
  }

  // ----- opening the bindings -----

  datatype Opening = Opening(w: World, count: nat, ok: bool)

  function OpenOne(w: World, b: Served, script: Script): (World, bool) {
    var w1 := w.Emit(Listen(b.name));
    if !script.listens(b.name) then (w1.Emit(ListenFailed(b.name)), false)
    else
      var w2 := w1.Emit(Spawn(b.name)).Emit(Listening(b.name));
      if script.answers(b.name) then (w2.Emit(Opened(b.name)), true)
      else (w2.Emit(ProbeFailed(b.name)), false)
  }

  /** openBindings from the k-th binding on. */
  function OpenBindings(w: World, order: seq<Served>, k: nat, script: Script): (o: Opening)
    requires k <= |order|
    ensures k <= o.count <= |order| && (o.ok <==> o.count == |order|)
    decreases |order| - k
  {
    if k == |order| then Opening(w, k, true)
    else
      var (w1, ok) := OpenOne(w, order[k], script);
      if ok then OpenBindings(w1, order, k + 1, script) else Opening(w1, k, false)
  }

  // ----- the shutdown sequence -----

  function ShutdownBinding(w: World, b: Served, script: Script, ctx: Ctx): (World, seq<Error>) {
    if !b.http then (w, [])
    else
      var w1 := w.Emit(Shutdown(b.name, ctx));
      match script.closes(b.name)
      case Drained => (w1, [])
      case Failed(e) => (w1.Emit(ShutdownFailed(b.name)), [ShutdownError(b.name, e)])
      case Threw => (w1.Emit(ShutdownPanicked(b.name)), [])
  }

  /** The first n bindings of the order, from the last to the first. */
  function CloseBindings(w: World, order: seq<Served>, n: nat, script: Script, ctx: Ctx): (World, seq<Error>)
    requires n <= |order|
    decreases n
  {
    if n == 0 then (w, [])
    else
      var (w1, es) := ShutdownBinding(w, order[n - 1], script, ctx);
      var (w2, rest) := CloseBindings(w1, order, n - 1, script, ctx);
      (w2, es + rest)
  }

  function CallOnStop(w: World, script: Script, ctx: Ctx): (World, seq<Error>) {
    var (w1, outcome) := RunActs(w.Emit(OnStop(ctx)), script.onStop);
    if outcome == Panicked then (w1.Emit(OnStopPanicked), [])
    else if script.stopError.Some? then (w1.Emit(OnStopFailed), [OnStopError(script.stopError.value)])
    else (w1, [])
  }

  function CallClean(w: World, ctx: Ctx): (World, seq<Error>) {
    var w1 := w.Emit(Clean(ctx));
    if w.cleaner.Started() then (w1.Emit(CleanFailed), [DoubleClean])
    else (w1.(cleaner := CLEANED_UP).EmitAll(CleanEvents(C.DrainEvents(w.cleaner.stack))), [])
  }

  /** runShutdown; `normal` tells whether the before-shutdown callbacks run. */
  function RunShutdown(w: World, normal: bool, order: seq<Served>, count: nat, script: Script, ctx: Ctx):
    (World, seq<Error>)
    requires count <= |order|
  {
    var w1 := if normal then RunCallbacks(w, BeforeShutdown, 0, ctx) else w;
    var (w2, closing) := CloseBindings(w1, order, count, script, ctx);
    var (w3, stopping) := CallOnStop(w2, script, ctx);
    var (w4, cleaning) := CallClean(w3, ctx);
    (w4, closing + stopping + cleaning)
  }

  // ----- Start, Stop and Serve -----

  /** Up: the daemon is ready. Aborted: startup failed and was cleaned up. Rejected: refused
      before OnStart. Escaped: OnStart panicked, and the panic left Start or Serve. */
  datatype Startup = Up | Aborted | Rejected | Escaped

  function StartCtx(script: Script, serving: bool): Ctx {
    if serving && script.onStartTimeout > 0 then Enriched(WithTimeout(Caller, script.onStartTimeout))
    else Enriched(Caller)
  }

  /** buildShutdownCtx, enriched. */
  function ServeStopCtx(script: Script): Ctx {
    if script.onStopTimeout > 0 then Enriched(WithTimeout(Background, script.onStopTimeout)) else Enriched(Background)
  }

  /** The context of the shutdown that follows a failed startup. */
  function FailCtx(script: Script, serving: bool): Ctx {
    if serving then ServeStopCtx(script) else StartCtx(script, false)
  }

  predicate TimesStart(script: Script, serving: bool) {
    serving && script.onStartTimeout > 0
  }

  function Cancel(w: World, script: Script, serving: bool): World {
    if TimesStart(script, serving) then w.Emit(StartTimeoutCancelled) else w
  }

  function Abort(w: World, order: seq<Served>, count: nat, script: Script, serving: bool): World
    requires count <= |order|
  {
    RunShutdown(w.Emit(StoreFlag), false, order, count, script, FailCtx(script, serving)).0
  }

  /** The events up to the call of OnStart. */
  function BeforeOnStart(w: World, script: Script, serving: bool): World {
    var w1 := w.Emit(Starting);
    (if TimesStart(script, serving) then w1.Emit(StartTimeoutSet) else w1).Emit(OnStart(StartCtx(script, serving)))
  }

  /** What Start and Serve have in common, up to "daemon ready". */
  function Launch(w: World, script: Script, serving: bool): (World, Startup) {
    if !script.addressOk then (w, Rejected)
    else
      var (w1, outcome) := RunActs(BeforeOnStart(w, script, serving), script.onStart);
      if outcome == Panicked then (w1, Escaped) else AfterOnStart(w1, script, serving)
  }

  function AfterOnStart(w: World, script: Script, serving: bool): (World, Startup) {
    if script.startError.Some? then (GiveUp(w.Emit(OnStartFailed), true, script, serving), Aborted)
    else if !script.ordered then
      (GiveUp(w.Emit(OnStartReturned).Emit(OrderFailed), serving, script, serving), Aborted)
    else OpenAndGreet(w.Emit(OnStartReturned), script, serving)
  }

  /** The end of a startup that fails before any binding is opened. */
  function GiveUp(w: World, logged: bool, script: Script, serving: bool): World {
    var w1 := Cancel(w, script, serving);
    Abort(if logged then w1.Emit(StartErrorLogged) else w1, [], 0, script, serving)
  }

  /** The bindings are those registered when OnStart returned. */
  function OpenAndGreet(w: World, script: Script, serving: bool): (World, Startup) {
    var order := w.bindings;
    var o := OpenBindings(w, order, 0, script);
    if o.ok then (Greet(o.w, script, serving), Up) else (Withdraw(o.w, order, o.count, script, serving), Aborted)
  }

  function Greet(w: World, script: Script, serving: bool): World {
    Cancel(RunCallbacks(w, OnListenReady, 0, StartCtx(script, serving)), script, serving).Emit(Ready)
  }

  /** The end of a startup that fails after opening `count` bindings. */
  function Withdraw(w: World, order: seq<Served>, count: nat, script: Script, serving: bool): World
    requires count <= |order|
  {
    Abort(Cancel(w, script, serving), order, count, script, serving)
  }

  /** The bindings a launch opens. */
  function OrderOf(w: World, script: Script, serving: bool): seq<Served> {
    RunActs(BeforeOnStart(w, script, serving), script.onStart).0.bindings
  }

  predicate ComesUp(b: Served, script: Script) {
    script.listens(b.name) && script.answers(b.name)
  }

  /** The first binding from k on that cannot be opened, if there is one. */
  function FirstFailure(order: seq<Served>, k: nat, script: Script): (n: nat)
    requires k <= |order|
    ensures k <= n <= |order|
    ensures forall j :: k <= j < n ==> ComesUp(order[j], script)
    ensures n < |order| ==> !ComesUp(order[n], script)
    decreases |order| - k
  {
    if k == |order| || !ComesUp(order[k], script) then k else FirstFailure(order, k + 1, script)
  }

  /** How many bindings have been listened on, given a serve loop, and opened: always the first
      ones of the order. */
  datatype Progress = Progress(listened: nat, spawned: nat, opens: nat)

  const NO_PROGRESS := Progress(0, 0, 0)

  /** The progress of openBindings when n is the first binding that fails: n has been tried if
      it exists, and its serve loop runs if it could be listened on. */
  function ProgressOf(order: seq<Served>, n: nat, script: Script): Progress
    requires n <= |order|
  {
    Progress(if n < |order| then n + 1 else n,
             if n < |order| && script.listens(order[n].name) then n + 1 else n,
             n)
  }

  /** Whether a launch gets as far as opening bindings. */
  predicate Begins(w: World, script: Script, serving: bool) {
    && script.addressOk && script.startError.None? && script.ordered
    && RunActs(BeforeOnStart(w, script, serving), script.onStart).1 == Returned
  }

  /** User code while the daemon is up. */
  function WhileUp(w: World, script: Script): World {
    RunActs(w, script.running).0
  }

  /** Instance.Stop, when it is the first. */
  function Stop(w: World, order: seq<Served>, script: Script): (World, seq<Error>) {
    var (w1, errs) :=
      RunShutdown(w.Emit(StoreFlag).Emit(Initiated), true, order, |order|, script, Enriched(StopCaller));
    (w1.Emit(Stopped), errs)
  }

  const EXIT_SUCCESS := 0
  const EXIT_FAILURE := 1

  /** Serve returns an exit code unless OnStart's panic escapes from it. */
  function Serve(w: World, script: Script): (World, Option<int>) {
    var (w1, startup) := Launch(w, script, true);
    match startup
    case Escaped => (w1, None)
    case Rejected => (w1, Some(EXIT_FAILURE))
    case Aborted => (w1, Some(EXIT_FAILURE))
    case Up => (StopServing(WhileUp(w1, script), OrderOf(w, script, true), script), Some(EXIT_SUCCESS))
  }

  function StopServing(w: World, order: seq<Served>, script: Script): World {
    RunShutdown(w.Emit(Initiated).Emit(StoreFlag), true, order, |order|, script, ServeStopCtx(script)).0.Emit(Stopped)
  }
}
