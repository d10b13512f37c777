/** The code of scaffold.go: the objects Start and Serve work on, updated in place, and the
    loops that open the bindings, run the callbacks and tear everything down. Each method is
    proved against its function in module Lifecycle. */
module Daemons {
  import opened Basics
  import opened Lifecycle
  import C = Cleaners
  import B = BindingModel
  import S = BindingStores
  import L = ShutdownLaws

  /** What the lifecycle knows of these bindings: their names, and whether they are http. */
  ghost predicate Describes(r: seq<Served>, bs: seq<B.Binding>)
    reads bs`serveFunc
  {
    |r| == |bs| && forall i :: 0 <= i < |bs| ==> r[i] == ServedOf(bs[i])
  }

  function ServedOf(b: B.Binding): Served
    reads b`serveFunc
  {
    Served(b.name, b.serveFunc.None?)
  }

  /** What the shutdown goes by: whether a binding has an http.Server. */
  ghost predicate HasServers(r: seq<Served>, bs: seq<B.Binding>)
    reads bs`srv
  {
    |r| == |bs| && forall i :: 0 <= i < |bs| ==> r[i] == ServerOf(bs[i])
  }

  function ServerOf(b: B.Binding): Served
    reads b`srv
  {
    Served(b.name, b.srv.Some?)
  }

  /** As a binding is before it is opened. */
  predicate Untouched(b: B.Binding)
    reads b`finalHandler, b`addr, b`srv
  {
    b.finalHandler.None? && b.addr.None? && b.srv.None?
  }

  /** A binding that could not be opened has a server exactly if it could be listened on. */
  predicate KeepsServer(b: B.Binding, script: Script)
    reads b`srv, b`serveFunc
  {
    b.srv.Some? <==> script.listens(b.name) && b.serveFunc.None?
  }

  /** http_wire.go:9-17. */
  function NewHttpServer(b: B.Binding): B.HttpServer
    reads b
  {
    B.HttpServer(b.finalHandler, b.readTO, b.writeTO, b.idleTO, b.tls)
  }

  /** The server of the binding, if it has one, serves the pipeline its setters describe, with
      their timeouts and TLS config. */
  predicate ServesAsConfigured(b: B.Binding)
    reads b
  {
    b.srv.Some? ==>
      var c := b.View();
      && b.srv.value.handler == Some(B.Pipeline(c))
      && b.srv.value.readTO == c.readTO && b.srv.value.writeTO == c.writeTO && b.srv.value.idleTO == c.idleTO
      && b.srv.value.tls == c.tls
  }

  function ListOf(err: Option<Error>): seq<Error> {
    if err.Some? then [err.value] else []
  }

  /** The framework's logger, and with it the trace of everything that happens. */
  class Logger {
    var records: seq<Event>

    constructor ()
      ensures records == []
    {
      records := [];
    }

    method Emit(e: Event)
      modifies this
      ensures records == old(records) + [e]
    {
      records := records + [e];
    }

    method EmitAll(es: seq<Event>)
      modifies this
      ensures records == old(records) + es
    {
      records := records + es;
    }
  }

  // ----- registering a binding -----

  method Configure(b: B.Binding, served: Served)
    requires b.View() == B.EMPTY_CONFIG && b.name == served.name
    modifies b`serveFunc
    ensures ServedOf(b) == served
  {
    if !served.http {
      var _ := b.ServeFunc(Some(0));
    }
  }

  lemma DescribesMore(all: seq<Served>, bs: seq<B.Binding>, served: Served, b: B.Binding)
    requires Describes(all, bs) && ServedOf(b) == served
    ensures Describes(all + [served], bs + [b])
  {
  }

  method AddFresh(store: S.BindingStore, name: string, ghost all: seq<Served>) returns (b: Option<B.Binding>)
    requires store.Valid() && Describes(all, store.listing)
    modifies store
    ensures store.Valid()
    ensures b.Some? <==> forall s :: s in all ==> s.name != name
    ensures b.None? ==> store.listing == old(store.listing) && store.members == old(store.members)
    ensures b.Some? ==>
              && fresh(b.value) && b.value.name == name && b.value.View() == B.EMPTY_CONFIG && Untouched(b.value)
              && store.listing == old(store.listing) + [b.value] && store.members == old(store.members) + {b.value}
  {
    NameTaken(store, name, all);
    b := store.Add(name, "");
  }

  method NewBinding(store: S.BindingStore, served: Served, ghost all: seq<Served>) returns (ok: bool)
    requires store.Valid() && Describes(all, store.listing)
    modifies store
    ensures store.Valid()
    ensures ok <==> forall b :: b in all ==> b.name != served.name
    ensures Describes(if ok then all + [served] else all, store.listing)
    ensures fresh(store.members - old(store.members))
    ensures forall b :: b in store.members - old(store.members) ==> Untouched(b)
  {
    ghost var before := store.listing;
    var b := AddFresh(store, served.name, all);
    if b.None? {
      return false;
    }
    Configure(b.value, served);
    DescribesMore(all, before, served, b.value);
    assert store.members - old(store.members) <= {b.value} && Untouched(b.value);
    ok := true;
  }

  lemma NameTaken(store: S.BindingStore, name: string, all: seq<Served>)
    requires store.Valid() && Describes(all, store.listing)
    ensures name in store.order <==> exists b :: b in all && b.name == name
  {
    assert forall i :: 0 <= i < |all| ==> all[i].name == store.order[i];
    if name in store.order {
      var i :| 0 <= i < |store.order| && store.order[i] == name;
      assert all[i] in all;
    }
  }

  // ----- opening the bindings -----

  method Prepare(b: B.Binding)
    modifies b`finalHandler
    ensures b.finalHandler == if b.serveFunc.None? then Some(B.Pipeline(b.View())) else old(b.finalHandler)
  {
    if b.serveFunc.None? {
      var handler := b.BuildHandler();
      b.finalHandler := Some(handler);
    }
  }

  /** One pass of the loop of openBindings. Only an http binding gets a handler and a server,
      and only once the port could be listened on. */
  method OpenBinding(log: Logger, b: B.Binding, script: Script, ghost w: World) returns (ok: bool)
    requires Untouched(b) && w.trace == log.records
    modifies log, b`finalHandler, b`addr, b`srv
    ensures (w.(trace := log.records), ok) == OpenOne(w, ServedOf(b), script)
    ensures b.finalHandler == if b.serveFunc.None? then Some(B.Pipeline(b.View())) else None
    ensures script.listens(b.name) ==> ServerOf(b) == ServedOf(b) && b.addr.Some?
    ensures !script.listens(b.name) ==> b.srv.None? && b.addr.None?
    ensures ServesAsConfigured(b)
  {
    Prepare(b);
    log.Emit(Listen(b.name));
    if !script.listens(b.name) {
      log.Emit(ListenFailed(b.name));
      return false;
    }
    b.addr := Some(0);
    if b.serveFunc.None? {
      b.srv := Some(NewHttpServer(b));
    }
    log.Emit(Spawn(b.name));
    log.Emit(Listening(b.name));
    ok := script.answers(b.name);
    if !ok {
      log.Emit(ProbeFailed(b.name));
      return;
    }
    log.Emit(Opened(b.name));
  }

  /** The same as the i-th step of OpenBindings. */
  method OpenNext(log: Logger, b: B.Binding, script: Script,
                  ghost w: World, ghost served: seq<Served>, ghost i: nat, ghost all: Opening)
    returns (ok: bool)
    requires Untouched(b) && w.trace == log.records && i < |served| && served[i] == ServedOf(b)
    requires all == OpenBindings(w, served, i, script)
    modifies log, b`finalHandler, b`addr, b`srv
    ensures var w1 := w.(trace := log.records);
            all == if ok then OpenBindings(w1, served, i + 1, script) else Opening(w1, i, false)
    ensures ok ==> ServerOf(b) == served[i]
    ensures !ok ==> KeepsServer(b, script)
  {
    ok := OpenBinding(log, b, script, w);
  }

  lemma HasServersMore(all: seq<Served>, bs: seq<B.Binding>, served: Served, b: B.Binding)
    requires HasServers(all, bs) && ServerOf(b) == served
    ensures HasServers(all + [served], bs + [b])
  {
  }

  /** What openBindings returns is the prefix of the order that it opened. The bindings before
      the first failure have the server shutdown needs; the one that failed has it only if it
      was listened on; those after it are untouched. */
  method OpenAll(log: Logger, order: seq<B.Binding>, script: Script,
                 ghost w: World, ghost served: seq<Served>, ghost all: set<B.Binding>)
    returns (opens: seq<B.Binding>, ok: bool)
    requires NoDuplicates(order) && Describes(served, order) && w.trace == log.records
    requires forall k :: 0 <= k < |order| ==> Untouched(order[k])
    requires forall k :: 0 <= k < |order| ==> order[k] in all
    modifies log, all`finalHandler, all`addr, all`srv
    ensures Opening(w.(trace := log.records), |opens|, ok) == OpenBindings(w, served, 0, script)
    ensures opens <= order && HasServers(served[..|opens|], opens)
    ensures forall k :: |opens| < k < |order| ==> Untouched(order[k])
    ensures !ok ==> KeepsServer(order[|opens|], script)
  {
    opens := [];
    ghost var o := OpenBindings(w, served, 0, script);
    for i := 0 to |order|
      invariant opens == order[..i]
      invariant OpenBindings(w.(trace := log.records), served, i, script) == o
      invariant HasServers(served[..i], opens)
      invariant forall k :: i <= k < |order| ==> Untouched(order[k])
    {
      ok := OpenNext(log, order[i], script, w.(trace := log.records), served, i, o);
      if !ok {
        return;
      }
      assert HasServers(served[..i], opens);
      HasServersMore(served[..i], opens, served[i], order[i]);
      opens := opens + [order[i]];
      assert served[..i + 1] == served[..i] + [served[i]];
    }
    ok := true;
  }

  // ----- closing them -----

  /** Only a binding with an http.Server is shut down, and a panic is not an error. */
  method CloseBinding(log: Logger, b: B.Binding, script: Script, ctx: Ctx, ghost w: World) returns (err: Option<Error>)
    requires w.trace == log.records
    modifies log
    ensures (w.(trace := log.records), ListOf(err)) == ShutdownBinding(w, ServerOf(b), script, ctx)
  {
    if b.srv.None? {
      return None;
    }
    log.Emit(Shutdown(b.name, ctx));
    match script.closes(b.name) {
      case Drained => err := None;
      case Failed(e) =>
        log.Emit(ShutdownFailed(b.name));
        err := Some(ShutdownError(b.name, e));
      case Threw =>
        log.Emit(ShutdownPanicked(b.name));
        err := None;
    }
  }

  lemma CloseNext(w: World, order: seq<Served>, i: nat, script: Script, ctx: Ctx, errs: seq<Error>)
    returns (rest: seq<Error>)
    requires i < |order|
    ensures var (w1, es) := ShutdownBinding(w, order[i], script, ctx);
            && CloseBindings(w1, order, i, script, ctx) == (CloseBindings(w, order, i + 1, script, ctx).0, rest)
            && (errs + es) + rest == errs + CloseBindings(w, order, i + 1, script, ctx).1
  {
    rest := CloseBindings(ShutdownBinding(w, order[i], script, ctx).0, order, i, script, ctx).1;
  }

  /** The bindings in reverse order, each error appended to errs. */
  method CloseAll(log: Logger, order: seq<B.Binding>, script: Script, ctx: Ctx, ghost w: World,
                  ghost served: seq<Served>)
    returns (errs: seq<Error>)
    requires HasServers(served, order) && w.trace == log.records
    modifies log
    ensures (w.(trace := log.records), errs) == CloseBindings(w, served, |served|, script, ctx)
  {
    errs := [];
    var i := |order|;
    ghost var all := CloseBindings(w, served, |served|, script, ctx);
    ghost var rest := all.1;
    while i > 0
      invariant 0 <= i <= |order|
      invariant CloseBindings(w.(trace := log.records), served, i, script, ctx) == (all.0, rest)
      invariant errs + rest == all.1
    {
      i := i - 1;
      ghost var w1 := w.(trace := log.records);
      rest := CloseNext(w1, served, i, script, ctx, errs);
      var err := CloseBinding(log, order[i], script, ctx, w1);
      errs := errs + ListOf(err);
    }
    assert errs + [] == errs;
  }

  /** The shutdown touches only the bindings that were opened. */
  lemma {:induction false} ClosePrefix(w: World, order: seq<Served>, n: nat, k: nat, script: Script, ctx: Ctx)
    requires n <= k <= |order|
    ensures CloseBindings(w, order, n, script, ctx) == CloseBindings(w, order[..k], n, script, ctx)
    decreases n
  {
    if n > 0 {
      ClosePrefix(ShutdownBinding(w, order[n - 1], script, ctx).0, order, n - 1, k, script, ctx);
    }
  }

  class Daemon {
    var onListenReady: seq<Hook>
    var beforeShutdown: seq<Hook>
    const cleaner: C.Cleaner
    const store: S.BindingStore
    var flag: bool
    const log: Logger
    ghost var view: World

    /** view is what the objects stand for. */
    ghost predicate Valid()
      reads this, cleaner, store, log, store.listing`serveFunc
    {
      && store.Valid() && Describes(view.bindings, store.listing)
      && view == World(onListenReady, beforeShutdown, cleaner.View(), view.bindings, log.records)
    }

    constructor (store: S.BindingStore, ghost served: seq<Served>)
      requires store.Valid() && Describes(served, store.listing)
      ensures Valid() && fresh(cleaner) && fresh(log) && this.store == store
      ensures view == NewWorld(served)
      ensures !flag
    {
      onListenReady, beforeShutdown := [], [];
      var c := new C.Cleaner();
      cleaner := c;
      this.store := store;
      flag := false;
      var l := new Logger();
      log := l;
      view := NewWorld(served);
    }

    method Emit(e: Event)
      requires Valid()
      modifies this`view, log
      ensures Valid() && view == old(view).Emit(e)
    {
      log.Emit(e);
      view := view.Emit(e);
    }

    // ----- user code -----

    method RunUserCode(acts: seq<Act>) returns (outcome: Outcome)
      requires Valid()
      modifies this`onListenReady, this`beforeShutdown, log, this`view, cleaner, store
      ensures Valid()
      ensures (view, outcome) == RunActs(old(view), acts)
      ensures fresh(store.members - old(store.members))
      ensures forall b :: b in store.members - old(store.members) ==> Untouched(b)
    {
      var i := 0;
      while i < |acts|
        invariant 0 <= i <= |acts|
        invariant Valid()
        invariant RunActs(view, acts[i..]) == RunActs(old(view), acts)
        invariant fresh(store.members - old(store.members))
        invariant forall b :: b in store.members - old(store.members) ==> Untouched(b)
      {
        assert acts[i..][0] == acts[i] && acts[i..][1..] == acts[i + 1..];
        outcome := DoOne(acts[i]);
        if outcome == Panicked {
          return;
        }
        i := i + 1;
      }
      outcome := Returned;
    }

    method DoOne(a: Act) returns (outcome: Outcome)
      requires Valid()
      modifies this`onListenReady, this`beforeShutdown, log, this`view, cleaner, store
      ensures Valid()
      ensures outcome == Panicked <==> ActPanics(old(view), a)
      ensures view == if outcome == Panicked then old(view) else DoAct(old(view), a)
      ensures fresh(store.members - old(store.members))
      ensures forall b :: b in store.members - old(store.members) ==> Untouched(b)
    {
      outcome := Returned;
      match a {
        case Register(phase, h) =>
          match phase {
            case OnListenReady => onListenReady := onListenReady + [h];
            case BeforeShutdown => beforeShutdown := beforeShutdown + [h];
          }
          view := DoAct(view, a);
        case AddCleaner(fn) =>
          outcome := cleaner.Add(fn);
          if outcome == Returned {
            log.Emit(CleanerAdded(fn.id));
            view := DoAct(view, a);
          }
        case CleanNow =>
          var n := |cleaner.log|;
          var ok := cleaner.Clean();
          log.EmitAll(UserEvents(cleaner.log[n..]));
          assert ok ==> cleaner.log[n..] == C.DrainEvents(old(cleaner.stack));
          assert !ok ==> cleaner.log[n..] == [] && UserEvents([]) == [];
          view := DoAct(view, a);
        case AddBinding(served) =>
          outcome := AddBinding(served);
        case Panic =>
          outcome := Panicked;
      }
    }

    method AddBinding(served: Served) returns (outcome: Outcome)
      requires Valid()
      modifies this`view, store
      ensures Valid()
      ensures outcome == Panicked <==> old(view).HasBinding(served.name)
      ensures view == if outcome == Panicked then old(view)
                        else old(view).(bindings := old(view).bindings + [served])
      ensures fresh(store.members - old(store.members))
      ensures forall b :: b in store.members - old(store.members) ==> Untouched(b)
    {
      var ok := NewBinding(store, served, view.bindings);
      if !ok {
        return Panicked;
      }
      view := view.(bindings := view.bindings + [served]);
      outcome := Returned;
    }

    function Registered(phase: Phase): seq<Hook>
      reads this
    {
      match phase case OnListenReady => onListenReady case BeforeShutdown => beforeShutdown
    }

    method RunCallbacks(phase: Phase, ctx: Ctx)
      requires Valid()
      modifies this`onListenReady, this`beforeShutdown, log, this`view, cleaner, store
      ensures Valid()
      ensures view == Lifecycle.RunCallbacks(old(view), phase, 0, ctx)
    {
      var i := 0;
      while i < |Registered(phase)|
        invariant 0 <= i <= |Registered(phase)|
        invariant Valid() && Registered(phase) == view.Hooks(phase)
        invariant Lifecycle.RunCallbacks(view, phase, i, ctx) == Lifecycle.RunCallbacks(old(view), phase, 0, ctx)
        decreases Weight(Registered(phase)[i..])
      {
        RunHookAppends(view, phase, i, ctx, phase);
        RunCallback(phase, Registered(phase)[i], ctx);
        i := i + 1;
      }
    }

    method RunCallback(phase: Phase, fn: Hook, ctx: Ctx)
      requires Valid()
      modifies this`onListenReady, this`beforeShutdown, log, this`view, cleaner, store
      ensures Valid()
      ensures view == RunHook(old(view), phase, fn, ctx)
    {
      Emit(Callback(phase, fn.id, ctx));
      var outcome := RunUserCode(fn.acts);
      if outcome == Panicked {
        Emit(CallbackPanicked(phase));
      }
    }

    // ----- the shutdown sequence -----

    method StoreTrue()
      requires Valid()
      modifies log, this`view, this`flag
      ensures Valid() && view == old(view).Emit(StoreFlag) && flag
    {
      flag := true;
      log.Emit(StoreFlag);
      view := view.Emit(StoreFlag);
    }

    method CallOnStop(script: Script, ctx: Ctx) returns (err: Option<Error>)
      requires Valid()
      modifies this`onListenReady, this`beforeShutdown, log, this`view, cleaner, store
      ensures Valid()
      ensures (view, ListOf(err)) == Lifecycle.CallOnStop(old(view), script, ctx)
    {
      Emit(OnStop(ctx));
      var outcome := RunUserCode(script.onStop);
      err := None;
      if outcome == Panicked {
        Emit(OnStopPanicked);
      } else if script.stopError.Some? {
        Emit(OnStopFailed);
        err := Some(OnStopError(script.stopError.value));
      }
    }

    method CallClean(ctx: Ctx) returns (err: Option<Error>)
      requires Valid()
      modifies log, this`view, cleaner
      ensures Valid()
      ensures (view, ListOf(err)) == Lifecycle.CallClean(old(view), ctx)
    {
      Emit(Clean(ctx));
      var n := |cleaner.log|;
      var ok := cleaner.Clean();
      if ok {
        assert cleaner.log[n..] == C.DrainEvents(old(cleaner.stack));
        log.EmitAll(CleanEvents(cleaner.log[n..]));
        view := Lifecycle.CallClean(old(view), ctx).0;
        err := None;
      } else {
        Emit(CleanFailed);
        err := Some(DoubleClean);
      }
    }

    method RunShutdown(normal: bool, order: seq<B.Binding>, script: Script, ctx: Ctx, ghost served: seq<Served>)
      returns (errs: seq<Error>)
      requires Valid() && HasServers(served, order)
      modifies this`onListenReady, this`beforeShutdown, log, this`view, cleaner, store
      ensures Valid()
      ensures (view, errs) == Lifecycle.RunShutdown(old(view), normal, served, |order|, script, ctx)
    {
      if normal {
        RunCallbacks(BeforeShutdown, ctx);
      }
      errs := CloseAll(log, order, script, ctx, view, served);
      view := view.(trace := log.records);
      var err := CallOnStop(script, ctx);
      errs := errs + ListOf(err);
      err := CallClean(ctx);
      errs := errs + ListOf(err);
    }

    // ----- starting -----

    /** The shutdown of a startup that failed. */
    method Abort(order: seq<B.Binding>, script: Script, serving: bool, ghost served: seq<Served>)
      requires Valid() && HasServers(served, order)
      modifies this`onListenReady, this`beforeShutdown, log, this`view, this`flag, cleaner, store
      ensures Valid() && flag
      ensures view == Lifecycle.Abort(old(view), served, |order|, script, serving)
    {
      StoreTrue();
      var _ := RunShutdown(false, order, script, FailCtx(script, serving), served);
    }

    method Cancel(script: Script, serving: bool)
      requires Valid()
      modifies log, this`view
      ensures Valid() && view == Lifecycle.Cancel(old(view), script, serving)
    {
      if TimesStart(script, serving) {
        Emit(StartTimeoutCancelled);
      }
    }

    method GiveUp(logged: bool, script: Script, serving: bool)
      requires Valid()
      modifies this`onListenReady, this`beforeShutdown, log, this`view, this`flag, cleaner, store
      ensures Valid() && flag
      ensures view == Lifecycle.GiveUp(old(view), logged, script, serving)
    {
      Cancel(script, serving);
      if logged {
        Emit(StartErrorLogged);
      }
      Abort([], script, serving, []);
    }

    method Greet(script: Script, serving: bool)
      requires Valid()
      modifies this`onListenReady, this`beforeShutdown, log, this`view, cleaner, store
      ensures Valid() && view == Lifecycle.Greet(old(view), script, serving)
    {
      RunCallbacks(OnListenReady, StartCtx(script, serving));
      Cancel(script, serving);
      Emit(Ready);
    }

    /** Only the bindings that were opened are shut down. */
    method Withdraw(opens: seq<B.Binding>, script: Script, serving: bool, ghost served: seq<Served>)
      requires Valid() && |opens| <= |served| && HasServers(served[..|opens|], opens)
      modifies this`onListenReady, this`beforeShutdown, log, this`view, this`flag, cleaner, store
      ensures Valid() && flag
      ensures view == Lifecycle.Withdraw(old(view), served, |opens|, script, serving)
    {
      Cancel(script, serving);
      ClosePrefix(view.Emit(StoreFlag), served, |opens|, |opens|, script, FailCtx(script, serving));
      Abort(opens, script, serving, served[..|opens|]);
    }

    /** Opens the bindings registered so far, and only those. */
    method Open(script: Script) returns (opens: seq<B.Binding>, ok: bool)
      requires Valid()
      requires forall b :: b in store.members ==> Untouched(b)
      modifies this`view, log, store.members`finalHandler, store.members`addr, store.members`srv
      ensures Valid()
      ensures Opening(view, |opens|, ok) == OpenBindings(old(view), old(view).bindings, 0, script)
      ensures opens <= store.listing && HasServers(old(view).bindings[..|opens|], opens)
      ensures !ok ==> |opens| < |store.listing| && KeepsServer(store.listing[|opens|], script)
    {
      var order := store.OrderedBindings();
      opens, ok := OpenAll(log, order, script, view, view.bindings, store.members);
      assert store.Valid() == old(store.Valid());
      assert Describes(view.bindings, order) == old(Describes(view.bindings, store.listing));
      view := view.(trace := log.records);
    }

    /** What follows openBindings, which was called in `before`. */
    method Finish(ok: bool, opens: seq<B.Binding>, script: Script, serving: bool, ghost before: World)
      returns (startup: Startup)
      requires Valid() && Opening(view, |opens|, ok) == OpenBindings(before, before.bindings, 0, script)
      requires HasServers(before.bindings[..|opens|], opens)
      modifies this`onListenReady, this`beforeShutdown, log, this`view, this`flag, cleaner, store
      ensures Valid()
      ensures (view, startup) == Lifecycle.OpenAndGreet(before, script, serving)
      ensures flag <==> old(flag) || startup.Aborted?
      ensures startup.Up? <==> ok
    {
      if ok {
        Greet(script, serving);
        startup := Up;
      } else {
        Withdraw(opens, script, serving, before.bindings);
        startup := Aborted;
      }
    }

    method OpenAndGreet(script: Script, serving: bool) returns (startup: Startup, opens: seq<B.Binding>)
      requires Valid()
      requires forall b :: b in store.members ==> Untouched(b)
      modifies this`onListenReady, this`beforeShutdown, log, this`view, this`flag, cleaner, store
      modifies store.members`finalHandler, store.members`addr, store.members`srv
      ensures Valid()
      ensures (view, startup) == Lifecycle.OpenAndGreet(old(view), script, serving)
      ensures flag <==> old(flag) || startup.Aborted?
      ensures startup.Up? ==> opens == old(store.listing) && HasServers(old(view).bindings, opens)
    {
      var ok;
      opens, ok := Open(script);
      startup := Finish(ok, opens, script, serving, old(view));
    }

    method BeforeOnStart(script: Script, serving: bool)
      requires Valid()
      modifies this`view, log
      ensures Valid() && view == Lifecycle.BeforeOnStart(old(view), script, serving)
    {
      Emit(Starting);
      if TimesStart(script, serving) {
        Emit(StartTimeoutSet);
      }
      Emit(OnStart(StartCtx(script, serving)));
    }

    method AfterOnStart(script: Script, serving: bool) returns (startup: Startup, opens: seq<B.Binding>)
      requires Valid()
      requires forall b :: b in store.members ==> Untouched(b)
      modifies this`onListenReady, this`beforeShutdown, log, this`view, this`flag, cleaner, store
      modifies store.members`finalHandler, store.members`addr, store.members`srv
      ensures Valid()
      ensures (view, startup) == Lifecycle.AfterOnStart(old(view), script, serving)
      ensures flag <==> old(flag) || startup.Aborted?
      ensures startup.Up? ==> opens == old(store.listing) && HasServers(old(view).bindings, opens)
    {
      if script.startError.Some? {
        Emit(OnStartFailed);
        GiveUp(true, script, serving);
        return Aborted, [];
      }
      Emit(OnStartReturned);
      if !script.ordered {
        Emit(OrderFailed);
        GiveUp(serving, script, serving);
        return Aborted, [];
      }
      startup, opens := OpenAndGreet(script, serving);
    }

    /** Start and Serve up to "daemon ready": what is opened is what was registered when OnStart
        returned. */
    method Launch(script: Script, serving: bool) returns (startup: Startup, opens: seq<B.Binding>)
      requires Valid()
      requires forall b :: b in store.members ==> Untouched(b)
      modifies this`onListenReady, this`beforeShutdown, log, this`view, this`flag, cleaner, store
      modifies store.members`finalHandler, store.members`addr, store.members`srv
      ensures Valid()
      ensures (view, startup) == Lifecycle.Launch(old(view), script, serving)
      ensures flag <==> old(flag) || startup.Aborted?
      ensures startup.Up? ==> HasServers(OrderOf(old(view), script, serving), opens)
    {
      if !script.addressOk {
        return Rejected, [];
      }
      BeforeOnStart(script, serving);
      var outcome := RunUserCode(script.onStart);
      if outcome == Panicked {
        return Escaped, [];
      }
      startup, opens := AfterOnStart(script, serving);
    }

    method Serve(script: Script) returns (code: Option<int>)
      requires Valid()
      requires forall b :: b in store.members ==> Untouched(b)
      modifies this`onListenReady, this`beforeShutdown, log, this`view, this`flag, cleaner, store
      modifies store.members`finalHandler, store.members`addr, store.members`srv
      ensures Valid()
      ensures (view, code) == Lifecycle.Serve(old(view), script)
    {
      var startup, opens := Launch(script, true);
      match startup {
        case Escaped => code := None;
        case Rejected => code := Some(EXIT_FAILURE);
        case Aborted => code := Some(EXIT_FAILURE);
        case Up =>
          var _ := RunUserCode(script.running);
          StopServing(opens, script, OrderOf(old(view), script, true));
          code := Some(EXIT_SUCCESS);
      }
    }

    method StopServing(order: seq<B.Binding>, script: Script, ghost served: seq<Served>)
      requires Valid() && HasServers(served, order)
      modifies this`onListenReady, this`beforeShutdown, log, this`view, this`flag, cleaner, store
      ensures Valid() && flag
      ensures view == Lifecycle.StopServing(old(view), served, script)
    {
      Emit(Initiated);
      StoreTrue();
      var _ := RunShutdown(true, order, script, ServeStopCtx(script), served);
      Emit(Stopped);
    }

    method StopInstance(order: seq<B.Binding>, script: Script, ghost served: seq<Served>) returns (errs: seq<Error>)
      requires Valid() && HasServers(served, order)
      modifies this`onListenReady, this`beforeShutdown, log, this`view, this`flag, cleaner, store
      ensures Valid() && flag
      ensures (view, errs) == Lifecycle.Stop(old(view), served, script)
    {
      StoreTrue();
      Emit(Initiated);
      errs := RunShutdown(true, order, script, Enriched(StopCaller), served);
      Emit(Stopped);
    }

    method Start(script: Script) returns (startup: Startup, instance: Instance?)
      requires Valid()
      requires forall b :: b in store.members ==> Untouched(b)
      modifies this`onListenReady, this`beforeShutdown, log, this`view, this`flag, cleaner, store
      modifies store.members`finalHandler, store.members`addr, store.members`srv
      ensures Valid()
      ensures (view, startup) == Lifecycle.Launch(old(view), script, false)
      ensures instance != null <==> startup.Up?
      ensures instance != null ==>
                && instance.Valid() && instance.daemon == this && !instance.stopped
                && instance.served == OrderOf(old(view), script, false)
    {
      var opens;
      startup, opens := Launch(script, false);
      instance := null;
      if startup == Up {
        instance := new Instance(this, opens, OrderOf(old(view), script, false));
      }
    }
  }

  /** The handle Start returns. */
  class Instance {
    const daemon: Daemon
    const bindingsOrder: seq<B.Binding>
    ghost const served: seq<Served>
    var stopped: bool  // what once.Do has seen

    ghost predicate Valid()
      reads daemon, daemon.cleaner, daemon.store, daemon.log, daemon.store.listing`serveFunc, bindingsOrder`srv
    {
      daemon.Valid() && HasServers(served, bindingsOrder)
    }

    constructor (daemon: Daemon, order: seq<B.Binding>, ghost served: seq<Served>)
      requires daemon.Valid() && HasServers(served, order)
      ensures Valid() && this.daemon == daemon && this.served == served && !stopped
    {
      this.daemon, bindingsOrder, this.served, stopped := daemon, order, served, false;
    }

    /** The first Stop runs the shutdown sequence and returns its errors; any later one changes
        nothing and succeeds. */
    method Stop(script: Script) returns (errs: seq<Error>)
      requires Valid()
      modifies this, daemon`onListenReady, daemon`beforeShutdown, daemon`view, daemon`flag
      modifies daemon.log, daemon.cleaner, daemon.store
      ensures Valid() && stopped
      ensures old(stopped) ==> daemon.view == old(daemon.view) && errs == []
      ensures !old(stopped) ==> daemon.flag && (daemon.view, errs) == Lifecycle.Stop(old(daemon.view), served, script)
      ensures !old(stopped) ==> L.StopReturns(old(daemon.view), served, script, errs)
    {
      if stopped {
        return [];
      }
      stopped := true;
      L.StopErrors(daemon.view, served, script);
      errs := daemon.StopInstance(bindingsOrder, script, served);
    }
  }
}
