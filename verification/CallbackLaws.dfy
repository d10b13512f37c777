/** runCallbacks (scaffold.go:222-239) over a list that grows while it is walked. */
module CallbackLaws {
  import opened Basics
  import opened Lifecycle

  function IdsOf(hooks: seq<Hook>): seq<nat> {
    Map(hooks, (h: Hook) => h.id)
  }

  function CalledBy(e: Event, phase: Phase): seq<nat> {
    if e.Callback? && e.phase == phase then [e.id] else []
  }

  /** The callbacks of a phase that a trace shows being called. */
  function Called(trace: seq<Event>, phase: Phase): seq<nat> {
    Collect(trace, e => CalledBy(e, phase))
  }

  lemma CalledEmit(trace: seq<Event>, e: Event, phase: Phase)
    ensures Called(trace + [e], phase) == Called(trace, phase) + CalledBy(e, phase)
  {
    CollectEmit(trace, e => CalledBy(e, phase), e);
  }

  lemma CalledNothing(trace: seq<Event>, es: seq<Event>, phase: Phase)
    requires forall e :: e in es ==> !e.Callback?
    ensures Called(trace + es, phase) == Called(trace, phase)
  {
    CollectConcat(trace, es, e => CalledBy(e, phase));
    CollectNothing(es, e => CalledBy(e, phase));
  }

  /** Events of user code itself. */
  predicate OfUserCode(e: Event) {
    e.CleanerAdded? || e.UserCleaning?
  }

  /** A reading of the trace that user code cannot change. */
  ghost predicate SkipsUserCode<T>(f: Event -> seq<T>) {
    forall e :: OfUserCode(e) ==> f(e) == []
  }

  lemma {:induction false} ActsCollectNothing<T>(w: World, acts: seq<Act>, f: Event -> seq<T>)
    requires SkipsUserCode(f)
    ensures Collect(RunActs(w, acts).0.trace, f) == Collect(w.trace, f)
    decreases |acts|
  {
    if acts != [] && !ActPanics(w, acts[0]) {
      var w1 := DoAct(w, acts[0]);
      var es := w1.trace[|w.trace|..];
      assert w1.trace == w.trace + es && forall e :: e in es ==> OfUserCode(e);
      CollectConcat(w.trace, es, f);
      CollectNothing(es, f);
      ActsCollectNothing(w1, acts[1..], f);
    }
  }

  lemma {:induction false} PassCollectsNothing<T>(w: World, phase: Phase, i: nat, ctx: Ctx, f: Event -> seq<T>)
    requires i <= |w.Hooks(phase)| && SkipsUserCode(f)
    requires forall e: Event :: e.Callback? || e.CallbackPanicked? ==> f(e) == []
    ensures Collect(RunCallbacks(w, phase, i, ctx).trace, f) == Collect(w.trace, f)
    decreases Weight(w.Hooks(phase)[i..])
  {
    if i < |w.Hooks(phase)| {
      var h := w.Hooks(phase)[i];
      var w0 := w.Emit(Callback(phase, h.id, ctx));
      CollectEmit(w.trace, f, Callback(phase, h.id, ctx));
      ActsCollectNothing(w0, h.acts, f);
      CollectEmit(RunActs(w0, h.acts).0.trace, f, CallbackPanicked(phase));
      RunHookAppends(w, phase, i, ctx, phase);
      PassCollectsNothing(RunHook(w, phase, h, ctx), phase, i + 1, ctx, f);
    }
  }

  lemma ActsCallNothing(w: World, acts: seq<Act>, phase: Phase)
    ensures Called(RunActs(w, acts).0.trace, phase) == Called(w.trace, phase)
  {
    ActsCollectNothing(w, acts, e => CalledBy(e, phase));
  }

  lemma HookCalls(w: World, phase: Phase, h: Hook, ctx: Ctx)
    ensures Called(RunHook(w, phase, h, ctx).trace, phase) == Called(w.trace, phase) + [h.id]
  {
    var w0 := w.Emit(Callback(phase, h.id, ctx));
    CalledEmit(w.trace, Callback(phase, h.id, ctx), phase);
    ActsCallNothing(w0, h.acts, phase);
    CalledEmit(RunActs(w0, h.acts).0.trace, CallbackPanicked(phase), phase);
  }

  /** A pass takes nothing off either list. */
  lemma {:induction false} PassGrows(w: World, phase: Phase, i: nat, ctx: Ctx, p: Phase)
    requires i <= |w.Hooks(phase)|
    ensures w.Hooks(p) <= RunCallbacks(w, phase, i, ctx).Hooks(p)
    decreases Weight(w.Hooks(phase)[i..])
  {
    if i < |w.Hooks(phase)| {
      RunHookAppends(w, phase, i, ctx, p);
      RunHookAppends(w, phase, i, ctx, phase);
      PassGrows(RunHook(w, phase, w.Hooks(phase)[i], ctx), phase, i + 1, ctx, p);
    }
  }

  /** A pass from index i calls every callback of the final list from i on, exactly once and
      in registration order, whatever the callbacks register and whichever of them panic. */
  lemma {:induction false} PassCallsFinalList(w: World, phase: Phase, i: nat, ctx: Ctx)
    requires i <= |w.Hooks(phase)|
    ensures var r := RunCallbacks(w, phase, i, ctx);
            && |w.Hooks(phase)| <= |r.Hooks(phase)|
            && Called(r.trace, phase) == Called(w.trace, phase) + IdsOf(r.Hooks(phase)[i..])
    decreases Weight(w.Hooks(phase)[i..])
  {
    if i < |w.Hooks(phase)| {
      var w1 := PassStep(w, phase, i, ctx);
      PassCallsFinalList(w1, phase, i + 1, ctx);
    } else {
      assert IdsOf(w.Hooks(phase)[i..]) == [];
    }
  }

  /** The state after the i-th callback, from which the pass goes on. */
  lemma PassStep(w: World, phase: Phase, i: nat, ctx: Ctx) returns (w1: World)
    requires i < |w.Hooks(phase)|
    ensures |w.Hooks(phase)| <= |w1.Hooks(phase)|
    ensures Weight(w1.Hooks(phase)[i + 1..]) < Weight(w.Hooks(phase)[i..])
    ensures RunCallbacks(w, phase, i, ctx) == RunCallbacks(w1, phase, i + 1, ctx)
    ensures w1 == RunHook(w, phase, w.Hooks(phase)[i], ctx)
    ensures var l, id := RunCallbacks(w, phase, i, ctx).Hooks(phase), w.Hooks(phase)[i].id;
            && i < |l| && l[i] == w.Hooks(phase)[i]
            && IdsOf(l[i..]) == [id] + IdsOf(l[i + 1..])
            && Called(w1.trace, phase) == Called(w.trace, phase) + [id]
  {
    w1 := RunHook(w, phase, w.Hooks(phase)[i], ctx);
    RunHookAppends(w, phase, i, ctx, phase);
    PassGrows(w, phase, i, ctx, phase);
    IdsStep(RunCallbacks(w, phase, i, ctx).Hooks(phase), i, w.Hooks(phase)[i]);
    HookCalls(w, phase, w.Hooks(phase)[i], ctx);
  }

  lemma IdsStep(l: seq<Hook>, i: nat, h: Hook)
    requires i < |l| && l[i] == h
    ensures l[i..] == [h] + l[i + 1..]
    ensures IdsOf(l[i..]) == [h.id] + IdsOf(l[i + 1..])
  {
  }

  // ----- breadth first -----

  /** For each callback a pass adds to its own list, the index of the one that registered it. */
  function Origins(w: World, phase: Phase, i: nat, ctx: Ctx): seq<nat>
    requires i <= |w.Hooks(phase)|
    decreases Weight(w.Hooks(phase)[i..])
  {
    if i == |w.Hooks(phase)| then []
    else
      var w1 := RunHook(w, phase, w.Hooks(phase)[i], ctx);
      RunHookAppends(w, phase, i, ctx, phase);
      seq(|w1.Hooks(phase)| - |w.Hooks(phase)|, _ => i) + Origins(w1, phase, i + 1, ctx)
  }

  /** Callbacks run in the order of those that registered them. */
  lemma {:induction false} OriginsInOrder(w: World, phase: Phase, i: nat, ctx: Ctx)
    requires i <= |w.Hooks(phase)|
    ensures var os, n := Origins(w, phase, i, ctx), |w.Hooks(phase)|;
            && n + |os| == |RunCallbacks(w, phase, i, ctx).Hooks(phase)|
            && Sorted(os)
            && forall j :: 0 <= j < |os| ==> i <= os[j] < n + j
    decreases Weight(w.Hooks(phase)[i..])
  {
    if i < |w.Hooks(phase)| {
      var w1, os := OriginsStep(w, phase, i, ctx);
      OriginsInOrder(w1, phase, i + 1, ctx);
      SortedAppend(os, Origins(w1, phase, i + 1, ctx), i, |w.Hooks(phase)|);
    }
  }

  lemma SortedAppend(os: seq<nat>, rest: seq<nat>, i: nat, n: nat)
    requires i < n && forall j :: 0 <= j < |os| ==> os[j] == i
    requires Sorted(rest) && forall j :: 0 <= j < |rest| ==> i + 1 <= rest[j] < n + |os| + j
    ensures Sorted(os + rest)
    ensures forall j :: 0 <= j < |os + rest| ==> i <= (os + rest)[j] < n + j
  {
  }

  lemma OriginsStep(w: World, phase: Phase, i: nat, ctx: Ctx) returns (w1: World, os: seq<nat>)
    requires i < |w.Hooks(phase)|
    ensures |w1.Hooks(phase)| == |w.Hooks(phase)| + |os|
    ensures Weight(w1.Hooks(phase)[i + 1..]) < Weight(w.Hooks(phase)[i..])
    ensures RunCallbacks(w, phase, i, ctx) == RunCallbacks(w1, phase, i + 1, ctx)
    ensures Origins(w, phase, i, ctx) == os + Origins(w1, phase, i + 1, ctx)
    ensures forall j :: 0 <= j < |os| ==> os[j] == i
  {
    w1 := RunHook(w, phase, w.Hooks(phase)[i], ctx);
    RunHookAppends(w, phase, i, ctx, phase);
    os := seq(|w1.Hooks(phase)| - |w.Hooks(phase)|, _ => i);
  }

  /** How many registrations lead from the n callbacks of the initial list to the k-th one. */
  function Depth(n: nat, origins: seq<nat>, k: nat): nat
    requires k < n + |origins|
    requires forall j :: 0 <= j < |origins| ==> origins[j] < n + j
    decreases k
  {
    if k < n then 0 else 1 + Depth(n, origins, origins[k - n])
  }

  lemma {:induction false} DepthSorted(n: nat, origins: seq<nat>, j: nat, k: nat)
    requires j <= k < n + |origins| && Sorted(origins)
    requires forall j :: 0 <= j < |origins| ==> origins[j] < n + j
    ensures Depth(n, origins, j) <= Depth(n, origins, k)
    decreases k
  {
    if n <= j {
      assert origins[j - n] <= origins[k - n];
      DepthSorted(n, origins, origins[j - n], origins[k - n]);
    }
  }

  /** The pass is breadth first: no callback runs before one that is fewer registrations away
      from the initial list. */
  lemma PassIsBreadthFirst(w: World, phase: Phase, ctx: Ctx, j: nat, k: nat)
    requires j <= k < |RunCallbacks(w, phase, 0, ctx).Hooks(phase)|
    ensures var os, n := Origins(w, phase, 0, ctx), |w.Hooks(phase)|;
            && n + |os| == |RunCallbacks(w, phase, 0, ctx).Hooks(phase)|
            && (forall j :: 0 <= j < |os| ==> os[j] < n + j)
            && Depth(n, os, j) <= Depth(n, os, k)
  {
    OriginsInOrder(w, phase, 0, ctx);
    DepthSorted(|w.Hooks(phase)|, Origins(w, phase, 0, ctx), j, k);
  }

  // ----- when the forest is known beforehand -----

  /** Callbacks whose only panics are their own: then what they register does not depend on
      the state of the Cleaner and the bindings. */
  predicate Plain(hooks: seq<Hook>) {
    forall h :: h in hooks ==> PlainHook(h)
  }

  predicate PlainHook(h: Hook)
    decreases h
  {
    forall a :: a in h.acts ==> PlainAct(a)
  }

  predicate PlainAct(a: Act)
    decreases a
  {
    match a
    case Register(_, h) => PlainHook(h)
    case AddCleaner(_) => false
    case AddBinding(_) => false
    case _ => true
  }

  /** What a callback adds to its own list: its registrations up to its first panic. */
  function Kids(acts: seq<Act>, phase: Phase): seq<Hook> {
    if acts == [] || acts[0].Panic? then []
    else (if acts[0].Register? && acts[0].phase == phase then [acts[0].hook] else []) + Kids(acts[1..], phase)
  }

  function AllKids(hooks: seq<Hook>, phase: Phase): seq<Hook> {
    if hooks == [] then [] else Kids(hooks[0].acts, phase) + AllKids(hooks[1..], phase)
  }

  lemma {:induction false} KidsWeigh(acts: seq<Act>, phase: Phase)
    ensures Weight(Kids(acts, phase)) <= ActsWeight(acts)
  {
    if acts != [] && !acts[0].Panic? {
      KidsWeigh(acts[1..], phase);
      assert ActsWeight(acts) == ActWeight(acts[0]) + ActsWeight(acts[1..]);
      if acts[0].Register? && acts[0].phase == phase {
        WeightConcat([acts[0].hook], Kids(acts[1..], phase));
        assert Kids(acts, phase) == [acts[0].hook] + Kids(acts[1..], phase);
        assert [acts[0].hook][1..] == [];
        assert Weight([acts[0].hook]) == HookWeight(acts[0].hook) == ActWeight(acts[0]);
      } else {
        assert Kids(acts, phase) == Kids(acts[1..], phase);
      }
    }
  }

  lemma {:induction false} AllKidsWeigh(hooks: seq<Hook>, phase: Phase)
    ensures Weight(AllKids(hooks, phase)) + |hooks| <= Weight(hooks)
  {
    if hooks != [] {
      KidsWeigh(hooks[0].acts, phase);
      AllKidsWeigh(hooks[1..], phase);
      WeightConcat(Kids(hooks[0].acts, phase), AllKids(hooks[1..], phase));
    }
  }

  /** The forest level by level. */
  function Levels(hooks: seq<Hook>, phase: Phase): seq<Hook>
    decreases Weight(hooks)
  {
    if hooks == [] then []
    else
      AllKidsWeigh(hooks, phase);
      hooks + Levels(AllKids(hooks, phase), phase)
  }

  /** The forest as a queue: a callback's registrations join the back. */
  function Queue(hooks: seq<Hook>, phase: Phase): seq<Hook>
    decreases Weight(hooks)
  {
    if hooks == [] then []
    else
      KidsWeigh(hooks[0].acts, phase);
      WeightConcat(hooks[1..], Kids(hooks[0].acts, phase));
      [hooks[0]] + Queue(hooks[1..] + Kids(hooks[0].acts, phase), phase)
  }

  lemma {:induction false} QueuePastLevel(l: seq<Hook>, m: seq<Hook>, phase: Phase)
    ensures Queue(l + m, phase) == l + Queue(m + AllKids(l, phase), phase)
    decreases |l|
  {
    if l == [] {
      assert l + m == m && m + [] == m;
    } else {
      var q, ks := l + m, Kids(l[0].acts, phase);
      QueueHead(q, phase);
      assert q[0] == l[0];
      Regroup(l, m, ks, AllKids(l[1..], phase));
      QueuePastLevel(l[1..], m + ks, phase);
    }
  }

  lemma Regroup<T>(l: seq<T>, m: seq<T>, ks: seq<T>, rest: seq<T>)
    requires l != []
    ensures (l + m)[1..] + ks == l[1..] + (m + ks)
    ensures (m + ks) + rest == m + (ks + rest)
  {
  }

  lemma QueueHead(q: seq<Hook>, phase: Phase)
    requires q != []
    ensures Queue(q, phase) == [q[0]] + Queue(q[1..] + Kids(q[0].acts, phase), phase)
  {
  }

  lemma {:induction false} QueueIsLevels(hooks: seq<Hook>, phase: Phase)
    ensures Queue(hooks, phase) == Levels(hooks, phase)
    decreases Weight(hooks)
  {
    if hooks != [] {
      AllKidsWeigh(hooks, phase);
      QueuePastLevel(hooks, [], phase);
      assert hooks + [] == hooks && [] + AllKids(hooks, phase) == AllKids(hooks, phase);
      QueueIsLevels(AllKids(hooks, phase), phase);
    }
  }

  lemma ActRegisters(w: World, a: Act, phase: Phase)
    requires !ActPanics(w, a)
    ensures DoAct(w, a).Hooks(phase)
         == w.Hooks(phase) + if a.Register? && a.phase == phase then [a.hook] else []
  {
  }

  lemma {:induction false} PlainActsRegister(w: World, acts: seq<Act>, phase: Phase)
    requires forall a :: a in acts ==> PlainAct(a)
    ensures RunActs(w, acts).0.Hooks(phase) == w.Hooks(phase) + Kids(acts, phase)
    ensures Plain(Kids(acts, phase))
    decreases |acts|
  {
    if acts != [] {
      assert PlainAct(acts[0]);
      if !acts[0].Panic? {
        ActRegisters(w, acts[0], phase);
        PlainActsRegister(DoAct(w, acts[0]), acts[1..], phase);
      }
    }
  }

  lemma {:induction false} PlainPassIsQueue(w: World, phase: Phase, i: nat, ctx: Ctx)
    requires i <= |w.Hooks(phase)| && Plain(w.Hooks(phase)[i..])
    ensures w.Hooks(phase) <= RunCallbacks(w, phase, i, ctx).Hooks(phase)
    ensures RunCallbacks(w, phase, i, ctx).Hooks(phase)[i..] == Queue(w.Hooks(phase)[i..], phase)
    decreases Weight(w.Hooks(phase)[i..])
  {
    PassGrows(w, phase, i, ctx, phase);
    var l := w.Hooks(phase);
    if i < |l| {
      var h := l[i];
      assert h in l[i..];
      PlainActsRegister(w.Emit(Callback(phase, h.id, ctx)), h.acts, phase);
      RunHookAppends(w, phase, i, ctx, phase);
      var w1 := RunHook(w, phase, h, ctx);
      QueueStep(l, Kids(h.acts, phase), i, phase);
      PlainPassIsQueue(w1, phase, i + 1, ctx);
      IdsStep(RunCallbacks(w, phase, i, ctx).Hooks(phase), i, h);
    }
  }

  lemma QueueStep(l: seq<Hook>, kids: seq<Hook>, i: nat, phase: Phase)
    requires i < |l| && Plain(l[i..]) && Plain(kids) && kids == Kids(l[i].acts, phase)
    ensures Plain((l + kids)[i + 1..])
    ensures Queue(l[i..], phase) == [l[i]] + Queue((l + kids)[i + 1..], phase)
  {
    assert (l + kids)[i + 1..] == l[i..][1..] + kids;
    assert forall h :: h in l[i..][1..] ==> h in l[i..];
  }

  /** The callbacks called in a pass over a plain forest are its level order. */
  lemma PlainPassIsLevelOrder(w: World, phase: Phase, ctx: Ctx)
    requires Plain(w.Hooks(phase))
    ensures Called(RunCallbacks(w, phase, 0, ctx).trace, phase)
         == Called(w.trace, phase) + IdsOf(Levels(w.Hooks(phase), phase))
  {
    assert w.Hooks(phase)[0..] == w.Hooks(phase);
    PlainPassIsQueue(w, phase, 0, ctx);
    QueueIsLevels(w.Hooks(phase), phase);
    PassCallsFinalList(w, phase, 0, ctx);
  }

  // ----- recovered panics -----

  /** User code panics at the first of its acts that cannot be carried out. */
  ghost predicate Throws(w: World, acts: seq<Act>) {
    exists k :: 0 <= k < |acts| && RunActs(w, acts[..k]).1 == Returned && Refused(RunActs(w, acts[..k]).0, acts[k])
  }

  /** A panic of its own, an Add to a Cleaner that has started, or a name that is taken. */
  predicate Refused(w: World, a: Act) {
    || a.Panic?
    || (a.AddCleaner? && (w.cleaner.running || w.cleaner.done))
    || (a.AddBinding? && exists b :: b in w.bindings && b.name == a.b.name)
  }

  lemma {:induction false} ThrowsIff(w: World, acts: seq<Act>)
    ensures RunActs(w, acts).1 == Panicked <==> Throws(w, acts)
    decreases |acts|
  {
    if acts != [] {
      assert acts[..0] == [];
      if !ActPanics(w, acts[0]) {
        var w1, rest := DoAct(w, acts[0]), acts[1..];
        ThrowsIff(w1, rest);
        forall k | 0 < k <= |acts| ensures RunActs(w, acts[..k]) == RunActs(w1, rest[..k - 1]) {
          assert acts[..k][1..] == rest[..k - 1];
        }
        if Throws(w1, rest) {
          var k :| 0 <= k < |rest| && RunActs(w1, rest[..k]).1 == Returned
                   && Refused(RunActs(w1, rest[..k]).0, rest[k]);
          assert acts[k + 1] == rest[k];
        }
      }
    }
  }

  /** What a trace shows of a phase: its callbacks, and the panics recovered from them. */
  datatype Mark = Began(id: nat) | Recovered

  function MarkBy(e: Event, phase: Phase): seq<Mark> {
    if e.Callback? && e.phase == phase then [Began(e.id)]
    else if e.CallbackPanicked? && e.phase == phase then [Recovered]
    else []
  }

  function Marks(trace: seq<Event>, phase: Phase): seq<Mark> {
    Collect(trace, e => MarkBy(e, phase))
  }

  lemma MarksEmit(trace: seq<Event>, e: Event, phase: Phase)
    ensures Marks(trace + [e], phase) == Marks(trace, phase) + MarkBy(e, phase)
  {
    CollectEmit(trace, e => MarkBy(e, phase), e);
  }

  /** A callback's panic is logged right after it, exactly if it panics. */
  lemma HookMarks(w: World, phase: Phase, h: Hook, ctx: Ctx)
    ensures var called := w.Emit(Callback(phase, h.id, ctx));
            Marks(RunHook(w, phase, h, ctx).trace, phase)
              == Marks(w.trace, phase) + [Began(h.id)] + if Throws(called, h.acts) then [Recovered] else []
  {
    var called := w.Emit(Callback(phase, h.id, ctx));
    MarksEmit(w.trace, Callback(phase, h.id, ctx), phase);
    ActsCollectNothing(called, h.acts, e => MarkBy(e, phase));
    ThrowsIff(called, h.acts);
    MarksEmit(RunActs(called, h.acts).0.trace, CallbackPanicked(phase), phase);
  }

  function MarksOf(hooks: seq<Hook>): seq<Mark> {
    if hooks == [] then []
    else MarksFor(hooks[0]) + MarksOf(hooks[1..])
  }

  lemma {:induction false} PlainActsThrow(w: World, acts: seq<Act>)
    requires forall a :: a in acts ==> PlainAct(a)
    ensures RunActs(w, acts).1 == Panicked <==> Act.Panic in acts
    decreases |acts|
  {
    if acts != [] {
      assert PlainAct(acts[0]) && acts == [acts[0]] + acts[1..];
      if !acts[0].Panic? {
        PlainActsThrow(DoAct(w, acts[0]), acts[1..]);
      }
    }
  }

  function MarksFor(h: Hook): seq<Mark> {
    [Began(h.id)] + if Act.Panic in h.acts then [Recovered] else []
  }

  /** The state after the i-th of the plain callbacks. */
  lemma PlainStep(w: World, phase: Phase, i: nat, ctx: Ctx) returns (w1: World)
    requires i < |w.Hooks(phase)| && Plain(w.Hooks(phase)[i..])
    ensures |w.Hooks(phase)| <= |w1.Hooks(phase)| && Plain(w1.Hooks(phase)[i + 1..])
    ensures Weight(w1.Hooks(phase)[i + 1..]) < Weight(w.Hooks(phase)[i..])
    ensures RunCallbacks(w, phase, i, ctx) == RunCallbacks(w1, phase, i + 1, ctx)
    ensures var l := RunCallbacks(w, phase, i, ctx).Hooks(phase);
            i < |l| && Marks(w1.trace, phase) == Marks(w.trace, phase) + MarksFor(l[i])
  {
    var l, h := w.Hooks(phase), w.Hooks(phase)[i];
    var called := w.Emit(Callback(phase, h.id, ctx));
    assert h in l[i..];
    PlainActsRegister(called, h.acts, phase);
    PlainActsThrow(called, h.acts);
    ThrowsIff(called, h.acts);
    HookMarks(w, phase, h, ctx);
    QueueStep(l, Kids(h.acts, phase), i, phase);
    w1 := PassStep(w, phase, i, ctx);
  }

  lemma MarksStep(l: seq<Hook>, i: nat)
    requires i < |l|
    ensures MarksOf(l[i..]) == MarksFor(l[i]) + MarksOf(l[i + 1..])
  {
    assert l[i..][1..] == l[i + 1..];
  }

  lemma Join<T>(a: seq<T>, b: seq<T>, c: seq<T>)
    ensures (a + b) + c == a + (b + c)
  {
  }

  lemma {:induction false} PlainPassMarks(w: World, phase: Phase, i: nat, ctx: Ctx)
    requires i <= |w.Hooks(phase)| && Plain(w.Hooks(phase)[i..])
    ensures var r := RunCallbacks(w, phase, i, ctx);
            && |w.Hooks(phase)| <= |r.Hooks(phase)|
            && Marks(r.trace, phase) == Marks(w.trace, phase) + MarksOf(r.Hooks(phase)[i..])
    decreases Weight(w.Hooks(phase)[i..])
  {
    if i < |w.Hooks(phase)| {
      var w1 := PlainStep(w, phase, i, ctx);
      PlainPassMarks(w1, phase, i + 1, ctx);
      var l := RunCallbacks(w, phase, i, ctx).Hooks(phase);
      MarksStep(l, i);
      Join(Marks(w.trace, phase), MarksFor(l[i]), MarksOf(l[i + 1..]));
    } else {
      assert w.Hooks(phase)[i..] == [];
    }
  }

  /** In a pass over callbacks that only register and panic, every panic is recovered and logged
      before the next callback runs, and nothing else is. */
  lemma PlainPassRecovers(w: World, phase: Phase, ctx: Ctx)
    requires Plain(w.Hooks(phase))
    ensures Marks(RunCallbacks(w, phase, 0, ctx).trace, phase)
         == Marks(w.trace, phase) + MarksOf(Levels(w.Hooks(phase), phase))
  {
    var l, r := w.Hooks(phase), RunCallbacks(w, phase, 0, ctx);
    assert l[0..] == l && r.Hooks(phase)[0..] == r.Hooks(phase);
    PlainPassMarks(w, phase, 0, ctx);
    PlainPassIsQueue(w, phase, 0, ctx);
    QueueIsLevels(l, phase);
  }
}
