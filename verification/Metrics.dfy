/** prometheus/metrics.go under any number of requests and callers: how the request counter and
    the duration histogram move, and how the collectors of a registerer come to be.
    A run is any sequence of actions; one that is not enabled leaves the state alone. */
module RequestCounts {
  import opened Basics
  import H = Handlers

  type Request = nat

  datatype Labels = Labels(meth: string, pattern: string, status: int)

  /** A request in the metrics layer, between the steps others can observe. */
  datatype Phase =
    | InHandler
    | Back(labels: Labels)     // the handler returned, nothing is counted yet
    | Counted(labels: Labels)  // between Inc and Observe
    | Observed(labels: Labels)
    | Unwound                  // the handler panicked through the layer

  datatype State = State(requests: map<Request, Phase>, counter: multiset<Labels>, histogram: multiset<Labels>)

  const INIT := State(map[], multiset{}, multiset{})

  datatype Action =
    | Arrive(r: Request)
    | Return(r: Request, meth: string, pattern: string, status: int)
    | Unwind(r: Request)
    | Inc(r: Request)
    | Observe(r: Request)

  /** From what the request and the response writer hold once the handler has returned. */
  function LabelsOf(meth: string, pattern: string, status: int): Labels {
    Labels(meth, H.PatternLabel(pattern), if status == 0 then 200 else status)
  }

  function Step(s: State, a: Action): State {
    match a
    case Arrive(r) =>
      if r in s.requests then s else s.(requests := s.requests[r := InHandler])
    case Return(r, meth, pattern, status) =>
      if r !in s.requests || !s.requests[r].InHandler? then s
      else s.(requests := s.requests[r := Back(LabelsOf(meth, pattern, status))])
    case Unwind(r) =>
      if r !in s.requests || !s.requests[r].InHandler? then s else s.(requests := s.requests[r := Unwound])
    case Inc(r) =>
      if r !in s.requests || !s.requests[r].Back? then s
      else
        var l := s.requests[r].labels;
        s.(requests := s.requests[r := Counted(l)], counter := s.counter + multiset{l})
    case Observe(r) =>
      if r !in s.requests || !s.requests[r].Counted? then s
      else
        var l := s.requests[r].labels;
        s.(requests := s.requests[r := Observed(l)], histogram := s.histogram + multiset{l})
  }

  function Run(actions: seq<Action>): State {
    if actions == [] then INIT else Step(Run(actions[..|actions| - 1]), actions[|actions| - 1])
  }

  function In(s: State, p: Phase): set<Request> {
    set r | r in s.requests && s.requests[r] == p
  }

  ghost predicate Conserved(s: State) {
    forall l :: s.counter[l] == |In(s, Counted(l))| + |In(s, Observed(l))| && s.histogram[l] == |In(s, Observed(l))|
  }

  /** One request moves from one phase to another. */
  lemma Moves(s: State, s': State, r: Request, p: Phase, q: Phase)
    requires s'.requests == s.requests[r := p]
    requires r in s.requests ==> s.requests[r] != p
    ensures |In(s', q)| == |In(s, q)| + (if q == p then 1 else 0)
                                      - (if r in s.requests && q == s.requests[r] then 1 else 0)
  {
    if q == p {
      assert In(s', q) == In(s, q) + {r};
    } else if r in s.requests && q == s.requests[r] {
      assert In(s', q) == In(s, q) - {r};
    } else {
      assert In(s', q) == In(s, q);
    }
  }

  lemma StepConserves(s: State, a: Action)
    requires Conserved(s)
    ensures Conserved(Step(s, a))
  {
    var s' := Step(s, a);
    if s' != s {
      var p := s'.requests[a.r];
      forall l
        ensures s'.counter[l] == |In(s', Counted(l))| + |In(s', Observed(l))|
        ensures s'.histogram[l] == |In(s', Observed(l))|
      {
        Moves(s, s', a.r, p, Counted(l));
        Moves(s, s', a.r, p, Observed(l));
      }
    }
  }

  /** For every label triple, in every interleaving: the counter is ahead of the histogram by
      exactly the requests between Inc and Observe, the histogram holds exactly the requests
      that passed both, and those that panicked are in neither. */
  lemma {:induction false} CountsAreConserved(actions: seq<Action>, l: Labels)
    ensures var s := Run(actions);
            && Conserved(s)
            && s.counter[l] - s.histogram[l] == |In(s, Counted(l))|
            && s.histogram[l] == |In(s, Observed(l))|
  {
    if actions != [] {
      CountsAreConserved(actions[..|actions| - 1], l);
      StepConserves(Run(actions[..|actions| - 1]), actions[|actions| - 1]);
    } else {
      assert forall q :: In(INIT, q) == {};
    }
  }

  predicate Final(s: State, r: Request) {
    r in s.requests && (s.requests[r].Observed? || s.requests[r].Unwound?)
  }

  /** When no request is under way the two agree on every label. */
  lemma QuietCountsAgree(actions: seq<Action>)
    requires var s := Run(actions); forall r :: r in s.requests ==> Final(s, r)
    ensures Run(actions).counter == Run(actions).histogram
  {
    var s := Run(actions);
    forall l ensures s.counter[l] == s.histogram[l] {
      CountsAreConserved(actions, l);
      assert In(s, Counted(l)) == {};
    }
  }

  lemma StaysFinal(s: State, a: Action, r: Request)
    requires Final(s, r)
    ensures Final(Step(s, a), r) && Step(s, a).requests[r] == s.requests[r]
  {
  }

  /** What the layer has recorded of a request is final, and so is that it panicked. */
  lemma {:induction false} RecordedForever(actions: seq<Action>, more: seq<Action>, r: Request)
    requires Final(Run(actions), r)
    ensures Final(Run(actions + more), r) && Run(actions + more).requests[r] == Run(actions).requests[r]
  {
    if more == [] {
      assert actions + more == actions;
    } else {
      var init, a := more[..|more| - 1], more[|more| - 1];
      RecordedForever(actions, init, r);
      assert actions + more == (actions + init) + [a];
      StaysFinalNext(actions + init, a, r);
    }
  }

  lemma StaysFinalNext(actions: seq<Action>, a: Action, r: Request)
    requires Final(Run(actions), r)
    ensures Final(Run(actions + [a]), r) && Run(actions + [a]).requests[r] == Run(actions).requests[r]
  {
    assert (actions + [a])[..|actions|] == actions;
    StaysFinal(Run(actions), a, r);
  }

  // ----- what the labels say -----

  predicate Leaves(a: Action, r: Request) {
    (a.Return? || a.Unwind?) && a.r == r
  }

  /** The k-th action is the one with which request r leaves the handler. */
  ghost predicate EndsAt(actions: seq<Action>, r: Request, k: nat)
    decreases k
  {
    && k < |actions| && Leaves(actions[k], r) && Arrive(r) in actions[..k]
    && forall j :: 0 <= j < k ==> !EndsAt(actions, r, j)
  }

  /** The labels of a request: its method, its pattern or "unknown", its status or 200. */
  predicate Bears(p: Phase, a: Action) {
    match a
    case Return(_, meth, pattern, status) =>
      && !p.InHandler? && !p.Unwound?
      && p.labels.meth == meth
      && p.labels.pattern == (if pattern == "" then "unknown" else pattern)
      && p.labels.status == (if status == 0 then 200 else status)
    case _ => p.Unwound?
  }

  lemma {:induction false} EndsInPrefix(actions: seq<Action>, a: Action, r: Request, k: nat)
    requires k < |actions|
    ensures EndsAt(actions + [a], r, k) <==> EndsAt(actions, r, k)
    decreases k
  {
    forall j | 0 <= j < k ensures EndsAt(actions + [a], r, j) <==> EndsAt(actions, r, j) {
      EndsInPrefix(actions, a, r, j);
    }
    assert (actions + [a])[..k] == actions[..k];
  }

  ghost predicate PhaseFits(actions: seq<Action>, r: Request, s: State) {
    && (r in s.requests <==> Arrive(r) in actions)
    && (r in s.requests && s.requests[r].InHandler? ==> forall k: nat :: !EndsAt(actions, r, k))
    && (r in s.requests && !s.requests[r].InHandler? ==>
          exists k: nat :: EndsAt(actions, r, k) && Bears(s.requests[r], actions[k]))
  }

  /** Every request bears the labels with which it left the handler. */
  lemma {:induction false} PhaseIsFit(actions: seq<Action>, r: Request)
    ensures PhaseFits(actions, r, Run(actions))
  {
    if actions != [] {
      var init, a := actions[..|actions| - 1], actions[|actions| - 1];
      PhaseIsFit(init, r);
      assert actions == init + [a];
      forall k | 0 <= k < |init| ensures EndsAt(actions, r, k) <==> EndsAt(init, r, k) {
        EndsInPrefix(init, a, r, k);
      }
      PhaseStep(init, a, r);
    }
  }

  lemma PhaseStep(init: seq<Action>, a: Action, r: Request)
    requires PhaseFits(init, r, Run(init))
    requires forall k :: 0 <= k < |init| ==> (EndsAt(init + [a], r, k) <==> EndsAt(init, r, k))
    ensures PhaseFits(init + [a], r, Step(Run(init), a))
  {
    var s, s', actions := Run(init), Step(Run(init), a), init + [a];
    assert actions[..|init|] == init;
    if r in s.requests && !s.requests[r].InHandler? {
      var k: nat :| EndsAt(init, r, k) && Bears(s.requests[r], init[k]);
      assert actions[k] == init[k];
      assert EndsAt(actions, r, k) && Bears(s'.requests[r], actions[k]);
    } else if r in s.requests && Leaves(a, r) {
      assert EndsAt(actions, r, |init|);
      assert Bears(s'.requests[r], actions[|init|]);
    }
  }

  /** The request left the handler by returning, and with these labels. */
  ghost predicate ReturnedWith(actions: seq<Action>, r: Request, l: Labels) {
    exists k: nat :: EndsAt(actions, r, k) && actions[k].Return?
      && l.meth == actions[k].meth
      && l.pattern == (if actions[k].pattern == "" then "unknown" else actions[k].pattern)
      && l.status == (if actions[k].status == 0 then 200 else actions[k].status)
  }

  lemma EndsOnce(actions: seq<Action>, r: Request, j: nat, k: nat)
    requires EndsAt(actions, r, j) && EndsAt(actions, r, k)
    ensures j == k
  {
  }

  /** For every label triple, in every interleaving: the histogram counts exactly the observed
      requests that returned with that method, that pattern and that status, and the counter
      those that have at least been counted. */
  lemma CountsAreOfReturned(actions: seq<Action>, l: Labels)
    ensures var s := Run(actions);
            && s.histogram[l] == |set r | r in s.requests && s.requests[r].Observed? && ReturnedWith(actions, r, l)|
            && s.counter[l] == |set r | r in s.requests && (s.requests[r].Counted? || s.requests[r].Observed?)
                                       && ReturnedWith(actions, r, l)|
  {
    var s := Run(actions);
    CountsAreConserved(actions, l);
    forall r | r in s.requests && (s.requests[r].Counted? || s.requests[r].Observed?)
      ensures s.requests[r].labels == l <==> ReturnedWith(actions, r, l)
    {
      PhaseIsFit(actions, r);
      var k: nat :| EndsAt(actions, r, k) && Bears(s.requests[r], actions[k]);
      if ReturnedWith(actions, r, l) {
        var j: nat :| EndsAt(actions, r, j) && actions[j].Return? && l.meth == actions[j].meth
                      && l.pattern == (if actions[j].pattern == "" then "unknown" else actions[j].pattern)
                      && l.status == (if actions[j].status == 0 then 200 else actions[j].status);
        EndsOnce(actions, r, j, k);
      }
    }
    var counted := set r | r in s.requests && (s.requests[r].Counted? || s.requests[r].Observed?)
                           && ReturnedWith(actions, r, l);
    var observed := set r | r in s.requests && s.requests[r].Observed? && ReturnedWith(actions, r, l);
    assert observed == In(s, Observed(l));
    assert counted == In(s, Counted(l)) + In(s, Observed(l));
  }
}

/** collectorsFor, called by any number of goroutines. */
module CollectorCaches {
  import opened Basics

  type Registerer = nat
  const DEFAULT_REGISTERER: Registerer := 0

  /** One call of HTTPMetrics. The collector set it builds, if it builds one, is named after it. */
  type Call = nat

  datatype Phase =
    | Called(reg: Registerer)
    | Missed(reg: Registerer)                 // Load found nothing, a set was built
    | Stored(reg: Registerer)                 // LoadOrStore stored it, MustRegister comes next
    | Got(reg: Registerer, made: Call)
    | Threw(reg: Registerer)                  // MustRegister panicked

  datatype Registration = Registration(reg: Registerer, made: Call)

  /** The calls of MustRegister made, and those of them that registered the set: a call that
      panics registers nothing. */
  datatype State = State(
    calls: map<Call, Phase>, cache: map<Registerer, Call>, tried: seq<Registration>, registered: seq<Registration>)

  const INIT := State(map[], map[], [], [])

  datatype Action =
    | Begin(c: Call, registerer: Option<Registerer>)
    | Load(c: Call)
    | LoadOrStore(c: Call)
    | MustRegister(c: Call, panics: bool)

  function Step(s: State, a: Action): State {
    match a
    case Begin(c, registerer) =>
      if c in s.calls then s
      else s.(calls := s.calls[c := Called(if registerer.Some? then registerer.value else DEFAULT_REGISTERER)])
    case Load(c) =>
      if c !in s.calls || !s.calls[c].Called? then s
      else
        var reg := s.calls[c].reg;
        s.(calls := s.calls[c := if reg in s.cache then Got(reg, s.cache[reg]) else Missed(reg)])
    case LoadOrStore(c) =>
      if c !in s.calls || !s.calls[c].Missed? then s
      else
        var reg := s.calls[c].reg;
        if reg in s.cache then s.(calls := s.calls[c := Got(reg, s.cache[reg])])
        else s.(calls := s.calls[c := Stored(reg)], cache := s.cache[reg := c])
    case MustRegister(c, panics) =>
      if c !in s.calls || !s.calls[c].Stored? then s
      else
        var reg := s.calls[c].reg;
        var x := Registration(reg, c);
        s.(calls := s.calls[c := if panics then Threw(reg) else Got(reg, c)],
           tried := s.tried + [x],
           registered := if panics then s.registered else s.registered + [x])
  }

  function Run(actions: seq<Action>): State {
    if actions == [] then INIT else Step(Run(actions[..|actions| - 1]), actions[|actions| - 1])
  }

  lemma RunNext(actions: seq<Action>, a: Action)
    ensures Run(actions + [a]) == Step(Run(actions), a)
  {
    assert (actions + [a])[..|actions|] == actions;
  }

  predicate CallFits(s: State, c: Call, p: Phase) {
    match p
    case Stored(reg) => reg in s.cache && s.cache[reg] == c
    case Got(reg, made) => reg in s.cache && s.cache[reg] == made
    case Threw(reg) => reg in s.cache && s.cache[reg] == c
    case _ => c !in s.cache.Values
  }

  ghost predicate CallsFit(s: State) {
    && (forall c :: c in s.calls ==> CallFits(s, c, s.calls[c]))
    && (forall reg :: reg in s.cache ==> s.cache[reg] in s.calls)
  }

  /** The call that stored a set is before MustRegister, or past it with or without a panic. */
  predicate MakerFits(s: State, x: Registration) {
    && x.made in s.calls
    && (|| (s.calls[x.made] == Stored(x.reg) && x !in s.tried && x !in s.registered)
        || (s.calls[x.made] == Threw(x.reg) && x in s.tried && x !in s.registered)
        || (s.calls[x.made] == Got(x.reg, x.made) && x in s.tried && x in s.registered))
  }

  ghost predicate CacheFits(s: State) {
    forall reg :: reg in s.cache ==> MakerFits(s, Registration(reg, s.cache[reg]))
  }

  predicate IsCached(s: State, x: Registration) {
    x.reg in s.cache && s.cache[x.reg] == x.made
  }

  ghost predicate TriedFits(s: State) {
    && (forall i :: 0 <= i < |s.tried| ==> IsCached(s, s.tried[i]))
    && (forall x :: x in s.registered ==> IsCached(s, x))
    && (forall i, j :: 0 <= i < j < |s.tried| ==> s.tried[i].reg != s.tried[j].reg)
  }

  ghost predicate Inv(s: State) {
    CallsFit(s) && CacheFits(s) && TriedFits(s)
  }

  /** The k-th action is the first to begin call c. */
  predicate BeginsAt(actions: seq<Action>, c: Call, k: nat) {
    && k < |actions| && actions[k].Begin? && actions[k].c == c
    && forall j :: 0 <= j < k ==> !(actions[j].Begin? && actions[j].c == c)
  }

  /** A call is for the registerer it was given, and for the default one if it was given nil. */
  lemma {:induction false} CallsKeepRegisterer(actions: seq<Action>, c: Call, k: nat)
    requires BeginsAt(actions, c, k)
    ensures var s, given := Run(actions), actions[k].registerer;
            c in s.calls && s.calls[c].reg == if given.Some? then given.value else DEFAULT_REGISTERER
  {
    var init := actions[..|actions| - 1];
    if k < |init| {
      assert init[k] == actions[k] && forall j :: 0 <= j < k ==> init[j] == actions[j];
      CallsKeepRegisterer(init, c, k);
    } else {
      NotBegun(init, c);
    }
  }

  lemma {:induction false} NotBegun(actions: seq<Action>, c: Call)
    requires forall j :: 0 <= j < |actions| ==> !(actions[j].Begin? && actions[j].c == c)
    ensures c !in Run(actions).calls
  {
    if actions != [] {
      NotBegun(actions[..|actions| - 1], c);
    }
  }

  lemma CallsStep(s: State, a: Action)
    requires CallsFit(s)
    ensures CallsFit(Step(s, a))
  {
    var s' := Step(s, a);
    forall c | c in s'.calls ensures CallFits(s', c, s'.calls[c]) {
      assert c in s.calls ==> CallFits(s, c, s.calls[c]);
    }
  }

  lemma CacheStep(s: State, a: Action)
    requires Inv(s)
    ensures CacheFits(Step(s, a))
  {
    var s' := Step(s, a);
    forall reg | reg in s'.cache ensures MakerFits(s', Registration(reg, s'.cache[reg])) {
      if reg in s.cache {
        MakerStep(s, a, reg);
      } else {
        assert !IsCached(s, Registration(reg, a.c));
      }
    }
  }

  lemma MakerStep(s: State, a: Action, reg: Registerer)
    requires CacheFits(s) && reg in s.cache
    ensures MakerFits(Step(s, a), Registration(reg, s.cache[reg]))
  {
    assert MakerFits(s, Registration(reg, s.cache[reg]));
  }

  lemma TriedStep(s: State, a: Action)
    requires Inv(s)
    ensures TriedFits(Step(s, a))
  {
    var s' := Step(s, a);
    if a.MustRegister? && s' != s {
      var x := Registration(s.calls[a.c].reg, a.c);
      assert CallFits(s, a.c, s.calls[a.c]) && MakerFits(s, x);
      forall i | 0 <= i < |s.tried| ensures s.tried[i].reg != x.reg {
        assert IsCached(s, s.tried[i]);
      }
    }
  }

  lemma {:induction false} RunKeepsInv(actions: seq<Action>)
    ensures Inv(Run(actions))
  {
    if actions != [] {
      RunKeepsInv(actions[..|actions| - 1]);
      var s, a := Run(actions[..|actions| - 1]), actions[|actions| - 1];
      CallsStep(s, a);
      CacheStep(s, a);
      TriedStep(s, a);
    }
  }

  /** MustRegister is called at most once per registerer, in every interleaving. */
  lemma RegistersAtMostOnce(actions: seq<Action>, i: nat, j: nat)
    requires i < j < |Run(actions).tried|
    ensures Run(actions).tried[i].reg != Run(actions).tried[j].reg
  {
    RunKeepsInv(actions);
  }

  /** Equal registerers get the same collectors; and these are registered iff the call that
      built them has come back from MustRegister without a panic. */
  lemma EqualRegisterersShare(actions: seq<Action>, c: Call, d: Call)
    requires var s := Run(actions);
             && c in s.calls && d in s.calls && s.calls[c].Got? && s.calls[d].Got?
             && s.calls[c].reg == s.calls[d].reg
    ensures var s := Run(actions);
            var made := s.calls[c].made;
            && s.calls[d].made == made
            && made in s.calls
            && (Registration(s.calls[c].reg, made) in s.registered <==> s.calls[made].Got?)
  {
    RunKeepsInv(actions);
    var s := Run(actions);
    assert CallFits(s, c, s.calls[c]) && CallFits(s, d, s.calls[d]);
    assert MakerFits(s, Registration(s.calls[c].reg, s.calls[c].made));
  }

  /** Calls that were given nil share their collectors, with each other and with those that were
      given the default registerer. */
  lemma NilCallersShare(actions: seq<Action>, c: Call, i: nat, d: Call, j: nat)
    requires BeginsAt(actions, c, i) && actions[i].registerer.None?
    requires BeginsAt(actions, d, j) && actions[j].registerer in {None, Some(DEFAULT_REGISTERER)}
    requires var s := Run(actions); c in s.calls && d in s.calls && s.calls[c].Got? && s.calls[d].Got?
    ensures Run(actions).calls[c].made == Run(actions).calls[d].made
  {
    CallsKeepRegisterer(actions, c, i);
    CallsKeepRegisterer(actions, d, j);
    EqualRegisterersShare(actions, c, d);
  }

  /** Once no call is under way, MustRegister has been called exactly once for every registerer
      that was used, with the collectors its callers got; these are registered iff that call
      did not panic, and nothing else is registered with it. */
  lemma AllRegistered(actions: seq<Action>, c: Call)
    requires var s := Run(actions);
             && (forall d :: d in s.calls ==> s.calls[d].Got? || s.calls[d].Threw?)
             && c in s.calls
    ensures var s := Run(actions);
            var reg := s.calls[c].reg;
            && reg in s.cache
            && (s.calls[c].Got? ==> s.calls[c].made == s.cache[reg])
            && (exists i :: 0 <= i < |s.tried| && s.tried[i] == Registration(reg, s.cache[reg])
                  && forall j :: 0 <= j < |s.tried| && s.tried[j].reg == reg ==> j == i)
            && s.cache[reg] in s.calls
            && forall made :: Registration(reg, made) in s.registered <==>
                 made == s.cache[reg] && s.calls[made].Got?
  {
    RunKeepsInv(actions);
    var s := Run(actions);
    assert CallFits(s, c, s.calls[c]);
    var reg := s.calls[c].reg;
    assert MakerFits(s, Registration(reg, s.cache[reg]));
    var i :| 0 <= i < |s.tried| && s.tried[i] == Registration(reg, s.cache[reg]);
    forall j | 0 <= j < |s.tried| && s.tried[j].reg == reg ensures j == i {
    }
    forall made | Registration(reg, made) in s.registered ensures made == s.cache[reg] {
      assert IsCached(s, Registration(reg, made));
    }
  }

  lemma {:induction false} ThrewForever(actions: seq<Action>, more: seq<Action>, c: Call)
    requires c in Run(actions).calls && Run(actions).calls[c].Threw?
    ensures c in Run(actions + more).calls && Run(actions + more).calls[c] == Run(actions).calls[c]
  {
    if more == [] {
      assert actions + more == actions;
    } else {
      var init, a := more[..|more| - 1], more[|more| - 1];
      ThrewForever(actions, init, c);
      RunNext(actions + init, a);
      assert actions + more == (actions + init) + [a];
    }
  }

  /** A panic of MustRegister is for good: whatever is called afterwards, the set stays cached,
      nothing is ever registered with its registerer, and every call that gets a set for it
      gets the unregistered one. */
  lemma PanickedSetStays(actions: seq<Action>, more: seq<Action>, c: Call, d: Call)
    requires c in Run(actions).calls && Run(actions).calls[c].Threw?
    ensures var s := Run(actions + more);
            var reg := Run(actions).calls[c].reg;
            && reg in s.cache && s.cache[reg] == c
            && (forall made :: Registration(reg, made) !in s.registered)
            && (d in s.calls && s.calls[d].Got? && s.calls[d].reg == reg ==> s.calls[d].made == c)
  {
    ThrewForever(actions, more, c);
    RunKeepsInv(actions + more);
    var s, reg := Run(actions + more), Run(actions).calls[c].reg;
    assert CallFits(s, c, s.calls[c]) && MakerFits(s, Registration(reg, c));
    assert d in s.calls ==> CallFits(s, d, s.calls[d]);
    forall made | Registration(reg, made) in s.registered ensures made == c {
      assert IsCached(s, Registration(reg, made));
    }
  }

  ghost predicate Reachable(s: State) {
    exists actions :: Run(actions) == s
  }

  lemma ReachesNext(s: State, a: Action) returns (s': State)
    requires Reachable(s)
    ensures s' == Step(s, a) && Reachable(s')
  {
    var actions :| Run(actions) == s;
    RunNext(actions, a);
    s' := Run(actions + [a]);
  }

  /** The first call's MustRegister panics, the panic is recovered, and the next call with the
      same registerer is handed collectors that are not registered. */
  lemma UnregisteredSetIsShared(reg: Registerer)
    ensures exists s :: Reachable(s) && s.registered == [] && s.calls == map[0 := Threw(reg), 1 := Got(reg, 0)]
  {
    assert Run([]) == INIT;
    var s := ReachesNext(INIT, Begin(0, Some(reg)));
    s := ReachesNext(s, Load(0));
    assert s == State(map[0 := Missed(reg)], map[], [], []);
    s := ReachesNext(s, LoadOrStore(0));
    assert s == State(map[0 := Stored(reg)], map[reg := 0], [], []);
    s := ReachesNext(s, MustRegister(0, true));
    assert s == State(map[0 := Threw(reg)], map[reg := 0], [Registration(reg, 0)], []);
    s := ReachesNext(s, Begin(1, Some(reg)));
    assert s.calls == map[0 := Threw(reg), 1 := Called(reg)];
    s := ReachesNext(s, Load(1));
  }

  // ----- the code, called by one goroutine -----

  class CollectorSet {
  }

  class Registry {
    const accepts: bool
    var registered: seq<CollectorSet>

    constructor (accepts: bool)
      ensures registered == [] && this.accepts == accepts
    {
      this.accepts := accepts;
      registered := [];
    }

    /** Panics, and registers nothing, if the registry does not accept the collectors. */
    method MustRegister(made: CollectorSet) returns (outcome: Outcome)
      modifies this
      ensures outcome == if accepts then Returned else Panicked
      ensures registered == old(registered) + if accepts then [made] else []
    {
      if !accepts {
        return Panicked;
      }
      registered := registered + [made];
      outcome := Returned;
    }
  }

  class CollectorCache {
    var cache: map<Registry, CollectorSet>

    constructor ()
      ensures cache == map[]
    {
      cache := map[];
    }

    /** The first call for a registerer builds, stores and registers its collectors, or panics
        with them stored; any later one returns the same collectors and registers nothing. */
    method CollectorsFor(registerer: Registry) returns (made: Option<CollectorSet>)
      modifies this, registerer
      ensures registerer in cache && (made.Some? ==> made.value == cache[registerer])
      ensures made.None? <==> registerer !in old(cache) && !registerer.accepts
      ensures registerer in old(cache) ==> cache == old(cache) && registerer.registered == old(registerer.registered)
      ensures registerer !in old(cache) ==>
                && fresh(cache[registerer]) && cache == old(cache)[registerer := cache[registerer]]
                && registerer.registered ==
                     old(registerer.registered) + if registerer.accepts then [cache[registerer]] else []
    {
      if registerer in cache {
        return Some(cache[registerer]);
      }
      var stored := new CollectorSet;
      cache := cache[registerer := stored];
      var outcome := registerer.MustRegister(stored);
      made := if outcome == Panicked then None else Some(stored);
    }
  }
}
