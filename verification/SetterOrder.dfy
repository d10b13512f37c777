/** When the order of a binding's setter calls matters. Panic-freedom is the same in every order
    exactly when the calls are fine in all orders (BindingModel.FineInAnyOrderIff) or in none;
    this module says, for arbitrary arguments, when there is an order in which they are fine. */
module SetterOrders {
  import opened Basics
  import opened BindingModel

  // ----- arranging calls by rank -----

  function Select<T>(s: seq<T>, p: T -> bool): seq<T> {
    if s == [] then [] else (if p(s[0]) then [s[0]] else []) + Select(s[1..], p)
  }

  lemma {:induction false} SelectHolds<T>(s: seq<T>, p: T -> bool, x: T)
    ensures x in Select(s, p) <==> x in s && p(x)
  {
    if s != [] {
      SelectHolds(s[1..], p, x);
      assert s == [s[0]] + s[1..];
    }
  }

  /** The elements of ranks below n, those of a lower rank first. */
  function Ranked<T>(s: seq<T>, rank: T -> nat, n: nat): seq<T> {
    if n == 0 then [] else Ranked(s, rank, n - 1) + OfRank(s, rank, n - 1)
  }

  function OfRank<T>(s: seq<T>, rank: T -> nat, k: nat): seq<T> {
    Select(s, x => rank(x) == k)
  }

  lemma OfRankHolds<T>(s: seq<T>, rank: T -> nat, k: nat, x: T)
    ensures x in OfRank(s, rank, k) <==> x in s && rank(x) == k
  {
    SelectHolds(s, x => rank(x) == k, x);
  }

  lemma {:induction false} RankedHolds<T>(s: seq<T>, rank: T -> nat, n: nat, x: T)
    ensures x in Ranked(s, rank, n) <==> x in s && rank(x) < n
  {
    if n > 0 {
      RankedHolds(s, rank, n - 1, x);
      OfRankHolds(s, rank, n - 1, x);
    }
  }

  lemma {:induction false} RankedCons<T>(s: seq<T>, rank: T -> nat, n: nat)
    requires s != []
    ensures multiset(Ranked(s, rank, n))
         == multiset(Ranked(s[1..], rank, n)) + (if rank(s[0]) < n then multiset{s[0]} else multiset{})
  {
    if n > 0 {
      RankedCons(s, rank, n - 1);
    }
  }

  lemma {:induction false} RankedIsPermutation<T>(s: seq<T>, rank: T -> nat, n: nat)
    requires forall x :: x in s ==> rank(x) < n
    ensures multiset(Ranked(s, rank, n)) == multiset(s)
  {
    if s == [] {
      RankedEmpty(rank, n);
    } else {
      assert s == [s[0]] + s[1..];
      RankedCons(s, rank, n);
      RankedIsPermutation(s[1..], rank, n);
    }
  }

  lemma {:induction false} RankedEmpty<T>(rank: T -> nat, n: nat)
    ensures Ranked([], rank, n) == []
  {
    if n > 0 {
      RankedEmpty(rank, n - 1);
    }
  }

  lemma {:induction false} RankedSorted<T>(s: seq<T>, rank: T -> nat, n: nat, i: nat, j: nat)
    requires i < j < |Ranked(s, rank, n)|
    ensures rank(Ranked(s, rank, n)[i]) <= rank(Ranked(s, rank, n)[j])
  {
    var low, top := Ranked(s, rank, n - 1), OfRank(s, rank, n - 1);
    var l := Ranked(s, rank, n);
    if j < |low| {
      RankedSorted(s, rank, n - 1, i, j);
    } else {
      assert l[j] == top[j - |low|];
      OfRankHolds(s, rank, n - 1, l[j]);
      RankedHolds(s, rank, n, l[i]);
    }
  }

  // ----- the condition -----

  predicate Foreign(s: Setter) { s.ServeFunc? && s.fn.Some? }

  /** ServeFunc with a nil function, which undoes an earlier ServeFunc. */
  predicate Resets(s: Setter) { s.ServeFunc? && s.fn.None? }

  predicate Erases(s: Setter) {
    s == SetTLS(None) || s == SetTimeouts(0, 0, 0)
  }

  /** What the call sets cannot be unset again. */
  predicate Permanent(s: Setter) {
    Marks(s) && !s.SetTLS? && !s.SetTimeouts?
  }

  /** The second of the two panics, in either order. */
  predicate Doubles(a: Setter, b: Setter) {
    || (a.SetMux? && b.SetMux? && Marks(a) && Marks(b))
    || (a.SetErrorHandler? && b.SetErrorHandler? && a.status == b.status)
  }

  /** If s sets a TLS config or timeouts, some call unsets them. */
  predicate Erasable(calls: seq<Setter>, s: Setter) {
    && !Permanent(s)
    && (s.SetTLS? ==> SetTLS(None) in calls)
    && (s.SetTimeouts? ==> SetTimeouts(0, 0, 0) in calls)
  }

  /** A ServeFunc is called, and no call undoes one. */
  ghost predicate StaysForeign(calls: seq<Setter>) {
    (exists f :: f in calls && Foreign(f)) && forall s :: s in calls ==> !Resets(s)
  }

  ghost predicate Feasible(calls: seq<Setter>) {
    && (forall s :: s in calls ==> WellFormed(s))
    && (forall i, j :: 0 <= i < j < |calls| ==> !Doubles(calls[i], calls[j]))
    && (StaysForeign(calls) ==> forall s :: s in calls && Marks(s) ==> Erasable(calls, s))
  }

  // ----- it is necessary -----

  lemma {:induction false} NoDoubles(c: Config, calls: seq<Setter>)
    requires PanicFree(c, calls)
    ensures forall s :: s in calls ==> WellFormed(s)
    ensures !c.mux.NoMux? ==> forall s :: s in calls ==> !s.SetMux?
    ensures forall s :: s in calls && s.SetErrorHandler? ==> s.status !in c.errHandlers
    ensures forall i, j :: 0 <= i < j < |calls| ==> !Doubles(calls[i], calls[j])
    decreases |calls|
  {
    if calls != [] {
      var s, rest := calls[0], calls[1..];
      NoDoubles(Record(c, s), rest);
      assert calls == [s] + rest;
      forall i, j | 0 <= i < j < |calls| ensures !Doubles(calls[i], calls[j]) {
        assert calls[j] == rest[j - 1] && rest[j - 1] in rest;
        if i > 0 {
          assert calls[i] == rest[i - 1];
        } else if s.SetErrorHandler? {
          assert s.status in Record(c, s).errHandlers;
        }
      }
    }
  }

  lemma {:induction false} OnlyServeFuncs(c: Config, calls: seq<Setter>)
    requires PanicFree(c, calls) && c.serveFunc.Some? && forall s :: s in calls ==> !Resets(s)
    ensures forall s :: s in calls ==> s.ServeFunc?
    decreases |calls|
  {
    if calls != [] {
      assert calls[0] in calls && calls == [calls[0]] + calls[1..];
      OnlyServeFuncs(Record(c, calls[0]), calls[1..]);
    }
  }

  /** Before a ServeFunc that stays, everything the configuration holds has to be erased. */
  lemma {:induction false} ForeignErases(c: Config, calls: seq<Setter>)
    requires PanicFree(c, calls) && StaysForeign(calls)
    ensures c.mws == [] && c.rpcs == [] && c.mux.NoMux? && c.errHandlers == map[]
    ensures c.tls.Some? ==> SetTLS(None) in calls
    ensures c.readTO != 0 || c.writeTO != 0 || c.idleTO != 0 ==> SetTimeouts(0, 0, 0) in calls
    ensures forall s :: s in calls && Marks(s) ==> Erasable(calls, s)
    decreases |calls|
  {
    var s, rest := calls[0], calls[1..];
    var next := Record(c, s);
    assert calls == [s] + rest && s in calls;
    if Foreign(s) {
      OnlyServeFuncs(next, rest);
    } else {
      var f :| f in calls && Foreign(f);
      assert f in rest;
      if s.SetErrorHandler? {
        assert s.status in next.errHandlers;
      }
      ForeignErases(next, rest);
      forall t | t in calls && Marks(t) ensures Erasable(calls, t) {
        if t in rest {
          assert Erasable(rest, t);
        }
      }
    }
  }

  /** The condition does not depend on the order. */
  lemma FeasibleInAnyOrder(calls: seq<Setter>, perm: seq<Setter>)
    requires multiset(perm) == multiset(calls) && Feasible(perm)
    ensures Feasible(calls)
  {
    forall s ensures s in calls <==> s in perm {
      assert s in calls <==> s in multiset(calls);
      assert s in perm <==> s in multiset(perm);
    }
    forall i, j | 0 <= i < j < |calls| ensures !Doubles(calls[i], calls[j]) {
      OtherIndex(calls, i, j);
      assert calls[i] in multiset(calls);
      var k, l := PairOf(perm, calls[i], calls[j]);
      assert !Doubles(perm[if k < l then k else l], perm[if k < l then l else k]);
    }
    forall s | StaysForeign(calls) && s in calls && Marks(s) ensures Erasable(calls, s) {
      assert Erasable(perm, s);
    }
  }

  // ----- it is sufficient -----

  lemma {:induction false} FineConcat(c: Config, a: seq<Setter>, b: seq<Setter>)
    requires PanicFree(c, a) && PanicFree(Run(c, a), b)
    ensures PanicFree(c, a + b) && Run(c, a + b) == Run(Run(c, a), b)
    decreases |a|
  {
    if a == [] {
      assert a + b == b;
    } else {
      assert (a + b)[0] == a[0] && (a + b)[1..] == a[1..] + b;
      FineConcat(Record(c, a[0]), a[1..], b);
    }
  }

  /** With nothing of the pipeline configured, any number of ServeFunc calls is fine, and they
      leave the pipeline alone. */
  lemma {:induction false} ServeFuncsAreFine(c: Config, calls: seq<Setter>)
    requires NoPipeline(c) && forall s :: s in calls ==> s.ServeFunc?
    ensures PanicFree(c, calls) && NoPipeline(Run(c, calls))
    ensures (forall s :: s in calls ==> Resets(s)) && (calls != [] || c.serveFunc.None?) ==>
              Run(c, calls).serveFunc.None?
    decreases |calls|
  {
    if calls != [] {
      assert calls[0] in calls && calls == [calls[0]] + calls[1..];
      ServeFuncsAreFine(Record(c, calls[0]), calls[1..]);
    }
  }

  lemma NothingIsEmpty(c: Config)
    requires NoPipeline(c) && c.serveFunc.None?
    ensures c == EMPTY_CONFIG
  {
  }

  /** ServeFunc calls first, the undoing ones last of them, so that the rest is unhindered; a
      nil mux before a real one. */
  function ServeFuncFirst(s: Setter): nat {
    if Foreign(s) then 0 else if Resets(s) then 1 else if s.SetMux? && s.mux.NoMux? then 2 else 3
  }

  /** What erases after what is set, and ServeFunc last. */
  function ServeFuncLast(s: Setter): nat {
    if s.ServeFunc? then 2 else if Erases(s) then 1 else 0
  }

  lemma DistinctInRank(calls: seq<Setter>, perm: seq<Setter>)
    requires multiset(perm) <= multiset(calls)
    requires forall i, j :: 0 <= i < j < |calls| ==> !Doubles(calls[i], calls[j])
    ensures forall i, j :: 0 <= i < j < |perm| ==> !Doubles(perm[i], perm[j])
  {
    forall i, j | 0 <= i < j < |perm| ensures !Doubles(perm[i], perm[j]) {
      OtherIndex(perm, i, j);
      assert perm[i] in multiset(perm);
      var k, l := PairOf(calls, perm[i], perm[j]);
      assert !Doubles(calls[if k < l then k else l], calls[if k < l then l else k]);
    }
  }

  /** Calls other than ServeFunc that are in the right order are fine. */
  lemma PipelineIsFine(calls: seq<Setter>)
    requires forall s :: s in calls ==> WellFormed(s) && !s.ServeFunc?
    requires forall i, j :: 0 <= i < j < |calls| ==> !Doubles(calls[i], calls[j])
    requires forall i, j :: 0 <= i < j < |calls| ==> !(calls[i].SetMux? && calls[j].SetMux? && Marks(calls[i]))
    ensures PanicFree(EMPTY_CONFIG, calls)
  {
    forall i, j | 0 <= i < j < |calls| ensures !Refuses(calls[i], calls[j]) {
      assert calls[i] in calls && calls[j] in calls;
    }
    NoRefusalNoPanic(EMPTY_CONFIG, [], calls);
  }

  lemma ResetFirst(calls: seq<Setter>) returns (perm: seq<Setter>)
    requires Feasible(calls) && !StaysForeign(calls)
    ensures multiset(perm) == multiset(calls) && PanicFree(EMPTY_CONFIG, perm)
  {
    perm := Ranked(calls, ServeFuncFirst, 4);
    RankedIsPermutation(calls, ServeFuncFirst, 4);
    var foreign, resets := OfRank(calls, ServeFuncFirst, 0), OfRank(calls, ServeFuncFirst, 1);
    var rest := OfRank(calls, ServeFuncFirst, 2) + OfRank(calls, ServeFuncFirst, 3);
    assert perm == (foreign + resets) + rest by {
      assert Ranked(calls, ServeFuncFirst, 1) == foreign;
      assert Ranked(calls, ServeFuncFirst, 2) == foreign + resets;
      assert Ranked(calls, ServeFuncFirst, 3) == foreign + resets + OfRank(calls, ServeFuncFirst, 2);
    }
    ForeignThenReset(calls, foreign, resets);
    RestIsFine(calls, rest);
    FineConcat(EMPTY_CONFIG, foreign + resets, rest);
  }

  lemma ForeignThenReset(calls: seq<Setter>, foreign: seq<Setter>, resets: seq<Setter>)
    requires !StaysForeign(calls)
    requires foreign == OfRank(calls, ServeFuncFirst, 0) && resets == OfRank(calls, ServeFuncFirst, 1)
    ensures PanicFree(EMPTY_CONFIG, foreign + resets) && Run(EMPTY_CONFIG, foreign + resets) == EMPTY_CONFIG
  {
    forall s ensures (s in foreign <==> s in calls && Foreign(s)) && (s in resets <==> s in calls && Resets(s)) {
      OfRankHolds(calls, ServeFuncFirst, 0, s);
      OfRankHolds(calls, ServeFuncFirst, 1, s);
    }
    ServeFuncsAreFine(EMPTY_CONFIG, foreign);
    var c := Run(EMPTY_CONFIG, foreign);
    ServeFuncsAreFine(c, resets);
    FineConcat(EMPTY_CONFIG, foreign, resets);
    if foreign != [] {
      assert foreign[0] in foreign;
      var s :| s in calls && Resets(s);
      assert s in resets;
    }
    NothingIsEmpty(Run(c, resets));
  }

  lemma RestIsPart(calls: seq<Setter>, nils: seq<Setter>, others: seq<Setter>)
    requires nils == OfRank(calls, ServeFuncFirst, 2) && others == OfRank(calls, ServeFuncFirst, 3)
    ensures multiset(nils + others) <= multiset(calls)
  {
    RankedIsPermutation(calls, ServeFuncFirst, 4);
    var before := Ranked(calls, ServeFuncFirst, 2);
    assert Ranked(calls, ServeFuncFirst, 4) == (before + nils) + others == before + (nils + others);
  }

  lemma RestIsFine(calls: seq<Setter>, rest: seq<Setter>)
    requires Feasible(calls)
    requires rest == OfRank(calls, ServeFuncFirst, 2) + OfRank(calls, ServeFuncFirst, 3)
    ensures PanicFree(EMPTY_CONFIG, rest)
  {
    var nils, others := OfRank(calls, ServeFuncFirst, 2), OfRank(calls, ServeFuncFirst, 3);
    forall s ensures (s in nils ==> s in calls && s.SetMux? && s.mux.NoMux?)
                  && (s in others ==> s in calls && !s.ServeFunc? && !(s.SetMux? && s.mux.NoMux?))
    {
      OfRankHolds(calls, ServeFuncFirst, 2, s);
      OfRankHolds(calls, ServeFuncFirst, 3, s);
    }
    RestIsPart(calls, nils, others);
    DistinctInRank(calls, rest);
    forall i, j | 0 <= i < j < |rest| ensures !(rest[i].SetMux? && rest[j].SetMux? && Marks(rest[i])) {
      if i < |nils| {
        assert rest[i] in nils;
      } else {
        assert rest[j] == others[j - |nils|] && rest[j] in others;
      }
    }
    PipelineIsFine(rest);
  }

  /** After calls none of which is permanent, and then those that erase, nothing is left. */
  lemma {:induction false} KeepsOnly(c: Config, calls: seq<Setter>)
    requires PanicFree(c, calls) && forall s :: s in calls ==> !s.ServeFunc? && !Permanent(s)
    ensures var c' := Run(c, calls);
            && c'.mws == c.mws && c'.rpcs == c.rpcs && c'.mux == c.mux && c'.errHandlers == c.errHandlers
            && c'.serveFunc == c.serveFunc
            && (c'.tls.Some? ==> c.tls.Some? || exists s :: s in calls && s.SetTLS? && Marks(s))
            && (c'.readTO != 0 || c'.writeTO != 0 || c'.idleTO != 0 ==>
                  || (c.readTO != 0 || c.writeTO != 0 || c.idleTO != 0)
                  || exists s :: s in calls && s.SetTimeouts? && Marks(s))
    decreases |calls|
  {
    if calls != [] {
      assert calls[0] in calls && calls == [calls[0]] + calls[1..];
      KeepsOnly(Record(c, calls[0]), calls[1..]);
    }
  }

  lemma {:induction false} ErasersErase(c: Config, calls: seq<Setter>)
    requires PanicFree(c, calls) && forall s :: s in calls ==> Erases(s)
    requires c.tls.Some? ==> SetTLS(None) in calls
    requires c.readTO != 0 || c.writeTO != 0 || c.idleTO != 0 ==> SetTimeouts(0, 0, 0) in calls
    requires c.mws == [] && c.rpcs == [] && c.mux.NoMux? && c.errHandlers == map[]
    ensures NoPipeline(Run(c, calls)) && Run(c, calls).serveFunc == c.serveFunc
    decreases |calls|
  {
    if calls != [] {
      assert calls[0] in calls && calls == [calls[0]] + calls[1..];
      ErasersErase(Record(c, calls[0]), calls[1..]);
    }
  }

  lemma EraseFirst(calls: seq<Setter>) returns (perm: seq<Setter>)
    requires Feasible(calls) && StaysForeign(calls)
    ensures multiset(perm) == multiset(calls) && PanicFree(EMPTY_CONFIG, perm)
  {
    perm := Ranked(calls, ServeFuncLast, 3);
    RankedIsPermutation(calls, ServeFuncLast, 3);
    var sets, erasers := OfRank(calls, ServeFuncLast, 0), OfRank(calls, ServeFuncLast, 1);
    var foreign := OfRank(calls, ServeFuncLast, 2);
    assert perm == (sets + erasers) + foreign by {
      assert Ranked(calls, ServeFuncLast, 1) == sets;
      assert Ranked(calls, ServeFuncLast, 2) == sets + erasers;
    }
    forall s | s in foreign ensures s.ServeFunc? {
      OfRankHolds(calls, ServeFuncLast, 2, s);
    }
    SetThenErased(calls, sets, erasers);
    ServeFuncsAreFine(Run(EMPTY_CONFIG, sets + erasers), foreign);
    FineConcat(EMPTY_CONFIG, sets + erasers, foreign);
  }

  lemma SetThenErased(calls: seq<Setter>, sets: seq<Setter>, erasers: seq<Setter>)
    requires Feasible(calls) && StaysForeign(calls)
    requires sets == OfRank(calls, ServeFuncLast, 0) && erasers == OfRank(calls, ServeFuncLast, 1)
    ensures PanicFree(EMPTY_CONFIG, sets + erasers) && NoPipeline(Run(EMPTY_CONFIG, sets + erasers))
  {
    forall s ensures (s in sets ==> s in calls && !s.ServeFunc?) && (s in erasers <==> s in calls && Erases(s)) {
      OfRankHolds(calls, ServeFuncLast, 0, s);
      OfRankHolds(calls, ServeFuncLast, 1, s);
    }
    SetsAreFine(calls, sets + erasers);
    ErasedAfter(calls, sets, erasers);
  }

  lemma SetsAreFine(calls: seq<Setter>, all: seq<Setter>)
    requires Feasible(calls) && StaysForeign(calls)
    requires all == OfRank(calls, ServeFuncLast, 0) + OfRank(calls, ServeFuncLast, 1)
    ensures PanicFree(EMPTY_CONFIG, all)
    ensures forall s :: s in all ==> !Permanent(s)
  {
    assert Ranked(calls, ServeFuncLast, 1) == OfRank(calls, ServeFuncLast, 0);
    assert all == Ranked(calls, ServeFuncLast, 2);
    RankedIsPermutation(calls, ServeFuncLast, 3);
    assert multiset(all) <= multiset(calls);
    DistinctInRank(calls, all);
    forall s | s in all ensures WellFormed(s) && !s.ServeFunc? && !Permanent(s) {
      RankedHolds(calls, ServeFuncLast, 2, s);
      assert Marks(s) ==> Erasable(calls, s);
    }
    NoneMarksMux(all);
    PipelineIsFine(all);
  }

  lemma NoneMarksMux(all: seq<Setter>)
    requires forall s :: s in all ==> !Permanent(s)
    ensures forall i, j :: 0 <= i < j < |all| ==> !(all[i].SetMux? && all[j].SetMux? && Marks(all[i]))
  {
    forall i, j | 0 <= i < j < |all| ensures !(all[i].SetMux? && all[j].SetMux? && Marks(all[i])) {
      assert all[i] in all;
    }
  }

  lemma {:induction false} FineSuffix(c: Config, a: seq<Setter>, b: seq<Setter>)
    requires PanicFree(c, a + b)
    ensures PanicFree(c, a) && PanicFree(Run(c, a), b)
    decreases |a|
  {
    if a == [] {
      assert a + b == b;
    } else {
      assert (a + b)[0] == a[0] && (a + b)[1..] == a[1..] + b;
      FineSuffix(Record(c, a[0]), a[1..], b);
    }
  }

  lemma ErasedAfter(calls: seq<Setter>, sets: seq<Setter>, erasers: seq<Setter>)
    requires PanicFree(EMPTY_CONFIG, sets + erasers)
    requires forall s :: s in calls && Marks(s) ==> Erasable(calls, s)
    requires forall s :: s in sets ==> s in calls && !s.ServeFunc?
    requires forall s :: s in sets + erasers ==> !Permanent(s)
    requires forall s :: s in erasers <==> s in calls && Erases(s)
    ensures NoPipeline(Run(EMPTY_CONFIG, sets + erasers))
  {
    FineSuffix(EMPTY_CONFIG, sets, erasers);
    FineConcat(EMPTY_CONFIG, sets, erasers);
    KeepsOnly(EMPTY_CONFIG, sets);
    var c := Run(EMPTY_CONFIG, sets);
    if s :| s in sets && s.SetTLS? && Marks(s) {
      assert Erasable(calls, s);
    }
    if s :| s in sets && s.SetTimeouts? && Marks(s) {
      assert Erasable(calls, s);
    }
    ErasersErase(c, erasers);
  }

  // ----- main results -----

  ghost predicate FineInSomeOrder(calls: seq<Setter>) {
    exists perm: seq<Setter> :: multiset(perm) == multiset(calls) && PanicFree(EMPTY_CONFIG, perm)
  }

  /** For arbitrary arguments: some order of the calls configures a binding without a panic
      exactly when each call alone does, no two register a handler for one status or set a
      mux, and, if a ServeFunc is called and none undone, nothing is set that cannot be unset
      and what can be is unset by some call. */
  lemma FineInSomeOrderIff(calls: seq<Setter>)
    ensures FineInSomeOrder(calls) <==> Feasible(calls)
  {
    if FineInSomeOrder(calls) {
      var perm: seq<Setter> :| multiset(perm) == multiset(calls) && PanicFree(EMPTY_CONFIG, perm);
      NoDoubles(EMPTY_CONFIG, perm);
      if StaysForeign(perm) {
        ForeignErases(EMPTY_CONFIG, perm);
      }
      FeasibleInAnyOrder(calls, perm);
    }
    if Feasible(calls) {
      var perm: seq<Setter>;
      if StaysForeign(calls) {
        perm := EraseFirst(calls);
      } else {
        perm := ResetFirst(calls);
      }
      assert multiset(perm) == multiset(calls) && PanicFree(EMPTY_CONFIG, perm);
    }
  }

  ghost predicate OrderDoesNotMatter(calls: seq<Setter>) {
    forall a: seq<Setter>, b: seq<Setter> ::
      multiset(a) == multiset(calls) && multiset(b) == multiset(calls) ==>
        (PanicFree(EMPTY_CONFIG, a) <==> PanicFree(EMPTY_CONFIG, b))
  }

  /** The order of a set of calls does not matter exactly when no two of them may clash, or when
      no order could make them fine. */
  lemma OrderDoesNotMatterIff(calls: seq<Setter>)
    ensures OrderDoesNotMatter(calls) <==>
            || !Feasible(calls)
            || ((forall s :: s in calls ==> WellFormed(s))
                && (forall i, j :: 0 <= i < j < |calls| ==> !MayClash(calls[i], calls[j])))
  {
    FineInSomeOrderIff(calls);
    FineInAnyOrderIff(calls);
    assert OrderDoesNotMatter(calls) <==> !FineInSomeOrder(calls) || FineInAnyOrder(calls) by {
      if OrderDoesNotMatter(calls) && FineInSomeOrder(calls) {
        var a: seq<Setter> :| multiset(a) == multiset(calls) && PanicFree(EMPTY_CONFIG, a);
        forall b: seq<Setter> | multiset(b) == multiset(calls) ensures PanicFree(EMPTY_CONFIG, b) {
        }
      }
    }
  }
}
