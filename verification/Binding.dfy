/** binding.go: the setters of a Binding, their mutual exclusions, and the handler it builds. */
module BindingModel {
  import opened Basics
  import opened ResponseWriters
  import opened Handlers
  import Laws = HandlerLaws
  import opened Responses

  /** A handler supplied by the user, as opposed to scaffold's own defaults. */
  type UserHandler = t: Terminal | t.Registered? witness Registered(0, Body([], false))

  /** What the setters accumulate. Function and pointer values are opaque identities. */
  datatype Config = Config(
    mws: seq<Middleware>, rpcs: seq<Rpc>, mux: Mux, errHandlers: map<ErrorStatus, UserHandler>,
    tls: Option<nat>, readTO: int, writeTO: int, idleTO: int, serveFunc: Option<nat>)

  const EMPTY_CONFIG := Config([], [], NoMux, map[], None, 0, 0, 0, None)

  datatype Setter =
    | UseMiddleware(mws: seq<Middleware>)
    | AddRPC(handlers: seq<Rpc>)
    | SetMux(mux: Mux)
    | SetErrorHandler(status: ErrorStatus, handler: Option<UserHandler>)
    | SetTLS(cfg: Option<nat>)
    | SetTimeouts(read: int, write: int, idle: int)
    | ServeFunc(fn: Option<nat>)

  predicate Known(status: ErrorStatus) {
    status == ERROR_STATUS_404 || status == ERROR_STATUS_500
  }

  /** No HTTP-pipeline state is configured. */
  predicate NoPipeline(c: Config) {
    c == EMPTY_CONFIG.(serveFunc := c.serveFunc)
  }

  predicate Accepts(c: Config, s: Setter) {
    match s
    case SetMux(_) => c.serveFunc.None? && c.mux.NoMux?
    case SetErrorHandler(status, handler) =>
      c.serveFunc.None? && handler.Some? && Known(status) && status !in c.errHandlers
    case ServeFunc(_) => NoPipeline(c)
    case _ => c.serveFunc.None?
  }

  function Record(c: Config, s: Setter): Config
    requires Accepts(c, s)
  {
    match s
    case UseMiddleware(mws) => c.(mws := c.mws + mws)
    case AddRPC(handlers) => c.(rpcs := c.rpcs + handlers)
    case SetMux(mux) => c.(mux := mux)
    case SetErrorHandler(status, handler) => c.(errHandlers := c.errHandlers[status := handler.value])
    case SetTLS(cfg) => c.(tls := cfg)
    case SetTimeouts(read, write, idle) => c.(readTO := read, writeTO := write, idleTO := idle)
    case ServeFunc(fn) => c.(serveFunc := fn)
  }

  /** One setter call; a panicking one is recovered by the caller. */
  function Step(c: Config, s: Setter): Config {
    if Accepts(c, s) then Record(c, s) else c
  }

  function Run(c: Config, calls: seq<Setter>): Config
    decreases |calls|
  {
    if calls == [] then c else Run(Step(c, calls[0]), calls[1..])
  }

  predicate PanicFree(c: Config, calls: seq<Setter>)
    decreases |calls|
  {
    calls == [] || (Accepts(c, calls[0]) && PanicFree(Record(c, calls[0]), calls[1..]))
  }

  // ----- what every sequence of calls keeps -----

  predicate Consistent(c: Config) {
    && (c.serveFunc.Some? ==> NoPipeline(c))
    && (forall status :: status in c.errHandlers ==> Known(status))
  }

  /** Over any sequence of setter calls with panics recovered, a ServeFunc excludes every part
      of the HTTP pipeline, and only the two known statuses ever get a handler. */
  lemma {:induction false} RunStaysConsistent(c: Config, calls: seq<Setter>)
    requires Consistent(c)
    ensures Consistent(Run(c, calls))
    decreases |calls|
  {
    if calls != [] {
      RunStaysConsistent(Step(c, calls[0]), calls[1..]);
    }
  }

  // ----- what the calls leave behind -----

  /** The calls that do not panic. */
  function Taken(c: Config, calls: seq<Setter>): seq<Setter>
    decreases |calls|
  {
    if calls == [] then []
    else (if Accepts(c, calls[0]) then [calls[0]] else []) + Taken(Step(c, calls[0]), calls[1..])
  }

  function MiddlewareBy(s: Setter): seq<Middleware> { if s.UseMiddleware? then s.mws else [] }

  function RpcsBy(s: Setter): seq<Rpc> { if s.AddRPC? then s.handlers else [] }

  predicate IsSetMux(s: Setter) { s.SetMux? }
  predicate IsSetTLS(s: Setter) { s.SetTLS? }
  predicate IsSetTimeouts(s: Setter) { s.SetTimeouts? }
  predicate IsServeFunc(s: Setter) { s.ServeFunc? }

  /** The last of the calls that is of a kind; what it set is in force. */
  function LastCall(calls: seq<Setter>, kind: Setter -> bool): (last: Option<Setter>)
    ensures last.Some? ==> kind(last.value) && last.value in calls
  {
    if calls == [] then None
    else
      var s := calls[|calls| - 1];
      if kind(s) then Some(s) else LastCall(calls[..|calls| - 1], kind)
  }

  ghost predicate KeepsHandlers(c: Config, calls: seq<Setter>) {
    && (forall status :: status in c.errHandlers ==> SetErrorHandler(status, Some(c.errHandlers[status])) in calls)
    && (forall s :: s in calls && s.SetErrorHandler? ==>
          s.status in c.errHandlers && Some(c.errHandlers[s.status]) == s.handler)
  }

  /** The configuration is what the calls, all accepted, were given: the arguments of
      UseMiddleware and of AddRPC joined in call order, one error handler per status, and
      everything else from the last call that set it. */
  ghost predicate Keeps(c: Config, calls: seq<Setter>) {
    var mux := LastCall(calls, IsSetMux);
    var tls := LastCall(calls, IsSetTLS);
    var timeouts := LastCall(calls, IsSetTimeouts);
    var fn := LastCall(calls, IsServeFunc);
    && c.mws == Collect(calls, MiddlewareBy)
    && c.rpcs == Collect(calls, RpcsBy)
    && c.mux == (if mux.Some? then mux.value.mux else NoMux)
    && KeepsHandlers(c, calls)
    && c.tls == (if tls.Some? then tls.value.cfg else None)
    && (c.readTO == if timeouts.Some? then timeouts.value.read else 0)
    && (c.writeTO == if timeouts.Some? then timeouts.value.write else 0)
    && (c.idleTO == if timeouts.Some? then timeouts.value.idle else 0)
    && c.serveFunc == (if fn.Some? then fn.value.fn else None)
  }

  lemma KeepsOneMore(c: Config, calls: seq<Setter>, s: Setter)
    requires Keeps(c, calls) && Accepts(c, s)
    ensures Keeps(Record(c, s), calls + [s])
  {
    assert (calls + [s])[..|calls|] == calls;
    CollectEmit(calls, MiddlewareBy, s);
    CollectEmit(calls, RpcsBy, s);
    HandlersOneMore(c, calls, s);
  }

  lemma HandlersOneMore(c: Config, calls: seq<Setter>, s: Setter)
    requires KeepsHandlers(c, calls) && Accepts(c, s)
    ensures KeepsHandlers(Record(c, s), calls + [s])
  {
    assert forall x :: x in calls + [s] <==> x in calls || x == s;
  }

  lemma KeepsStep(c: Config, calls: seq<Setter>, s: Setter)
    requires Keeps(c, calls)
    ensures Keeps(Step(c, s), calls + if Accepts(c, s) then [s] else [])
  {
    if Accepts(c, s) {
      KeepsOneMore(c, calls, s);
    } else {
      assert calls + [] == calls;
    }
  }

  lemma {:induction false} KeepsAll(done: seq<Setter>, c: Config, calls: seq<Setter>, all: seq<Setter>)
    requires Keeps(c, done) && all == done + Taken(c, calls)
    ensures Keeps(Run(c, calls), all)
    decreases |calls|
  {
    if calls == [] {
      assert all == done;
    } else {
      KeepsStep(c, done, calls[0]);
      KeepsAll(done + if Accepts(c, calls[0]) then [calls[0]] else [], Step(c, calls[0]), calls[1..], all);
    }
  }

  lemma {:induction false} AllTaken(c: Config, calls: seq<Setter>)
    requires PanicFree(c, calls)
    ensures Taken(c, calls) == calls
    decreases |calls|
  {
    if calls != [] {
      AllTaken(Record(c, calls[0]), calls[1..]);
    }
  }

  /** After any sequence of setter calls with panics recovered, the configuration is what the
      calls that did not panic were given, and these are all of them if none panics. */
  lemma SettersAreKept(calls: seq<Setter>)
    ensures Keeps(Run(EMPTY_CONFIG, calls), Taken(EMPTY_CONFIG, calls))
    ensures PanicFree(EMPTY_CONFIG, calls) ==> Taken(EMPTY_CONFIG, calls) == calls
  {
    KeepsAll([], EMPTY_CONFIG, calls, Taken(EMPTY_CONFIG, calls));
    if PanicFree(EMPTY_CONFIG, calls) {
      AllTaken(EMPTY_CONFIG, calls);
    }
  }

  // ----- order of the calls -----

  /** A call whose arguments leave a trace: neither empty, nil nor zero. */
  predicate NonTrivial(s: Setter) {
    match s
    case UseMiddleware(mws) => mws != []
    case AddRPC(handlers) => handlers != []
    case SetMux(mux) => !mux.NoMux?
    case SetErrorHandler(_, handler) => handler.Some?
    case SetTLS(cfg) => cfg.Some?
    case SetTimeouts(read, write, idle) => read != 0 || write != 0 || idle != 0
    case ServeFunc(fn) => fn.Some?
  }

  predicate WellFormed(s: Setter) {
    s.SetErrorHandler? ==> s.handler.Some? && Known(s.status)
  }

  /** Two calls that cannot both succeed on one binding, in either order. */
  predicate Clash(a: Setter, b: Setter) {
    || (a.ServeFunc? <==> !b.ServeFunc?)
    || (a.SetMux? && b.SetMux?)
    || (a.SetErrorHandler? && b.SetErrorHandler? && a.status == b.status)
  }

  /** The configuration holds a trace of some call that clashes with s. */
  predicate Blocks(c: Config, s: Setter) {
    || (c.serveFunc.Some? && !s.ServeFunc?)
    || (s.ServeFunc? && !NoPipeline(c))
    || (s.SetMux? && !c.mux.NoMux?)
    || (s.SetErrorHandler? && s.status in c.errHandlers)
  }

  ghost predicate PairwiseFine(calls: seq<Setter>) {
    && (forall i :: 0 <= i < |calls| ==> WellFormed(calls[i]))
    && (forall i, j :: 0 <= i < j < |calls| ==> !Clash(calls[i], calls[j]))
  }

  /** Panic-freedom of non-trivial calls is a pairwise matter. */
  lemma {:induction false} PanicFreeIff(c: Config, calls: seq<Setter>)
    requires forall s :: s in calls ==> NonTrivial(s)
    ensures PanicFree(c, calls) <==>
            PairwiseFine(calls) && forall i :: 0 <= i < |calls| ==> !Blocks(c, calls[i])
    decreases |calls|
  {
    if calls != [] {
      var s, rest := calls[0], calls[1..];
      assert Accepts(c, s) <==> WellFormed(s) && !Blocks(c, s);
      if Accepts(c, s) {
        var next := Record(c, s);
        PanicFreeIff(next, rest);
        forall i | 0 <= i < |rest|
          ensures Blocks(next, rest[i]) <==> Blocks(c, rest[i]) || Clash(s, rest[i])
        {
          RecordBlocks(c, s, rest[i]);
        }
        SplitPairs(calls);
        assert forall i :: 0 <= i < |rest| ==> rest[i] == calls[i + 1];
      }
    }
  }

  lemma RecordBlocks(c: Config, s: Setter, t: Setter)
    requires Accepts(c, s) && NonTrivial(s)
    ensures Blocks(Record(c, s), t) <==> Blocks(c, t) || Clash(s, t)
  {
    if s.SetErrorHandler? {
      assert s.status in Record(c, s).errHandlers;
    }
  }

  lemma SplitPairs(calls: seq<Setter>)
    requires calls != []
    ensures PairwiseFine(calls) <==>
            && WellFormed(calls[0])
            && PairwiseFine(calls[1..])
            && forall i :: 0 <= i < |calls| - 1 ==> !Clash(calls[0], calls[1..][i])
  {
    var rest := calls[1..];
    if PairwiseFine(calls) {
      forall i, j | 0 <= i < j < |rest| ensures !Clash(rest[i], rest[j]) {
        assert !Clash(calls[i + 1], calls[j + 1]);
      }
      forall i | 0 <= i < |rest| ensures !Clash(calls[0], rest[i]) {
        assert !Clash(calls[0], calls[i + 1]);
      }
    }
    if WellFormed(calls[0]) && PairwiseFine(rest) && forall i :: 0 <= i < |rest| ==> !Clash(calls[0], rest[i]) {
      forall i, j | 0 <= i < j < |calls| ensures !Clash(calls[i], calls[j]) {
        assert calls[j] == rest[j - 1];
        if i > 0 {
          assert calls[i] == rest[i - 1];
        }
      }
    }
  }

  /** The same condition read off the multiset of calls. */
  ghost predicate Harmonious(m: multiset<Setter>) {
    && (forall s :: s in m ==> WellFormed(s))
    && (forall a, b :: a in m && b in m - multiset{a} ==> !Clash(a, b))
  }

  lemma OtherIndex(calls: seq<Setter>, i: nat, j: nat)
    requires i < |calls| && j < |calls| && i != j
    ensures calls[j] in multiset(calls) - multiset{calls[i]}
  {
    assert calls == calls[..i] + [calls[i]] + calls[i + 1..];
    assert multiset(calls) == multiset(calls[..i]) + multiset{calls[i]} + multiset(calls[i + 1..]);
    if j < i {
      assert calls[j] in calls[..i];
    } else {
      assert calls[j] == calls[i + 1..][j - i - 1];
      assert calls[j] in calls[i + 1..];
    }
  }

  lemma PairOf(calls: seq<Setter>, a: Setter, b: Setter) returns (i: nat, j: nat)
    requires a in multiset(calls) && b in multiset(calls) - multiset{a}
    ensures i < |calls| && j < |calls| && i != j && calls[i] == a && calls[j] == b
  {
    i :| 0 <= i < |calls| && calls[i] == a;
    assert calls == calls[..i] + [calls[i]] + calls[i + 1..];
    assert multiset(calls) == multiset(calls[..i]) + multiset{calls[i]} + multiset(calls[i + 1..]);
    if b in calls[..i] {
      j :| 0 <= j < i && calls[j] == b;
    } else {
      assert b in calls[i + 1..];
      var k :| 0 <= k < |calls| - i - 1 && calls[i + 1..][k] == b;
      j := i + 1 + k;
    }
  }

  lemma PairwiseIsHarmonious(calls: seq<Setter>)
    ensures PairwiseFine(calls) <==> Harmonious(multiset(calls))
  {
    var m := multiset(calls);
    assert forall s :: s in m <==> s in calls;
    if PairwiseFine(calls) {
      forall a, b | a in m && b in m - multiset{a} ensures !Clash(a, b) {
        var i, j := PairOf(calls, a, b);
        assert !Clash(calls[if i < j then i else j], calls[if i < j then j else i]);
      }
    }
    if Harmonious(m) {
      forall i, j | 0 <= i < j < |calls| ensures !Clash(calls[i], calls[j]) {
        OtherIndex(calls, i, j);
      }
    }
  }

  /** Whether a set of non-trivial calls configures a binding without a panic does not depend
      on the order of the calls. */
  lemma PanicFreedomIgnoresOrder(a: seq<Setter>, b: seq<Setter>)
    requires multiset(a) == multiset(b)
    requires forall s :: s in a ==> NonTrivial(s)
    ensures PanicFree(EMPTY_CONFIG, a) <==> PanicFree(EMPTY_CONFIG, b)
    ensures PanicFree(EMPTY_CONFIG, a) <==> Harmonious(multiset(a))
  {
    forall s | s in b ensures NonTrivial(s) {
      assert s in multiset(b);
      assert s in a;
    }
    PanicFreeIff(EMPTY_CONFIG, a);
    PanicFreeIff(EMPTY_CONFIG, b);
    PairwiseIsHarmonious(a);
    PairwiseIsHarmonious(b);
  }

  // ----- any arguments -----

  /** What the call sets is something ServeFunc refuses to follow. */
  predicate Marks(s: Setter) {
    match s
    case UseMiddleware(mws) => mws != []
    case AddRPC(handlers) => handlers != []
    case SetMux(mux) => !mux.NoMux?
    case SetErrorHandler(_, _) => true
    case SetTLS(cfg) => cfg.Some?
    case SetTimeouts(read, write, idle) => read != 0 || write != 0 || idle != 0
    case ServeFunc(_) => false
  }

  /** The guard that b panics on when it directly follows a on a fresh binding. */
  predicate Refuses(a: Setter, b: Setter) {
    || (a.ServeFunc? && a.fn.Some? && !b.ServeFunc?)
    || (b.ServeFunc? && Marks(a))
    || (a.SetMux? && b.SetMux? && !a.mux.NoMux?)
    || (a.SetErrorHandler? && b.SetErrorHandler? && a.status == b.status)
  }

  predicate MayClash(a: Setter, b: Setter) {
    Refuses(a, b) || Refuses(b, a)
  }

  /** The guards say exactly which calls, alone or in pairs, a fresh binding accepts. */
  lemma PairsAreAccepted(a: Setter, b: Setter)
    ensures PanicFree(EMPTY_CONFIG, [a]) <==> WellFormed(a)
    ensures WellFormed(a) && WellFormed(b) ==> (PanicFree(EMPTY_CONFIG, [a, b]) <==> !Refuses(a, b))
  {
    assert [a][1..] == [] && [a, b][1..] == [b] && [b][1..] == [];
    if WellFormed(a) && WellFormed(b) {
      var c := Record(EMPTY_CONFIG, a);
      if a.SetErrorHandler? {
        assert a.status in c.errHandlers;
      }
      if Accepts(c, b) {
        assert PanicFree(Record(c, b), [b][1..]);
      }
      assert PanicFree(c, [b]) <==> Accepts(c, b);
      assert PanicFree(EMPTY_CONFIG, [a, b]) <==> PanicFree(c, [a, b][1..]);
    }
  }

  /** Whatever the configuration holds, one of the calls made so far has put there. */
  ghost predicate Explained(c: Config, done: seq<Setter>) {
    && (c.serveFunc.Some? ==> exists a :: a in done && a.ServeFunc? && a.fn.Some?)
    && (!NoPipeline(c) ==> exists a :: a in done && Marks(a))
    && (!c.mux.NoMux? ==> exists a :: a in done && a.SetMux? && !a.mux.NoMux?)
    && (forall status :: status in c.errHandlers ==>
          exists a :: a in done && a.SetErrorHandler? && a.status == status)
  }

  lemma ExplainedStep(c: Config, done: seq<Setter>, s: Setter)
    requires Explained(c, done) && Accepts(c, s)
    ensures Explained(Record(c, s), done + [s])
  {
    var c', all := Record(c, s), done + [s];
    assert s in all && forall a :: a in done ==> a in all;
    forall status | status in c'.errHandlers
      ensures exists a :: a in all && a.SetErrorHandler? && a.status == status
    {
      if status in c.errHandlers {
        var a :| a in done && a.SetErrorHandler? && a.status == status;
        assert a in all;
      }
    }
  }

  /** Calls none of which refuses a later one do not panic. */
  lemma {:induction false} NoRefusalNoPanic(c: Config, done: seq<Setter>, calls: seq<Setter>)
    requires Explained(c, done)
    requires forall s :: s in calls ==> WellFormed(s)
    requires forall a, b :: a in done && b in calls ==> !Refuses(a, b)
    requires forall i, j :: 0 <= i < j < |calls| ==> !Refuses(calls[i], calls[j])
    ensures PanicFree(c, calls)
    decreases |calls|
  {
    if calls != [] {
      var s, rest := calls[0], calls[1..];
      assert s in calls;
      assert Accepts(c, s);
      ExplainedStep(c, done, s);
      forall a, b | a in done + [s] && b in rest ensures !Refuses(a, b) {
        var j :| 0 <= j < |rest| && rest[j] == b;
        assert calls[j + 1] == b;
      }
      NoRefusalNoPanic(Record(c, s), done + [s], rest);
    }
  }

  lemma {:induction false} PanicFreePrefix(c: Config, a: seq<Setter>, b: seq<Setter>)
    requires PanicFree(c, a + b)
    ensures PanicFree(c, a)
    decreases |a|
  {
    if a != [] {
      assert (a + b)[0] == a[0] && (a + b)[1..] == a[1..] + b;
      PanicFreePrefix(Record(c, a[0]), a[1..], b);
    }
  }

  ghost predicate FineInAnyOrder(calls: seq<Setter>) {
    forall perm: seq<Setter> :: multiset(perm) == multiset(calls) ==> PanicFree(EMPTY_CONFIG, perm)
  }

  /** For arbitrary arguments, empty, nil and zero ones included: a set of calls configures a
      binding without a panic in every order exactly when each call alone does and no two of
      them may clash. */
  lemma FineInAnyOrderIff(calls: seq<Setter>)
    ensures FineInAnyOrder(calls) <==>
            && (forall s :: s in calls ==> WellFormed(s))
            && (forall i, j :: 0 <= i < j < |calls| ==> !MayClash(calls[i], calls[j]))
  {
    if FineInAnyOrder(calls) {
      forall s | s in calls ensures WellFormed(s) {
        var i :| 0 <= i < |calls| && calls[i] == s;
        MovedToFront(calls, i);
      }
      forall i, j | 0 <= i < j < |calls| ensures !MayClash(calls[i], calls[j]) {
        PairFirst(calls, i, j);
      }
    }
    if && (forall s :: s in calls ==> WellFormed(s))
       && (forall i, j :: 0 <= i < j < |calls| ==> !MayClash(calls[i], calls[j]))
    {
      forall perm: seq<Setter> | multiset(perm) == multiset(calls) ensures PanicFree(EMPTY_CONFIG, perm) {
        AnyOrderIsFine(calls, perm);
      }
    }
  }

  lemma StartsFine(calls: seq<Setter>, first: seq<Setter>, rest: seq<Setter>)
    requires FineInAnyOrder(calls) && multiset(first + rest) == multiset(calls)
    ensures PanicFree(EMPTY_CONFIG, first)
  {
    PanicFreePrefix(EMPTY_CONFIG, first, rest);
  }

  lemma MovedToFront(calls: seq<Setter>, i: nat)
    requires FineInAnyOrder(calls) && i < |calls|
    ensures WellFormed(calls[i])
  {
    var rest := calls[..i] + calls[i + 1..];
    assert calls == calls[..i] + [calls[i]] + calls[i + 1..];
    assert multiset([calls[i]] + rest) == multiset(calls);
    StartsFine(calls, [calls[i]], rest);
    PairsAreAccepted(calls[i], calls[i]);
  }

  lemma PairFirst(calls: seq<Setter>, i: nat, j: nat)
    requires FineInAnyOrder(calls) && i < j < |calls|
    ensures !MayClash(calls[i], calls[j])
  {
    var a, b, p, q, r := calls[i], calls[j], calls[..i], calls[i + 1..j], calls[j + 1..];
    MovedToFront(calls, i);
    MovedToFront(calls, j);
    assert calls == p + [a] + q + [b] + r;
    SamePieces(a, b, p, q, r);
    StartsFine(calls, [a, b], p + q + r);
    StartsFine(calls, [b, a], p + q + r);
    PairsAreAccepted(a, b);
    PairsAreAccepted(b, a);
  }

  lemma SamePieces<T>(a: T, b: T, p: seq<T>, q: seq<T>, r: seq<T>)
    ensures multiset([a, b] + (p + q + r)) == multiset(p + [a] + q + [b] + r)
    ensures multiset([b, a] + (p + q + r)) == multiset(p + [a] + q + [b] + r)
  {
  }

  lemma AnyOrderIsFine(calls: seq<Setter>, perm: seq<Setter>)
    requires multiset(perm) == multiset(calls)
    requires forall s :: s in calls ==> WellFormed(s)
    requires forall i, j :: 0 <= i < j < |calls| ==> !MayClash(calls[i], calls[j])
    ensures PanicFree(EMPTY_CONFIG, perm)
  {
    forall s | s in perm ensures WellFormed(s) {
      assert s in multiset(perm);
      assert s in calls;
    }
    forall i, j | 0 <= i < j < |perm| ensures !Refuses(perm[i], perm[j]) {
      OtherIndex(perm, i, j);
      assert perm[i] in multiset(perm);
      var k, l := PairOf(calls, perm[i], perm[j]);
      assert !MayClash(calls[if k < l then k else l], calls[if k < l then l else k]);
    }
    NoRefusalNoPanic(EMPTY_CONFIG, [], perm);
  }

  /** An empty argument list leaves no trace, and then the order does matter. */
  lemma EmptyArgumentsDependOnOrder()
    ensures PanicFree(EMPTY_CONFIG, [UseMiddleware([]), ServeFunc(Some(0))])
    ensures !PanicFree(EMPTY_CONFIG, [ServeFunc(Some(0)), UseMiddleware([])])
  {
    PairsAreAccepted(UseMiddleware([]), ServeFunc(Some(0)));
    PairsAreAccepted(ServeFunc(Some(0)), UseMiddleware([]));
  }

  /** A nil argument erases the trace of an earlier call, and then the order matters too. */
  lemma ErasingArgumentsDependOnOrder()
    ensures PanicFree(EMPTY_CONFIG, [SetTLS(Some(1)), SetTLS(None), ServeFunc(Some(0))])
    ensures !PanicFree(EMPTY_CONFIG, [SetTLS(None), SetTLS(Some(1)), ServeFunc(Some(0))])
  {
    var a, b, f := SetTLS(Some(1)), SetTLS(None), ServeFunc(Some(0));
    assert [a, b, f][1..] == [b, f] && [b, f][1..] == [f] && [f][1..] == [];
    assert Record(Record(EMPTY_CONFIG, a), b) == EMPTY_CONFIG;
    assert PanicFree(EMPTY_CONFIG, [f]);
    assert [b, a, f][1..] == [a, f] && [a, f][1..] == [f];
    assert Record(EMPTY_CONFIG, b) == EMPTY_CONFIG;
    assert !Accepts(Record(EMPTY_CONFIG, a), f);
  }

  // ----- the handler -----

  function ResolveErrorHandler(c: Config, status: ErrorStatus): Terminal {
    if status in c.errHandlers then c.errHandlers[status] else Default(status)
  }

  /** What a request to the binding must go through. */
  function Pipeline(c: Config): Handler {
    var chain := Chain(c.mws, Core(c));
    if |c.errHandlers| > 0 then WithErrors(c.errHandlers, chain) else chain
  }

  function Core(c: Config): Handler {
    Dispatch(c.rpcs, c.mux, ResolveErrorHandler(c, ERROR_STATUS_404))
  }

  /** The context the middleware sees. */
  function BindingCtx(c: Config): Ctx {
    if |c.errHandlers| > 0 then WithHandlers(Root, c.errHandlers) else Root
  }

  lemma ServeBinding(c: Config, w: Writer)
    ensures Serve(Pipeline(c), 0, Root, "", w).events
         == Serve(Chain(c.mws[0..], Core(c)), 0, BindingCtx(c), "", w).events
    ensures Serve(Pipeline(c), 0, Root, "", w).panicked
         == Serve(Chain(c.mws[0..], Core(c)), 0, BindingCtx(c), "", w).panicked
    ensures Serve(Pipeline(c), 0, Root, "", w).sent
         == Serve(Chain(c.mws[0..], Core(c)), 0, BindingCtx(c), "", w).sent
    ensures Resolve500(BindingCtx(c)) == ResolveErrorHandler(c, ERROR_STATUS_500)
  {
    assert c.mws[0..] == c.mws;
    if |c.errHandlers| == 0 {
      assert c.errHandlers == map[];
    }
  }

  /** Registering an error handler makes the binding hand on a copy of every request: the route
      that its mux finds is not seen outside the binding. */
  lemma ErrorHandlersHideRoute(c: Config, pattern: string, w: Writer)
    ensures var r := Serve(Pipeline(c), 0, Root, pattern, w);
            r.pattern == if c.errHandlers != map[] then pattern
                         else if MuxServed in r.events && c.mux.ServeMux? && !Laws.CopiesFrom(c.mws, 0)
                         then c.mux.pattern else pattern
  {
    assert c.mws[0..] == c.mws;
    if |c.errHandlers| == 0 {
      Laws.PatternFlows(c.mws, Core(c), 0, Root, pattern, w);
    }
  }

  /** A PanicRecovery anywhere in the chain answers with the handler that resolveErrorHandler
      gives for 500, found through the request's context, unless a middleware outside it has
      dropped the context; dropping it is harmless only when no 500 handler is registered. */
  lemma RecoveryUsesBindingHandler(c: Config, w: Writer, i: nat, t: Terminal)
    requires Served500(i, t) in Serve(Pipeline(c), 0, Root, "", w).events
    ensures t == ResolveErrorHandler(c, ERROR_STATUS_500)
      <==> !Laws.DetachedBefore(c.mws, i) || ERROR_STATUS_500 !in c.errHandlers
  {
    ServeBinding(c, w);
    var own := ResolveErrorHandler(c, ERROR_STATUS_500);
    assert !Laws.DetachedBefore(c.mws, 0);
    Laws.ContextFinds500(c.mws, Core(c), 0, own, BindingCtx(c), "", w);
  }

  /** The exception is real: a middleware that replaces the request's context makes the
      PanicRecovery inside it answer with scaffold's default, not with the binding's handler. */
  lemma DetachedContextLosesHandler(own: UserHandler, w: Writer)
    requires own.Registered?
    ensures var c := EMPTY_CONFIG.(mws := [User(Detached, [Next]), Recovery], rpcs := [Rpc([], Throws)],
                                  errHandlers := map[ERROR_STATUS_500 := own]);
            && Served500(1, Default(ERROR_STATUS_500)) in Serve(Pipeline(c), 0, Root, "", w).events
            && ResolveErrorHandler(c, ERROR_STATUS_500) == own
  {
    var c := EMPTY_CONFIG.(mws := [User(Detached, [Next]), Recovery], rpcs := [Rpc([], Throws)],
                          errHandlers := map[ERROR_STATUS_500 := own]);
    ServeBinding(c, w);
    assert c.mws[0..] == c.mws;
    Laws.DetachedRecovery(Core(c), BindingCtx(c), w);
  }

  /** Every request to every binding enters and leaves the middleware by the nesting
      discipline, starting and, unless a panic escapes, ending outside all layers. */
  lemma BindingNests(c: Config, w: Writer)
    ensures var r := Serve(Pipeline(c), 0, Root, "", w);
            Laws.Leaves(c.mws, 0, 0, r.panicked, Laws.Replay(c.mws, Laws.Calm(0), r.events))
  {
    ServeBinding(c, w);
    Laws.LayersNest(c.mws, Core(c), 0, BindingCtx(c), "", w);
  }

  // ----- what a request to the binding is answered -----

  /** The response of a binding: its middleware around its RPC handlers, its mux and its error
      handlers. */
  function ResponseOf(c: Config): Response {
    ChainResponse(c.mws, 0, Answer(c.rpcs, 0, c.mux, ResolveErrorHandler(c, ERROR_STATUS_404)),
                  ResolveErrorHandler(c, ERROR_STATUS_500))
  }

  /** Every request to every binding, whatever its middleware and handlers do, is answered with
      that response. */
  lemma BindingDelivers(c: Config, w: Writer)
    requires Quiet(w) && NoTakeover(w, ResponseOf(c).calls)
    ensures Delivers(w, Serve(Pipeline(c), 0, Root, "", w), ResponseOf(c))
  {
    ServeBinding(c, w);
    assert !Laws.DetachedBefore(c.mws, 0);
    ChainDelivers(c.mws, Core(c), 0, ResolveErrorHandler(c, ERROR_STATUS_500), BindingCtx(c), "", w);
  }

  /** Who serves when all RPC handlers of a binding decline: the mux if it has a route for the
      request, else the handler registered for 404, else the default reply. */
  function LastServer(c: Config): Body {
    if c.mux.OtherMux? || (c.mux.ServeMux? && c.mux.pattern != "") then c.mux.body
    else if 404 in c.errHandlers then c.errHandlers[404].body
    else Body([WriteHeader(404), Write], false)
  }

  /** Who answers a panic: the handler registered for 500, else the default reply. */
  function PanicServer(c: Config): Body {
    if 500 in c.errHandlers then c.errHandlers[500].body else Body([WriteHeader(500), Write], false)
  }

  /** What the RPC handlers and the last server write: the response but for a panic. */
  function Written(c: Config): seq<Call> {
    var n := Laws.Taker(c.rpcs, 0);
    if n < |c.rpcs| then RpcCalls(c.rpcs, 0, n + 1) else RpcCalls(c.rpcs, 0, n) + LastServer(c).calls
  }

  predicate AnswerPanics(c: Config) {
    var n := Laws.Taker(c.rpcs, 0);
    if n < |c.rpcs| then c.rpcs[n].verdict.Throws? else LastServer(c).panics
  }

  /** The layers of the binding only pass the request on. */
  predicate PassesOn(c: Config) {
    && (forall mw :: mw in c.mws ==> Transparent(mw) && !mw.Detaches())
    && !PanicServer(c).panics
  }

  predicate Recovers(c: Config) {
    exists i :: 0 <= i < |c.mws| && c.mws[i].Recovery?
  }

  lemma OwnServers(c: Config)
    ensures BodyOf(ResolveErrorHandler(c, ERROR_STATUS_500)) == PanicServer(c)
    ensures var a := Answer(c.rpcs, 0, c.mux, ResolveErrorHandler(c, ERROR_STATUS_404));
            && (a.calls, a.panicked) == (Written(c), AnswerPanics(c))
            && (MuxServed in a.served <==> Laws.Taker(c.rpcs, 0) == |c.rpcs| && Laws.Routes(c.mux))
            && (NotFoundServed in a.served <==> Laws.Taker(c.rpcs, 0) == |c.rpcs| && !Laws.Routes(c.mux))
  {
    var n := Laws.Taker(c.rpcs, 0);
    var last := if n < |c.rpcs| then RpcCalled(n) else if Laws.Routes(c.mux) then MuxServed else NotFoundServed;
    TriedMembers(0, n, [last], MuxServed);
    TriedMembers(0, n, [last], NotFoundServed);
  }

  lemma PassingResponse(c: Config)
    requires PassesOn(c)
    ensures var s, n := ResponseOf(c), Laws.Taker(c.rpcs, 0);
            && (s.panicked <==> AnswerPanics(c) && !Recovers(c))
            && s.calls == (if AnswerPanics(c) && Recovers(c) && !Commits(Written(c))
                           then Written(c) + PanicServer(c).calls else Written(c))
            && (MuxServed in s.served <==> n == |c.rpcs| && Laws.Routes(c.mux))
            && (NotFoundServed in s.served <==> n == |c.rpcs| && !Laws.Routes(c.mux))
  {
    OwnServers(c);
    var answer := Answer(c.rpcs, 0, c.mux, ResolveErrorHandler(c, ERROR_STATUS_404));
    TransparentChain(c.mws, 0, answer, ResolveErrorHandler(c, ERROR_STATUS_500));
  }

  /** A binding whose layers only pass the request on. The mux serves exactly if all RPC handlers
      decline and it has a route, not-found exactly if they decline and it has none; what they
      write is what the server receives, and a panic adds the 500 reply exactly if there is a
      PanicRecovery and nothing had been written. */
  lemma BindingAnswers(c: Config, w: Writer)
    requires PassesOn(c) && Quiet(w) && Bottom(w).calls == [] && !Bottom(w).hijacker
    ensures var r := Serve(Pipeline(c), 0, Root, "", w);
            var unclaimed := forall i :: 0 <= i < |c.rpcs| ==> c.rpcs[i].verdict.Declines?;
            && (MuxServed in r.events <==> unclaimed && Laws.Routes(c.mux))
            && (NotFoundServed in r.events <==> unclaimed && !Laws.Routes(c.mux))
            && (r.panicked <==> AnswerPanics(c) && !Recovers(c))
            && Reaching(true, Bottom(r.w).calls) == Reaching(Bottom(w).flusher,
                 if AnswerPanics(c) && Recovers(c) && !Commits(Written(c)) then Written(c) + PanicServer(c).calls
                 else Written(c))
  {
    var r := Serve(Pipeline(c), 0, Root, "", w);
    BindingDelivers(c, w);
    ServerReceives(w, r, ResponseOf(c));
    PassingResponse(c);
    ServedMembers(r.events, MuxServed);
    ServedMembers(r.events, NotFoundServed);
  }

  // ----- the object -----

  /** The fields of the http.Server that newHTTPServer sets. */
  datatype HttpServer = HttpServer(
    handler: Option<Handler>, readTO: int, writeTO: int, idleTO: int, tls: Option<nat>)


  class Binding {
    const name: string
    const listenAddr: string

    var mws: seq<Middleware>
    var rpcHandlers: seq<Rpc>
    var mux: Mux
    var errHandlers: map<ErrorStatus, UserHandler>
    var tls: Option<nat>
    var readTO: int
    var writeTO: int
    var idleTO: int
    var serveFunc: Option<nat>

    var finalHandler: Option<Handler>
    var addr: Option<nat>
    var srv: Option<HttpServer>

    function View(): Config reads this {
      Config(mws, rpcHandlers, mux, errHandlers, tls, readTO, writeTO, idleTO, serveFunc)
    }

    constructor (name: string, listenAddr: string)
      ensures this.name == name && this.listenAddr == listenAddr
      ensures View() == EMPTY_CONFIG
      ensures finalHandler.None? && addr.None? && srv.None?
    {
      this.name, this.listenAddr := name, listenAddr;
      mws, rpcHandlers, mux, errHandlers := [], [], NoMux, map[];
      tls, readTO, writeTO, idleTO, serveFunc := None, 0, 0, 0, None;
      finalHandler, addr, srv := None, None, None;
    }

    method UseMiddleware(mw: seq<Middleware>) returns (r: Outcome)
      modifies this`mws
      ensures r == Returned <==> Accepts(old(View()), Setter.UseMiddleware(mw))
      ensures View() == Step(old(View()), Setter.UseMiddleware(mw))
      ensures mws == old(mws) + if r == Returned then mw else []
    {
      if serveFunc.Some? {
        return Panicked;
      }
      mws := mws + mw;
      r := Returned;
    }

    method AddRPC(handlers: seq<Rpc>) returns (r: Outcome)
      modifies this`rpcHandlers
      ensures r == Returned <==> Accepts(old(View()), Setter.AddRPC(handlers))
      ensures View() == Step(old(View()), Setter.AddRPC(handlers))
      ensures rpcHandlers == old(rpcHandlers) + if r == Returned then handlers else []
    {
      if serveFunc.Some? {
        return Panicked;
      }
      rpcHandlers := rpcHandlers + handlers;
      r := Returned;
    }

    method SetMux(h: Mux) returns (r: Outcome)
      modifies this`mux
      ensures r == Returned <==> Accepts(old(View()), Setter.SetMux(h))
      ensures View() == Step(old(View()), Setter.SetMux(h))
      ensures mux == if r == Returned then h else old(mux)
    {
      if serveFunc.Some? {
        return Panicked;
      }
      if !mux.NoMux? {
        return Panicked;
      }
      mux := h;
      r := Returned;
    }

    method SetErrorHandler(status: ErrorStatus, h: Option<UserHandler>) returns (r: Outcome)
      modifies this`errHandlers
      ensures r == Returned <==> Accepts(old(View()), Setter.SetErrorHandler(status, h))
      ensures View() == Step(old(View()), Setter.SetErrorHandler(status, h))
      ensures errHandlers == if r == Returned then old(errHandlers)[status := h.value] else old(errHandlers)
    {
      if serveFunc.Some? {
        return Panicked;
      }
      if h.None? {
        return Panicked;
      }
      if status != ERROR_STATUS_404 && status != ERROR_STATUS_500 {
        return Panicked;
      }
      if status in errHandlers {
        return Panicked;
      }
      errHandlers := errHandlers[status := h.value];
      r := Returned;
    }

    method SetTLS(cfg: Option<nat>) returns (r: Outcome)
      modifies this`tls
      ensures r == Returned <==> Accepts(old(View()), Setter.SetTLS(cfg))
      ensures View() == Step(old(View()), Setter.SetTLS(cfg))
      ensures tls == if r == Returned then cfg else old(tls)
    {
      if serveFunc.Some? {
        return Panicked;
      }
      tls := cfg;
      r := Returned;
    }

    method SetTimeouts(read: int, write: int, idle: int) returns (r: Outcome)
      modifies this`readTO, this`writeTO, this`idleTO
      ensures r == Returned <==> Accepts(old(View()), Setter.SetTimeouts(read, write, idle))
      ensures View() == Step(old(View()), Setter.SetTimeouts(read, write, idle))
      ensures (readTO, writeTO, idleTO) ==
                if r == Returned then (read, write, idle) else (old(readTO), old(writeTO), old(idleTO))
    {
      if serveFunc.Some? {
        return Panicked;
      }
      readTO := read;
      writeTO := write;
      idleTO := idle;
      r := Returned;
    }

    method ServeFunc(fn: Option<nat>) returns (r: Outcome)
      modifies this`serveFunc
      ensures r == Returned <==> Accepts(old(View()), Setter.ServeFunc(fn))
      ensures View() == Step(old(View()), Setter.ServeFunc(fn))
      ensures serveFunc == if r == Returned then fn else old(serveFunc)
    {
      if |mws| > 0 {
        return Panicked;
      }
      if |rpcHandlers| > 0 {
        return Panicked;
      }
      if !mux.NoMux? {
        return Panicked;
      }
      if |errHandlers| > 0 {
        return Panicked;
      }
      if tls.Some? {
        return Panicked;
      }
      if readTO != 0 || writeTO != 0 || idleTO != 0 {
        return Panicked;
      }
      serveFunc := fn;
      r := Returned;
    }

    /** The composed handler; the Binding itself is not changed. */
    method BuildHandler() returns (handler: Handler)
      ensures handler == Pipeline(View())
    {
      var notFound := ResolveErrorHandler(View(), ERROR_STATUS_404);
      handler := Compose(mws, Dispatch(rpcHandlers, mux, notFound));
      if |errHandlers| > 0 {
        handler := WithErrors(errHandlers, handler);
      }
    }
  }
}
