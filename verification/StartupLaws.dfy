/** Which servers a run leaves behind. A binding whose readiness probe fails has a serve loop
    already, but is not among the opened ones (scaffold.go:567-575), and only those are shut
    down. */
module StartupLaws {
  import opened Basics
  import opened Lifecycle
  import opened LifecycleFacts
  import opened ShutdownLaws

  /** A server that was started and never shut down. */
  predicate Orphaned(trace: seq<Event>, b: Served) {
    b.http && b.name in Spawns(trace) && b.name !in Shutdowns(trace)
  }

  /** The one binding that can be: http, listened on, and the first not to come up. */
  predicate LeftBehind(order: seq<Served>, begins: bool, script: Script, b: Served) {
    var n := FirstFailure(order, 0, script);
    begins && n < |order| && b == order[n] && b.http && script.listens(b.name)
  }

  // ----- names -----

  lemma OrderIsDistinct(bindings: seq<Served>, script: Script, serving: bool)
    requires DistinctNames(bindings)
    ensures DistinctNames(OrderOf(NewWorld(bindings), script, serving))
  {
    ActsKeepNamesDistinct(BeforeOnStart(NewWorld(bindings), script, serving), script.onStart);
  }

  lemma NamesHold(order: seq<Served>, name: string)
    ensures name in Names(order) <==> exists i :: 0 <= i < |order| && order[i].name == name
    ensures name in HttpNames(order) <==> exists i :: 0 <= i < |order| && order[i].http && order[i].name == name
  {
    CollectMembers(order, NameOf, name);
    CollectMembers(order, HttpNameOf, name);
    if name in HttpNames(order) {
      var i :| 0 <= i < |order| && name in HttpNameOf(order[i]);
      assert order[i].http && order[i].name == name;
    }
    if i :| 0 <= i < |order| && order[i].http && order[i].name == name {
      assert name in HttpNameOf(order[i]);
    }
    if i :| 0 <= i < |order| && order[i].name == name {
      assert name in NameOf(order[i]);
    }
  }

  lemma {:induction false} HttpNamesDistinct(order: seq<Served>)
    requires DistinctNames(order)
    ensures NoDuplicates(HttpNames(order))
  {
    if order != [] {
      var init, b := order[..|order| - 1], order[|order| - 1];
      assert order == init + [b];
      HttpNamesDistinct(init);
      NamesConcat(init, [b]);
      OneName(b);
      NamesHold(init, b.name);
    }
  }

  lemma ReverseHolds<T>(s: seq<T>, x: T)
    ensures x in Reverse(s) <==> x in s
  {
    if x in s {
      var i :| 0 <= i < |s| && s[i] == x;
      assert Reverse(s)[|s| - 1 - i] == x;
    }
  }

  // ----- the servers left behind -----

  /** A trace that accounts for its bindings and closes the opened ones shuts no binding down
      twice, and leaves behind exactly the server, if there is one, whose probe failed. */
  lemma OrphanIff(order: seq<Served>, begins: bool, script: Script, trace: seq<Event>, b: Served)
    requires DistinctNames(order) && b in order
    requires Accounts(order, begins, script, trace) && ClosesOpened(order, begins, script, trace)
    ensures NoDuplicates(Shutdowns(trace))
    ensures Orphaned(trace, b) <==> LeftBehind(order, begins, script, b)
  {
    if begins {
      var n := FirstFailure(order, 0, script);
      var last := if n < |order| && script.listens(order[n].name) then [order[n]] else [];
      StartedNotClosed(order, n, last, Spawns(trace), Shutdowns(trace), b);
    }
  }

  lemma StartedNotClosed(order: seq<Served>, n: nat, last: seq<Served>, spawns: seq<string>, shutdowns: seq<string>,
                         b: Served)
    requires DistinctNames(order) && b in order && n <= |order|
    requires last == [] || (n < |order| && last == [order[n]])
    requires spawns == Names(order[..n] + last) && shutdowns == Reverse(HttpNames(order[..n]))
    ensures NoDuplicates(shutdowns)
    ensures b.http ==> (b.name in spawns && b.name !in shutdowns <==> b in last)
  {
    HttpNamesDistinct(order[..n]);
    ReverseHolds(HttpNames(order[..n]), b.name);
    if b.http {
      HeldNames(order, n, last, b);
    }
  }

  /** Which names are among the first n, with or without the next one. */
  lemma HeldNames(order: seq<Served>, n: nat, last: seq<Served>, b: Served)
    requires DistinctNames(order) && b in order && b.http && n <= |order|
    requires last == [] || (n < |order| && last == [order[n]])
    ensures b.name in HttpNames(order[..n]) <==> b in order[..n]
    ensures b.name in Names(order[..n] + last) <==> b in order[..n] || b in last
    ensures b in last ==> b !in order[..n]
  {
    NamesHold(order[..n], b.name);
    NamesHold(order[..n] + last, b.name);
    var k :| 0 <= k < |order| && order[k] == b;
    if k < n {
      assert order[..n][k] == b && (order[..n] + last)[k] == b;
    } else if k == n && last != [] {
      assert (order[..n] + last)[n] == b;
    }
  }

  /** Every http server that Serve starts is shut down before it returns, once, except the one
      whose readiness probe failed. */
  lemma ServeLeavesBehind(bindings: seq<Served>, script: Script, b: Served)
    requires DistinctNames(bindings)
    requires Serve(NewWorld(bindings), script).1.Some? && b in OrderOf(NewWorld(bindings), script, true)
    ensures var w := NewWorld(bindings);
            var t := Serve(w, script).0.trace;
            && NoDuplicates(Shutdowns(t))
            && (Orphaned(t, b) <==> LeftBehind(OrderOf(w, script, true), Begins(w, script, true), script, b))
  {
    var w := NewWorld(bindings);
    StartupAccounting(bindings, script);
    OrderIsDistinct(bindings, script, true);
    OrphanIff(OrderOf(w, script, true), Begins(w, script, true), script, Serve(w, script).0.trace, b);
  }

  /** The same for a Start that fails. */
  lemma FailedStartLeavesBehind(bindings: seq<Served>, script: Script, b: Served)
    requires DistinctNames(bindings)
    requires Launch(NewWorld(bindings), script, false).1.Aborted? && b in OrderOf(NewWorld(bindings), script, false)
    ensures var w := NewWorld(bindings);
            var t := Launch(w, script, false).0.trace;
            && NoDuplicates(Shutdowns(t))
            && (Orphaned(t, b) <==> LeftBehind(OrderOf(w, script, false), Begins(w, script, false), script, b))
  {
    var w := NewWorld(bindings);
    StartAccounting(bindings, script);
    OrderIsDistinct(bindings, script, false);
    OrphanIff(OrderOf(w, script, false), Begins(w, script, false), script, Launch(w, script, false).0.trace, b);
  }

  /** Stop leaves no server behind. */
  lemma StopLeavesNothing(t: seq<Event>, bindings: seq<Served>, script: Script, b: Served)
    requires DistinctNames(bindings) && b in OrderOf(NewWorld(bindings), script, false)
    requires var w := NewWorld(bindings);
             && Launch(w, script, false).1.Up?
             && t == Stop(WhileUp(Launch(w, script, false).0, script), OrderOf(w, script, false), script).0.trace
    ensures NoDuplicates(Shutdowns(t)) && !Orphaned(t, b)
  {
    var order := OrderOf(NewWorld(bindings), script, false);
    StartAccounting(bindings, script);
    StopAccounting(t, bindings, script);
    OrderIsDistinct(bindings, script, false);
    OrphanIff(order, true, script, t, b);
    if FirstFailure(order, 0, script) < |order| {
      assert order[FirstFailure(order, 0, script)] in order;
    }
  }

  /** The exception is real: Serve with one http binding that can be listened on and does not
      answer its probe returns with the server running. */
  lemma ProbeFailureLeavesServer(script: Script)
    requires script.addressOk && script.startError.None? && script.ordered && script.onStart == []
    requires script.listens("api") && !script.answers("api")
    ensures var b := Served("api", true);
            var (w, exit) := Serve(NewWorld([b]), script);
            exit == Some(EXIT_FAILURE) && Orphaned(w.trace, b)
  {
    var b := Served("api", true);
    var w := NewWorld([b]);
    assert RunActs(BeforeOnStart(w, script, true), []) == (BeforeOnStart(w, script, true), Returned);
    assert OrderOf(w, script, true) == [b] && Begins(w, script, true);
    assert !ComesUp(b, script) && FirstFailure([b], 0, script) == 0;
    StartupAccounting([b], script);
    ServeReturns([b], script);
    ServeLeavesBehind([b], script, b);
  }

  lemma ServeReturns(bindings: seq<Served>, script: Script)
    requires Begins(NewWorld(bindings), script, true)
    ensures Serve(NewWorld(bindings), script).1.Some?
    ensures Serve(NewWorld(bindings), script).1.value in {EXIT_SUCCESS, EXIT_FAILURE}
  {
    var w := NewWorld(bindings);
    var w1 := RunActs(BeforeOnStart(w, script, true), script.onStart).0;
    assert !AfterOnStart(w1, script, true).1.Escaped?;
  }
}
