/** cleaner.go: the LIFO stack of cleanup functions, used by one thread at a time.
    The interleavings of many threads are the subject of module CleanerRuns. */
module Cleaners {
  import opened Basics

  /** How a cleaner function ends once its own calls are over. */
  datatype End = Ok | Failed | Threw

  /** What a cleaner function does to the Cleaner that is running it. */
  datatype ReentrantCall = AddAgain(fn: Fn) | CleanAgain

  datatype Fn = Fn(id: nat, calls: seq<ReentrantCall>, end: End)

  datatype Event =
    | Invoked(id: nat)
    | AddPanicked
    | CleanRefused
    | LoggedError
    | LoggedPanic

  datatype State = State(stack: seq<Fn>, running: bool, done: bool) {
    predicate Started() { running || done }
  }

  const FRESH := State([], false, false)

  // ----- what Clean is expected to emit -----

  /** The part of a cleaner function's run that follows its invocation. Adding to a
      Cleaner that has started panics, which ends the function there. */
  function CallEvents(calls: seq<ReentrantCall>, end: End): seq<Event> {
    if calls == [] then
      match end
      case Ok => []
      case Failed => [LoggedError]
      case Threw => [LoggedPanic]
    else if calls[0].AddAgain? then [AddPanicked, LoggedPanic]
    else [CleanRefused] + CallEvents(calls[1..], end)
  }

  function RunOneEvents(fn: Fn): seq<Event> {
    [Invoked(fn.id)] + CallEvents(fn.calls, fn.end)
  }

  function DrainEvents(stack: seq<Fn>): seq<Event> {
    if stack == [] then []
    else RunOneEvents(stack[|stack| - 1]) + DrainEvents(stack[..|stack| - 1])
  }

  function Ids(stack: seq<Fn>): seq<nat> {
    Map(stack, (fn: Fn) => fn.id)
  }

  function InvokedBy(e: Event): seq<nat> {
    if e.Invoked? then [e.id] else []
  }

  function Invocations(log: seq<Event>): seq<nat> {
    Collect(log, InvokedBy)
  }

  lemma {:induction false} CallsInvokeNothing(calls: seq<ReentrantCall>, end: End)
    ensures forall e :: e in CallEvents(calls, end) ==> InvokedBy(e) == []
  {
    if calls != [] && calls[0].CleanAgain? {
      CallsInvokeNothing(calls[1..], end);
    }
  }

  /** Clean runs every function once, in the reverse of the order of the Adds, whatever
      each function does: fail, panic, add more work or clean again. */
  lemma {:induction false} DrainIsLifo(stack: seq<Fn>)
    ensures Invocations(DrainEvents(stack)) == Reverse(Ids(stack))
  {
    if stack != [] {
      var last, rest := stack[|stack| - 1], stack[..|stack| - 1];
      DrainIsLifo(rest);
      CallsInvokeNothing(last.calls, last.end);
      var own := CallEvents(last.calls, last.end);
      CollectNothing(own, InvokedBy);
      CollectEmit([], InvokedBy, Invoked(last.id));
      assert [] + [Invoked(last.id)] == [Invoked(last.id)];
      CollectConcat([Invoked(last.id)], own, InvokedBy);
      CollectConcat(RunOneEvents(last), DrainEvents(rest), InvokedBy);
      assert Ids(stack) == Ids(rest) + [last.id];
      ReverseConcat(Ids(rest), [last.id]);
    }
  }

  // ----- what Clean logs -----

  function ComplaintBy(e: Event): seq<Event> {
    if e.Invoked? then [] else [e]
  }

  /** How many of the calls come before the first Add. */
  function BeforeAdd(calls: seq<ReentrantCall>): (n: nat)
    ensures n <= |calls|
    ensures forall i :: 0 <= i < n ==> calls[i].CleanAgain?
    ensures n < |calls| ==> calls[n].AddAgain?
  {
    if calls == [] || calls[0].AddAgain? then 0 else 1 + BeforeAdd(calls[1..])
  }

  /** Every Clean it calls is refused, up to its first Add, which panics and ends it; without an
      Add it ends as it likes, and is logged unless it returns nil. */
  function Complaints(fn: Fn): seq<Event> {
    var n := BeforeAdd(fn.calls);
    seq(n, _ => CleanRefused) +
      if n < |fn.calls| then [AddPanicked, LoggedPanic]
      else if fn.end.Threw? then [LoggedPanic]
      else if fn.end.Failed? then [LoggedError]
      else []
  }

  lemma {:induction false} CallsComplain(id: nat, calls: seq<ReentrantCall>, end: End)
    ensures CallEvents(calls, end) == Complaints(Fn(id, calls, end))
  {
    if calls != [] && calls[0].CleanAgain? {
      CallsComplain(id, calls[1..], end);
      var n := BeforeAdd(calls);
      assert n == 1 + BeforeAdd(calls[1..]);
      assert seq(n, _ => CleanRefused) == [CleanRefused] + seq(n - 1, _ => CleanRefused);
    }
  }

  /** Clean logs every function's failure, and goes on with the next. */
  lemma {:induction false} DrainComplains(stack: seq<Fn>)
    ensures Collect(DrainEvents(stack), ComplaintBy) == Collect(Reverse(stack), Complaints)
  {
    if stack != [] {
      var last, rest := stack[|stack| - 1], stack[..|stack| - 1];
      DrainComplains(rest);
      OneComplains(last);
      CollectConcat(RunOneEvents(last), DrainEvents(rest), ComplaintBy);
      CollectConcat([last], Reverse(rest), Complaints);
      CollectEmit([], Complaints, last);
      assert [] + [last] == [last] && [] + Complaints(last) == Complaints(last);
    }
  }

  lemma OneComplains(fn: Fn)
    ensures Collect(RunOneEvents(fn), ComplaintBy) == Complaints(fn)
  {
    CallsComplain(fn.id, fn.calls, fn.end);
    CollectConcat([Invoked(fn.id)], CallEvents(fn.calls, fn.end), ComplaintBy);
    CollectNothing([Invoked(fn.id)], ComplaintBy);
    CollectAll(CallEvents(fn.calls, fn.end));
  }

  lemma {:induction false} CollectAll(log: seq<Event>)
    requires forall e :: e in log ==> !e.Invoked?
    ensures Collect(log, ComplaintBy) == log
  {
    if log != [] {
      var init, e := log[..|log| - 1], log[|log| - 1];
      assert log == init + [e];
      CollectAll(init);
      CollectEmit(init, ComplaintBy, e);
    }
  }

  lemma DrainStep(log: seq<Event>, snapshot: seq<Fn>, i: nat)
    requires i < |snapshot|
    ensures log + DrainEvents(snapshot[..i + 1])
         == log + RunOneEvents(snapshot[i]) + DrainEvents(snapshot[..i])
  {
    assert snapshot[..i + 1][..i] == snapshot[..i];
  }

  // ----- the code -----

  class Cleaner {
    var stack: seq<Fn>
    var running: bool
    var done: bool
    var log: seq<Event>

    function View(): State reads this { State(stack, running, done) }

    constructor ()
      ensures View() == FRESH && log == []
    {
      stack, running, done, log := [], false, false, [];
    }

    /** Add panics, and changes nothing, once Clean has started. */
    method Add(fn: Fn) returns (r: Outcome)
      modifies this
      ensures r == Panicked <==> old(View()).Started()
      ensures View() == if r == Panicked then old(View()) else old(View()).(stack := old(stack) + [fn])
      ensures log == old(log)
    {
      if running || done {
        return Panicked;
      }
      stack := stack + [fn];
      r := Returned;
    }

    /** The first Clean drains the whole stack and succeeds; any other call fails without
        touching anything, including one made by a cleaner function. */
    method Clean() returns (ok: bool)
      modifies this
      ensures ok <==> !old(View()).Started()
      ensures ok ==> View() == State([], false, true) && log == old(log) + DrainEvents(old(stack))
      ensures !ok ==> View() == old(View()) && log == old(log)
      decreases if View().Started() then 0 else 2
    {
      if running || done {
        return false;
      }
      running := true;
      var snapshot := stack;
      stack := [];
      var i := |snapshot|;
      assert snapshot[..i] == snapshot;
      while i > 0
        invariant 0 <= i <= |snapshot|
        invariant View() == State([], true, false)
        invariant log + DrainEvents(snapshot[..i]) == old(log) + DrainEvents(snapshot)
      {
        i := i - 1;
        DrainStep(log, snapshot, i);
        RunOne(snapshot[i]);
      }
      running := false;
      done := true;
      ok := true;
    }

    method RunOne(fn: Fn)
      requires running
      modifies this
      ensures View() == old(View())
      ensures log == old(log) + RunOneEvents(fn)
      decreases 1
    {
      log := log + [Invoked(fn.id)];
      var i := 0;
      while i < |fn.calls|
        invariant 0 <= i <= |fn.calls|
        invariant View() == old(View())
        invariant log + CallEvents(fn.calls[i..], fn.end) == old(log) + RunOneEvents(fn)
      {
        match fn.calls[i] {
          case AddAgain(f) =>
            var r := Add(f);
            log := log + [AddPanicked, LoggedPanic];
            return;
          case CleanAgain =>
            var ok := Clean();
            log := log + [CleanRefused];
        }
        i := i + 1;
      }
      match fn.end {
        case Ok =>
        case Failed => log := log + [LoggedError];
        case Threw => log := log + [LoggedPanic];
      }
    }
  }
}
