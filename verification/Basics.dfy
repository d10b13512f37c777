/** Small vocabulary shared by every module of the model. */
module Basics {
  datatype Option<+T> = None | Some(value: T)

  /** How a call ended: a normal return, or an unwinding panic. */
  datatype Outcome = Returned | Panicked

  function Reverse<T>(s: seq<T>): (r: seq<T>)
    ensures |r| == |s|
    ensures forall i :: 0 <= i < |s| ==> r[i] == s[|s| - 1 - i]
  {
    if s == [] then [] else [s[|s| - 1]] + Reverse(s[..|s| - 1])
  }

  lemma ReverseConcat<T>(a: seq<T>, b: seq<T>)
    ensures Reverse(a + b) == Reverse(b) + Reverse(a)
  {
  }

  function Map<A, B>(s: seq<A>, f: A -> B): (r: seq<B>)
    ensures |r| == |s| && forall i :: 0 <= i < |s| ==> r[i] == f(s[i])
  {
    seq(|s|, i requires 0 <= i < |s| => f(s[i]))
  }

  ghost predicate NoDuplicates<T>(s: seq<T>) {
    forall i, j :: 0 <= i < j < |s| ==> s[i] != s[j]
  }

  ghost predicate Sorted(s: seq<nat>) {
    forall i, j :: 0 <= i < j < |s| ==> s[i] <= s[j]
  }

  // ----- reading a log -----

  /** What each entry of a log contributes, in order. */
  function Collect<E, T>(log: seq<E>, f: E -> seq<T>): seq<T> {
    CollectTo(log, f, |log|)
  }

  function CollectTo<E, T>(log: seq<E>, f: E -> seq<T>, n: nat): seq<T>
    requires n <= |log|
  {
    if n == 0 then [] else CollectTo(log, f, n - 1) + f(log[n - 1])
  }

  lemma {:induction false} CollectPrefix<E, T>(log: seq<E>, more: seq<E>, f: E -> seq<T>, n: nat)
    requires n <= |log|
    ensures CollectTo(log + more, f, n) == CollectTo(log, f, n)
  {
    if n > 0 {
      CollectPrefix(log, more, f, n - 1);
    }
  }

  lemma CollectEmit<E, T>(log: seq<E>, f: E -> seq<T>, e: E)
    ensures Collect(log + [e], f) == Collect(log, f) + f(e)
  {
    CollectPrefix(log, [e], f, |log|);
  }

  lemma {:induction false} CollectConcat<E, T>(log: seq<E>, more: seq<E>, f: E -> seq<T>)
    ensures Collect(log + more, f) == Collect(log, f) + Collect(more, f)
  {
    if more == [] {
      assert log + more == log;
    } else {
      var init, e := more[..|more| - 1], more[|more| - 1];
      assert more == init + [e] && log + more == (log + init) + [e];
      CollectConcat(log, init, f);
      CollectEmit(log + init, f, e);
      CollectEmit(init, f, e);
    }
  }

  lemma {:induction false} CollectNothing<E, T>(log: seq<E>, f: E -> seq<T>)
    requires forall e :: e in log ==> f(e) == []
    ensures Collect(log, f) == []
  {
    if log != [] {
      var init, e := log[..|log| - 1], log[|log| - 1];
      assert log == init + [e];
      CollectNothing(init, f);
      CollectEmit(init, f, e);
    }
  }

  lemma {:induction false} CollectMembers<E, T>(log: seq<E>, f: E -> seq<T>, x: T)
    ensures x in Collect(log, f) <==> exists i :: 0 <= i < |log| && x in f(log[i])
  {
    if log != [] {
      var init, e := log[..|log| - 1], log[|log| - 1];
      assert log == init + [e];
      CollectMembers(init, f, x);
      CollectEmit(init, f, e);
      if x in Collect(init, f) {
        var i :| 0 <= i < |init| && x in f(init[i]);
        assert log[i] == init[i];
      }
    }
  }
}
