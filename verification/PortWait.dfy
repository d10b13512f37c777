/** port_wait.go: probing a listener until it answers, the deadline passes or the context is
    cancelled. Time is in milliseconds on one monotone clock. */
module PortWait {
  import opened Basics

  const DIAL_TIMEOUT := 100
  const RETRY_DELAY := 10

  /** What the n-th probe meets: how long its dial takes, given its timeout, and whether it
      connects; how long the following After takes to fire, given the delay asked for; and when
      the context is cancelled, if ever. A cancellation at the very instant the timer fires may
      be seen or not. */
  datatype World = World(
    dialTime: (nat, nat) -> nat, connects: nat -> bool, wakeTime: (nat, nat) -> nat,
    cancelAt: Option<nat>, cancelWinsTie: nat -> bool)
  {
    predicate Cancelled(now: nat) { cancelAt.Some? && cancelAt.value <= now }
  }

  /** A timer fires no earlier than asked. */
  ghost predicate WakesInTime(w: World) {
    forall n: nat, asked: nat :: asked <= w.wakeTime(n, asked)
  }

  /** Dials respect their timeout, and a timer fires at most `late` after it should. */
  ghost predicate Prompt(w: World, late: nat) {
    && (forall n: nat, limit: nat :: w.dialTime(n, limit) <= limit)
    && (forall n: nat, asked: nat :: w.wakeTime(n, asked) <= asked + late)
  }

  datatype Verdict = Open | TimedOut | Cancelled

  /** Starts at time `start`; returns the verdict, the number of dials made and the time. */
  method WaitForListener(w: World, start: nat, timeout: nat)
    returns (v: Verdict, dials: nat, now: nat, ghost lastDial: nat)
    requires WakesInTime(w)
    ensures dials <= timeout / 10 + 2
    ensures start <= now
    ensures forall late: nat :: Prompt(w, late) ==> now <= start + timeout + 100 + 10 + late
    ensures v.TimedOut? ==> forall late: nat :: Prompt(w, late) ==> timeout < dials * (100 + 10 + late)
    ensures forall n :: 0 <= n < dials - 1 ==> !w.connects(n)
    ensures v.Open? <==> dials > 0 && w.connects(dials - 1)
    ensures v.TimedOut? ==> now > start + timeout && dials > 0
    ensures v.Cancelled? ==> w.Cancelled(now)
    ensures dials > 0 ==> start <= lastDial <= now && !w.Cancelled(lastDial)
    ensures dials == 0 <==> w.Cancelled(start)
  {
    var deadline := start + timeout;
    now := start;
    dials := 0;
    lastDial := start;
    while true
      invariant start + RETRY_DELAY * dials <= now
      invariant forall late: nat :: Prompt(w, late) ==> now <= deadline + RETRY_DELAY + late
      invariant forall late: nat :: Prompt(w, late) ==> now <= start + dials * (DIAL_TIMEOUT + RETRY_DELAY + late)
      invariant dials > 0 ==> start + RETRY_DELAY * (dials - 1) <= deadline
      invariant forall n :: 0 <= n < dials ==> !w.connects(n)
      invariant dials > 0 ==> start <= lastDial <= now && !w.Cancelled(lastDial)
      invariant dials == 0 ==> now == start
      invariant dials > 0 ==> !w.Cancelled(start)
      decreases timeout / RETRY_DELAY + 2 - dials
    {
      if w.Cancelled(now) {
        return Verdict.Cancelled, dials, now, lastDial;
      }
      var n := dials;
      lastDial := now;
      dials := dials + 1;
      now := now + w.dialTime(n, DIAL_TIMEOUT);
      forall late: nat | Prompt(w, late) ensures now <= start + n * (DIAL_TIMEOUT + RETRY_DELAY + late) + DIAL_TIMEOUT {
        assert w.dialTime(n, DIAL_TIMEOUT) <= DIAL_TIMEOUT;
      }
      if w.connects(n) {
        return Open, dials, now, lastDial;
      }
      if now > deadline {
        return TimedOut, dials, now, lastDial;
      }
      var fires := now + w.wakeTime(n, RETRY_DELAY);
      if w.cancelAt.Some? && (w.cancelAt.value < fires || (w.cancelAt.value == fires && w.cancelWinsTie(n))) {
        now := if w.cancelAt.value > now then w.cancelAt.value else now;
        return Verdict.Cancelled, dials, now, lastDial;
      }
      now := fires;
    }
  }

  const PROBE_TIMEOUT := 5000

  /** The most dials one binding's readiness probe can make. */
  const MAX_DIALS := 502

  /** The longest one binding's readiness probe can take when nothing is late by more than
      `late`. */
  function LongestProbe(late: nat): nat {
    5000 + 100 + 10 + late
  }

  lemma OneMoreProbe(i: nat, n: nat, cost: nat)
    requires i < n
    ensures i * cost + cost == (i + 1) * cost <= n * cost
  {
  }

  /** The readiness probes of n bindings, one after the other. */
  method ProbeAll(worlds: seq<World>, start: nat, ghost late: nat) returns (open: nat, dials: nat, now: nat)
    requires forall w :: w in worlds ==> WakesInTime(w)
    ensures open <= |worlds|
    ensures dials <= MAX_DIALS * (if open < |worlds| then open + 1 else open)
    ensures start <= now
    ensures (forall w :: w in worlds ==> Prompt(w, late)) ==> now <= start + |worlds| * LongestProbe(late)
    ensures open < |worlds| && worlds[open].cancelAt.None? ==> now > start + 5000
  {
    open, dials, now := 0, 0, start;
    ghost var cost := LongestProbe(late);
    ghost var prompt := forall w :: w in worlds ==> Prompt(w, late);
    for i := 0 to |worlds|
      invariant open == i && dials <= MAX_DIALS * i
      invariant start <= now
      invariant prompt ==> now <= start + i * cost
    {
      OneMoreProbe(i, |worlds|, cost);
      var v, d, t, last := WaitForListener(worlds[i], now, PROBE_TIMEOUT);
      assert prompt ==> Prompt(worlds[i], late) && t <= now + cost;
      dials, now := dials + d, t;
      if !v.Open? {
        return;
      }
      open := open + 1;
    }
  }
}
