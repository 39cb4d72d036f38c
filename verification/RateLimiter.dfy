/**
 The provider throttle: requests run one after the other with a minimum gap, and a 429 answer is
 retried once after a back-off. Times are in milliseconds of a clock that never goes back; timers
 fire on time or late, never early.
 */
module RateLimiter {

  const MIN_GAP := 6_200
  const BACK_OFF := 30_000
  const WINDOW := 60_000

  /** One request as the world lets it happen: how long after the previous one ended the chain takes
      it up, how late its timers fire, how long its calls last, and whether the first is refused with
      429. Whether a call succeeds or fails otherwise makes no difference to the throttle. */
  datatype Attempt = Attempt(idle: nat, late: nat, duration: nat, refused: bool, retryLate: nat, retryDuration: nat)

  /** The adapter's last request time, the clock, and the start times of all provider calls. */
  datatype Throttle = Throttle(last: nat, clock: nat, calls: seq<nat>)

  function AfterGap(s: Throttle, t: nat, late: nat): nat {
    if s.last + MIN_GAP > t then s.last + MIN_GAP + late else t
  }

  function Serve(s: Throttle, a: Attempt): Throttle {
    var start := AfterGap(s, s.clock + a.idle, a.late);
    if a.refused then
      var retry := start + a.duration + BACK_OFF + a.retryLate;
      Throttle(retry, retry + a.retryDuration, s.calls + [start, retry])
    else Throttle(start, start + a.duration, s.calls + [start])
  }

  function ServeAll(s: Throttle, attempts: seq<Attempt>): Throttle {
    if attempts == [] then s else Serve(ServeAll(s, attempts[..|attempts| - 1]), attempts[|attempts| - 1])
  }

  // ---------------------------------------------------------------- the gap

  predicate Spaced(calls: seq<nat>) {
    forall i :: 0 < i < |calls| ==> calls[i] - calls[i - 1] >= MIN_GAP
  }

  predicate Valid(s: Throttle) {
    Spaced(s.calls) && s.last <= s.clock && (s.calls != [] ==> s.last == s.calls[|s.calls| - 1])
  }

  lemma ServeKeepsValid(s: Throttle, a: Attempt)
    requires Valid(s)
    ensures Valid(Serve(s, a))
  {
  }

  /** Consecutive provider calls, retries included, start at least the gap apart in every run. */
  lemma {:induction false} CallsAreSpaced(clock: nat, attempts: seq<Attempt>)
    ensures Valid(ServeAll(Throttle(0, clock, []), attempts))
    ensures Spaced(ServeAll(Throttle(0, clock, []), attempts).calls)
    decreases |attempts|
  {
    if attempts != [] {
      var n := |attempts| - 1;
      CallsAreSpaced(clock, attempts[..n]);
      ServeKeepsValid(ServeAll(Throttle(0, clock, []), attempts[..n]), attempts[n]);
    }
  }

  /** What one request calls: once, at the earliest when the gap is over and no later than its timer makes
      it; and once more if it was refused, never before the back-off has passed since the refusal. */
  lemma CallsOfRequest(s: Throttle, a: Attempt)
    ensures var s', n := Serve(s, a), |s.calls|; var ready := s.clock + a.idle;
            && |s'.calls| == n + (if a.refused then 2 else 1) && s'.calls[..n] == s.calls
            && s'.calls[n] >= ready && s'.calls[n] - s.last >= MIN_GAP
            && (ready - s.last >= MIN_GAP ==> s'.calls[n] == ready)
            && (ready - s.last < MIN_GAP ==> s'.calls[n] == s.last + MIN_GAP + a.late)
            && (a.refused ==> s'.calls[n + 1] == s'.calls[n] + a.duration + 30_000 + a.retryLate)
  {
  }

  // ---------------------------------------------------------------- the window

  lemma {:induction false} SpacedFarther(calls: seq<nat>, i: nat, j: nat)
    requires Spaced(calls) && i <= j < |calls|
    ensures calls[j] - calls[i] >= MIN_GAP * (j - i)
    decreases j
  {
    if i < j { SpacedFarther(calls, i, j - 1); }
  }

  ghost function InWindow(calls: seq<nat>, t: int): set<nat> { set i: nat | i < |calls| && t <= calls[i] < t + WINDOW }

  /** The calls of a window are neighbours: from its first call on, ten numbers cover them all. */
  lemma WindowHoldsTen(calls: seq<nat>, t: int)
    requires Spaced(calls)
    ensures |InWindow(calls, t)| <= 10
  {
    var inside := InWindow(calls, t);
    if inside != {} {
      var first := Smallest(inside);
      var ten := Numbers(first, 10);
      forall i | i in inside ensures i in ten { SpacedFarther(calls, first, i); }
      Subset(inside, ten);
    }
  }

  /** The `n` numbers from `first` on. */
  ghost function Numbers(first: nat, n: nat): (r: set<nat>)
    ensures |r| == n && forall i :: i in r <==> first <= i < first + n
  {
    if n == 0 then {} else Numbers(first, n - 1) + {first + n - 1}
  }

  lemma {:induction false} Subset(a: set<nat>, b: set<nat>)
    requires a <= b
    ensures |a| <= |b|
  {
    assert b == a + (b - a);
  }

  ghost function Smallest(s: set<nat>): (m: nat)
    requires s != {}
    ensures m in s && forall i :: i in s ==> m <= i
  {
    var x :| x in s;
    assert forall i :: i in s ==> i == x || i in s - {x};
    if s - {x} == {} then x
    else
      var m := Smallest(s - {x});
      if x < m then x else m
  }

  /** In every run, any half-open minute contains at most ten provider calls. */
  lemma AtMostTenAMinute(clock: nat, attempts: seq<Attempt>, t: int)
    ensures |InWindow(ServeAll(Throttle(0, clock, []), attempts).calls, t)| <= 10
  {
    CallsAreSpaced(clock, attempts);
    WindowHoldsTen(ServeAll(Throttle(0, clock, []), attempts).calls, t);
  }

  // ---------------------------------------------------------------- the bound is reached

  const EAGER := Attempt(0, 0, 0, false, 0, 0)

  function Eager(n: nat): (r: seq<Attempt>)
    ensures |r| == n
  {
    seq(n, i => EAGER)
  }

  lemma {:induction false} EagerCalls(n: nat)
    ensures var s := ServeAll(Throttle(0, 0, []), Eager(n));
            s.last == s.clock == MIN_GAP * n && |s.calls| == n &&
              forall i :: 0 <= i < n ==> s.calls[i] == MIN_GAP * (i + 1)
  {
    if n > 0 {
      EagerCalls(n - 1);
      assert Eager(n)[..n - 1] == Eager(n - 1);
    }
  }

  /** Ten calls in a minute do occur. */
  lemma TenAreReached()
    ensures |InWindow(ServeAll(Throttle(0, 0, []), Eager(10)).calls, MIN_GAP)| == 10
  {
    EagerCalls(10);
    assert InWindow(ServeAll(Throttle(0, 0, []), Eager(10)).calls, MIN_GAP) == Numbers(0, 10);
  }

  // ---------------------------------------------------------------- the adapter

  class Adapter {
    var lastRequestAt: nat
    var now: nat
    ghost var calls: seq<nat>

    ghost function State(): Throttle
      reads this
    {
      Throttle(lastRequestAt, now, calls)
    }

    constructor (clock: nat)
      ensures State() == Throttle(0, clock, [])
    {
      lastRequestAt, now, calls := 0, clock, [];
    }

    /** A timer. */
    method Sleep(ms: nat, late: nat)
      modifies this`now
      ensures now == old(now) + ms + late
    {
      now := now + ms + late;
    }

    /** A provider call. */
    method Get(duration: nat)
      modifies this`now, this`calls
      ensures now == old(now) + duration && calls == old(calls) + [old(now)]
    {
      calls := calls + [now];
      now := now + duration;
    }

    method Gap(late: nat)
      modifies this`now, this`lastRequestAt
      ensures now == lastRequestAt == AfterGap(old(State()), old(now), late)
    {
      var wait := lastRequestAt + MIN_GAP - now;
      if wait > 0 { Sleep(wait, late); }
      lastRequestAt := now;
    }

    method Request(a: Attempt)
      modifies this
      ensures State() == Serve(old(State()), a)
    {
      now := now + a.idle;
      Gap(a.late);
      Get(a.duration);
      if a.refused {
        Sleep(BACK_OFF, a.retryLate);
        lastRequestAt := now;
        Get(a.retryDuration);
      }
    }
  }
}
