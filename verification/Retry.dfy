/** Bounded exponential backoff with jitter, permanent errors and cancellation. */
module Retry {
  import opened Basics

  datatype Policy = Policy(maxAttempts: int, baseDelay: int, maxDelay: int, multiplier: real, jitter: real)

  /** What one attempt reports: success, an error worth retrying, or one marked permanent. */
  datatype Outcome = Done | Retryable | Permanent

  datatype Ended = Success | PermanentError | Exhausted | Cancelled

  /** How a call of Do ended, how many attempts it made, and how long it meant to sleep in all. */
  datatype Summary = Summary(ended: Ended, calls: nat, slept: int)

  function Attempts(p: Policy): (n: nat)
    ensures n >= 1
  {
    if p.maxAttempts <= 0 then 1 else p.maxAttempts
  }

  // ----- delays -----

  function Pow(base: real, n: nat): real {
    if n == 0 then 1.0 else base * Pow(base, n - 1)
  }

  function Growth(p: Policy): (m: real)
    ensures m > 1.0
  {
    if p.multiplier <= 1.0 then 2.0 else p.multiplier
  }

  function Capped(delay: real, cap: int): real {
    if cap > 0 && delay > cap as real then cap as real else delay
  }

  /** The base delay after `n` multiplications. */
  function Grown(p: Policy, n: nat): real {
    p.baseDelay as real * Pow(Growth(p), n)
  }

  /** The backoff before jitter, as a rational number. */
  function RawDelay(p: Policy, attempt: int): real
    requires attempt >= 1
  {
    Capped(Grown(p, attempt - 1), p.maxDelay)
  }

  function Delay(p: Policy, attempt: int): int {
    if attempt < 1 || p.baseDelay <= 0 then 0 else Trunc(RawDelay(p, attempt))
  }

  /** The factor that spreads a delay over [1 - f, 1 + f]. */
  function Factor(f: real, random: real): real {
    1.0 + f * (2.0 * random - 1.0)
  }

  function Scaled(delay: int, factor: real): real {
    delay as real * factor
  }

  function Spread(delay: int, f: real, random: real): int {
    Trunc(Scaled(delay, Factor(f, random)))
  }

  function Jittered(p: Policy, attempt: int, random: real): int {
    var delay := Delay(p, attempt);
    if delay == 0 || p.jitter <= 0.0 then delay
    else Spread(delay, p.jitter, random)
  }

  lemma {:induction false} PowGrows(base: real, n: nat)
    requires base > 1.0
    ensures 1.0 <= Pow(base, n) <= Pow(base, n + 1)
  {
    if n > 0 {
      PowGrows(base, n - 1);
      ScaleUp(Pow(base, n - 1), Pow(base, n), base);
    }
  }

  lemma ScaleUp(a: real, b: real, k: real)
    requires 0.0 <= a <= b && k >= 0.0
    ensures 0.0 <= k * a <= k * b && a * k <= b * k
  {
    assert k * (b - a) >= 0.0;
  }

  /** Truncation keeps order between values that are not negative. */
  lemma TruncKeepsOrder(a: real, b: real)
    requires 0.0 <= a <= b
    ensures 0 <= Trunc(a) <= Trunc(b)
  {
  }

  lemma DelayIsCapped(p: Policy, attempt: int)
    ensures 0 <= Delay(p, attempt)
    ensures p.maxDelay > 0 ==> Delay(p, attempt) <= p.maxDelay
  {
    if attempt >= 1 && p.baseDelay > 0 {
      GrownGrows(p, attempt - 1);
      hide Grown;
    }
  }

  lemma CappedGrows(a: real, b: real, cap: int)
    requires 0.0 <= a <= b
    ensures 0.0 <= Capped(a, cap) <= Capped(b, cap)
  {
  }

  lemma GrownGrows(p: Policy, n: nat)
    requires p.baseDelay > 0
    ensures 0.0 < Grown(p, n) <= Grown(p, n + 1)
  {
    PowGrows(Growth(p), n);
    hide Pow, Growth;
    ScaleUp(1.0, Pow(Growth(p), n), p.baseDelay as real);
    ScaleUp(Pow(Growth(p), n), Pow(Growth(p), n + 1), p.baseDelay as real);
  }

  lemma RawGrows(p: Policy, attempt: int)
    requires attempt >= 1 && p.baseDelay > 0
    ensures 0.0 <= RawDelay(p, attempt) <= RawDelay(p, attempt + 1)
  {
    hide Grown, Capped;
    GrownGrows(p, attempt - 1);
    CappedGrows(Grown(p, attempt - 1), Grown(p, attempt), p.maxDelay);
  }

  lemma DelayGrows(p: Policy, attempt: int)
    ensures Delay(p, attempt) <= Delay(p, attempt + 1)
  {
    hide RawDelay;
    DelayIsCapped(p, attempt + 1);
    if attempt >= 1 && p.baseDelay > 0 {
      RawGrows(p, attempt);
      TruncKeepsOrder(RawDelay(p, attempt), RawDelay(p, attempt + 1));
    }
  }

  /** The delay never shrinks from one attempt to a later one, and never exceeds a positive cap. */
  lemma {:induction false} DelayIsMonotoneAndCapped(p: Policy, a: int, b: int)
    requires a <= b
    ensures 0 <= Delay(p, a) <= Delay(p, b)
    ensures p.maxDelay > 0 ==> Delay(p, b) <= p.maxDelay
    decreases b - a
  {
    hide Delay;
    DelayIsCapped(p, b);
    if a < b {
      DelayIsMonotoneAndCapped(p, a, b - 1);
      DelayGrows(p, b - 1);
    }
  }

  /** Within the fraction `f` of the delay, up to the truncation to whole nanoseconds. */
  predicate Near(jittered: int, delay: int, f: real) {
    0 <= jittered && Scaled(delay, 1.0 - f) - 1.0 < jittered as real <= Scaled(delay, 1.0 + f)
  }

  lemma ScaledOrder(d: int, a: real, b: real)
    requires d >= 0 && 0.0 <= a <= b
    ensures 0.0 <= Scaled(d, a) <= Scaled(d, b)
    ensures Scaled(d, 1.0) == d as real
  {
    ScaleUp(a, b, d as real);
  }

  lemma WithinSpread(d: int, f: real)
    requires d >= 0 && 0.0 <= f <= 1.0
    ensures Near(d, d, f)
  {
    hide Scaled;
    ScaledOrder(d, 1.0 - f, 1.0);
    ScaledOrder(d, 1.0, 1.0 + f);
  }

  lemma SpreadStaysNear(d: int, f: real, random: real)
    requires d >= 0 && 0.0 <= f <= 1.0 && 0.0 <= random <= 1.0
    ensures Near(Spread(d, f, random), d, f)
  {
    hide Factor, Scaled;
    FactorStaysNear(f, random);
    ScaledOrder(d, 1.0 - f, Factor(f, random));
    ScaledOrder(d, Factor(f, random), 1.0 + f);
  }

  /** Jitter moves a delay by at most the policy's fraction of it, so it stays within [1 - f, 1 + f] times the delay. */
  lemma JitterStaysNear(p: Policy, attempt: int, random: real)
    requires 0.0 <= p.jitter <= 1.0 && 0.0 <= random <= 1.0
    ensures Near(Jittered(p, attempt, random), Delay(p, attempt), p.jitter)
  {
    DelayIsCapped(p, attempt);
    hide Delay, Near, Spread;
    SpreadStaysNear(Delay(p, attempt), p.jitter, random);
    WithinSpread(Delay(p, attempt), p.jitter);
  }

  lemma Distribute(k: real, a: real, b: real)
    ensures k * (a + b) == k * a + k * b
  {
  }

  lemma ScaledWithin(f: real, x: real)
    requires f >= 0.0 && -1.0 <= x <= 1.0
    ensures -f <= f * x <= f
  {
    Distribute(f, x, 1.0);
    ScaleUp(0.0, x + 1.0, f);
    ScaleUp(x + 1.0, 2.0, f);
  }

  lemma FactorStaysNear(f: real, random: real)
    requires 0.0 <= f <= 1.0 && 0.0 <= random <= 1.0
    ensures 0.0 <= 1.0 - f <= Factor(f, random) <= 1.0 + f
  {
    ScaledWithin(f, 2.0 * random - 1.0);
  }

  // ----- the delays in figures -----

  /** Each of `waits` is the one before it times the multiplier, and the first is the base delay. */
  predicate Geometric(p: Policy, waits: seq<real>) {
    && (waits != [] ==> waits[0] == p.baseDelay as real)
    && forall i :: 0 <= i < |waits| - 1 ==> NextWait(p, waits, i)
  }

  predicate NextWait(p: Policy, waits: seq<real>, i: int)
    requires 0 <= i < |waits| - 1
  {
    waits[i + 1] == waits[i] * if p.multiplier <= 1.0 then 2.0 else p.multiplier
  }

  lemma {:induction false} GrownIs(p: Policy, waits: seq<real>, i: nat)
    requires i < |waits| && Geometric(p, waits)
    ensures Grown(p, i) == waits[i]
  {
    if i > 0 {
      GrownIs(p, waits, i - 1);
      assert NextWait(p, waits, i - 1);
      GrownStep(p, i - 1);
    }
  }

  lemma GrownStep(p: Policy, n: nat)
    ensures Grown(p, n + 1) == Grown(p, n) * Growth(p)
  {
    var m, pow := Growth(p), Pow(Growth(p), n);
    assert Pow(m, n + 1) == m * pow;
    hide Pow, Growth;
    Regroup(p.baseDelay as real, m, pow);
  }

  lemma Regroup(a: real, b: real, c: real)
    ensures a * (b * c) == (a * c) * b
  {
    assert b * c == c * b;
  }

  /**
   * Attempt n is followed by the base delay times the multiplier to the power n - 1, in whole nanoseconds, or by the
   * cap if there is one and that would exceed it.
   */
  lemma DelayIsGeometric(p: Policy, waits: seq<real>, attempt: nat)
    requires p.baseDelay > 0 && 1 <= attempt <= |waits| && Geometric(p, waits)
    ensures var wait, d := waits[attempt - 1], Delay(p, attempt);
            if p.maxDelay > 0 && wait > p.maxDelay as real then d == p.maxDelay
            else 0 <= d && d as real <= wait < d as real + 1.0
  {
    GrownIs(p, waits, attempt - 1);
    GrownGrows(p, attempt - 1);
    hide Grown, Geometric;
  }

  /** The first delay is the base delay, or the cap if that is smaller; without a base delay nothing is waited for. */
  lemma FirstDelay(p: Policy, attempt: int)
    ensures p.baseDelay > 0 ==> Delay(p, 1) == if 0 < p.maxDelay < p.baseDelay then p.maxDelay else p.baseDelay
    ensures p.baseDelay <= 0 || attempt < 1 ==> Delay(p, attempt) == 0
  {
    if p.baseDelay > 0 {
      assert Geometric(p, [p.baseDelay as real]);
      DelayIsGeometric(p, [p.baseDelay as real], 1);
      hide Delay;
    }
  }

  /** DefaultPolicy, without the per-attempt timeout. */
  const DEFAULT_POLICY := Policy(5, 500_000_000, 30_000_000_000, 2.0, 0.2)

  /** Its delays: half a second, doubled up to sixteen seconds, and then thirty seconds for good. */
  lemma DefaultDelays(later: nat)
    requires later >= 7
    ensures Delay(DEFAULT_POLICY, 1) == 500_000_000
    ensures Delay(DEFAULT_POLICY, 2) == 1_000_000_000
    ensures Delay(DEFAULT_POLICY, 3) == 2_000_000_000
    ensures Delay(DEFAULT_POLICY, 4) == 4_000_000_000
    ensures Delay(DEFAULT_POLICY, 5) == 8_000_000_000
    ensures Delay(DEFAULT_POLICY, 6) == 16_000_000_000
    ensures Delay(DEFAULT_POLICY, later) == 30_000_000_000
  {
    hide Delay;
    var half := 500_000_000.0;
    var waits := [half, 2.0 * half, 4.0 * half, 8.0 * half, 16.0 * half, 32.0 * half, 64.0 * half];
    assert Geometric(DEFAULT_POLICY, waits);
    DelayIsGeometric(DEFAULT_POLICY, waits, 1);
    DelayIsGeometric(DEFAULT_POLICY, waits, 2);
    DelayIsGeometric(DEFAULT_POLICY, waits, 3);
    DelayIsGeometric(DEFAULT_POLICY, waits, 4);
    DelayIsGeometric(DEFAULT_POLICY, waits, 5);
    DelayIsGeometric(DEFAULT_POLICY, waits, 6);
    DelayIsGeometric(DEFAULT_POLICY, waits, 7);
    DelayIsMonotoneAndCapped(DEFAULT_POLICY, 7, later);
  }

  /** Jitter takes a delay linearly from (1 - f) times it to (1 + f) times it; without a fraction it leaves it alone. */
  lemma JitterIsLinear(p: Policy, attempt: int, random: real)
    requires p.jitter <= 1.0 && 0.0 <= random <= 1.0
    ensures var d, f, j := Delay(p, attempt) as real, p.jitter, Jittered(p, attempt, random) as real;
            if f <= 0.0 then j == d
            else j <= d * (1.0 - f) * (1.0 - random) + d * (1.0 + f) * random < j + 1.0
    ensures Jittered(p, attempt, 0.5) == Delay(p, attempt)
  {
    DelayIsCapped(p, attempt);
    hide Delay;
    var d, f := Delay(p, attempt) as real, p.jitter;
    if f > 0.0 {
      Interpolate(d, f, random);
      FactorStaysNear(f, random);
      ScaledOrder(Delay(p, attempt), 0.0, Factor(f, random));
      assert Factor(f, 0.5) == 1.0;
    }
  }

  lemma Interpolate(d: real, f: real, r: real)
    ensures d * (1.0 + f * (2.0 * r - 1.0)) == d * (1.0 - f) * (1.0 - r) + d * (1.0 + f) * r
  {
    calc {
      d * (1.0 - f) * (1.0 - r) + d * (1.0 + f) * r;
      d * ((1.0 - f) * (1.0 - r)) + d * ((1.0 + f) * r);
      d * ((1.0 - f) * (1.0 - r) + (1.0 + f) * r);
    }
    assert (1.0 - f) * (1.0 - r) + (1.0 + f) * r == 1.0 + f * (2.0 * r - 1.0);
  }

  // ----- Do -----

  /**
   * What a call of Do meets: the outcome of each attempt, whether the context is found cancelled before it, whether
   * it is cancelled during the sleep after it, and the random number that jitters that sleep.
   */
  datatype Streams = Streams(out: nat -> Outcome, cancelled: nat -> bool, cut: nat -> bool, random: nat -> real)

  function Sleep(p: Policy, random: nat -> real, k: nat): (d: int)
    ensures d >= 0
  {
    var d := Jittered(p, k, random(k));
    if d > 0 then d else 0
  }

  /** The retry loop from attempt `k` on, as a recursion. */
  function DoFrom(p: Policy, st: Streams, k: nat): Summary
    requires 1 <= k <= Attempts(p)
    decreases Attempts(p) - k
  {
    if st.cancelled(k) then Summary(Cancelled, k - 1, 0)
    else
      match st.out(k)
      case Done => Summary(Success, k, 0)
      case Permanent => Summary(PermanentError, k, 0)
      case Retryable =>
        if k == Attempts(p) then Summary(Exhausted, k, 0)
        else
          var d := Sleep(p, st.random, k);
          if d > 0 && st.cut(k) then Summary(Cancelled, k, d)
          else
            var rest := DoFrom(p, st, k + 1);
            rest.(slept := d + rest.slept)
  }

  /** The state the attempts leave behind, one after the other. */
  function StateAfter<S>(op: (S, nat) -> (S, Outcome), s: S, k: nat): S {
    if k == 0 then s else op(StateAfter(op, s, k - 1), k).0
  }

  /** The outcome of attempt `k`, when the attempts before it were made. */
  function OutcomeOf<S>(op: (S, nat) -> (S, Outcome), s: S): nat -> Outcome {
    (k: nat) => if k == 0 then Retryable else op(StateAfter(op, s, k - 1), k).1
  }

  lemma OutcomeAt<S>(op: (S, nat) -> (S, Outcome), init: S, k: nat)
    requires k >= 1
    ensures op(StateAfter(op, init, k - 1), k) == (StateAfter(op, init, k), OutcomeOf(op, init)(k))
  {
  }

  /**
   * Do: the loop makes exactly the attempts and sleeps of the recursion, each attempt on the state the last one left.
   */
  method Do<S>(p: Policy, op: (S, nat) -> (S, Outcome), init: S, cancelled: nat -> bool, cut: nat -> bool,
               random: nat -> real)
    returns (sum: Summary, s: S)
    ensures sum == DoFrom(p, Streams(OutcomeOf(op, init), cancelled, cut, random), 1)
    ensures s == StateAfter(op, init, sum.calls)
  {
    hide Jittered, StateAfter, OutcomeOf;
    var attempts := p.maxAttempts;
    if attempts <= 0 {
      attempts := 1;
    }
    ghost var st := Streams(OutcomeOf(op, init), cancelled, cut, random);
    s := init;
    assert s == StateAfter(op, init, 0) by { StartsAt(op, init); }
    var slept := 0;
    var attempt: nat := 1;
    while attempt <= attempts
      invariant 1 <= attempt <= attempts
      invariant attempts == Attempts(p)
      invariant s == StateAfter(op, init, attempt - 1)
      invariant DoFrom(p, st, 1) == Later(slept, DoFrom(p, st, attempt))
      decreases attempts - attempt
    {
      if cancelled(attempt) {
        return Summary(Cancelled, attempt - 1, slept), s;
      }
      OutcomeAt(op, init, attempt);
      var (next, lastErr) := op(s, attempt);
      s := next;
      if lastErr == Done {
        return Summary(Success, attempt, slept), s;
      }
      if lastErr == Permanent {
        return Summary(PermanentError, attempt, slept), s;
      }
      if attempt == attempts {
        break;
      }
      var d := Jittered(p, attempt, random(attempt));
      if d > 0 {
        slept := slept + d;
        if cut(attempt) {
          return Summary(Cancelled, attempt, slept), s;
        }
      }
      attempt := attempt + 1;
    }
    sum := Summary(Exhausted, attempts, slept);
  }

  lemma StartsAt<S>(op: (S, nat) -> (S, Outcome), init: S)
    ensures StateAfter(op, init, 0) == init
  {
  }

  /** The summary of a loop that had slept before. */
  function Later(slept: int, sum: Summary): Summary {
    sum.(slept := slept + sum.slept)
  }

  /** Attempt `k` fails in a way worth retrying, is not the last one, and the sleep after it is not cut short. */
  predicate GoesOn(p: Policy, st: Streams, k: nat) {
    && !st.cancelled(k)
    && st.out(k) == Retryable
    && k < Attempts(p)
    && !(Sleep(p, st.random, k) > 0 && st.cut(k))
  }

  /** Why the loop ended where it did. */
  predicate EndReason(p: Policy, st: Streams, sum: Summary) {
    var k := sum.calls;
    match sum.ended
    case Success => k >= 1 && !st.cancelled(k) && st.out(k) == Done
    case PermanentError => k >= 1 && !st.cancelled(k) && st.out(k) == Permanent
    case Exhausted => k == Attempts(p) && !st.cancelled(k) && st.out(k) == Retryable
    case Cancelled =>
      || st.cancelled(k + 1)
      || (k >= 1 && !st.cancelled(k) && st.out(k) == Retryable && Sleep(p, st.random, k) > 0 && st.cut(k))
  }

  /**
   * The number of attempts is exact: every attempt but the last went on, the last one ended the loop for the reported
   * reason, and no attempt was started after the context was found cancelled.
   */
  lemma {:induction false} CallsAreExact(p: Policy, st: Streams, from: nat)
    requires 1 <= from <= Attempts(p)
    ensures var sum := DoFrom(p, st, from);
            && from - 1 <= sum.calls <= Attempts(p)
            && (forall k: nat :: from <= k < sum.calls ==> GoesOn(p, st, k))
            && (forall k: nat :: from <= k <= sum.calls ==> !st.cancelled(k))
            && (sum.calls < from ==> sum.ended == Cancelled && st.cancelled(from))
            && EndReason(p, st, sum)
    decreases Attempts(p) - from
  {
    if !st.cancelled(from) && st.out(from) == Retryable && from < Attempts(p) {
      CallsAreExact(p, st, from + 1);
    }
  }

  /**
   * Cancellation is final, so once it is seen before some attempt, that attempt and all later ones are never started.
   */
  lemma NothingStartsAfterCancel(p: Policy, st: Streams, at: nat)
    requires at >= 1 && st.cancelled(at)
    ensures DoFrom(p, st, 1).calls < at
  {
    CallsAreExact(p, st, 1);
  }

  /** The sleeps after attempts `from` to `last`. */
  function TotalSleep(p: Policy, random: nat -> real, from: nat, last: nat): int
    decreases last - from
  {
    if from > last then 0 else Sleep(p, random, from) + TotalSleep(p, random, from + 1, last)
  }

  /** The attempt after which the loop slept last: the one before the last attempt, unless it was cancelled later. */
  function LastSleep(sum: Summary): nat {
    if sum.ended == Cancelled || sum.calls == 0 then sum.calls else sum.calls - 1
  }

  /** Do sleeps between attempts only: never after the last one, and after the others exactly their jittered delay. */
  lemma {:induction false} SleepsBetweenAttempts(p: Policy, st: Streams, from: nat)
    requires 1 <= from <= Attempts(p)
    ensures var sum := DoFrom(p, st, from);
            sum.slept == TotalSleep(p, st.random, from, LastSleep(sum)) && LastSleep(sum) < Attempts(p)
    decreases Attempts(p) - from
  {
    CallsAreExact(p, st, from);
    if !st.cancelled(from) && st.out(from) == Retryable && from < Attempts(p) {
      CallsAreExact(p, st, from + 1);
      SleepsBetweenAttempts(p, st, from + 1);
    }
  }

  /** An operation that always fails is tried as often as the policy says, at least once, with sleeps between tries. */
  lemma FailingIsRetried(p: Policy, st: Streams)
    requires forall k: nat :: st.out(k) == Retryable && !st.cancelled(k) && !st.cut(k)
    ensures var n := if p.maxAttempts <= 0 then 1 else p.maxAttempts;
            DoFrom(p, st, 1) == Summary(Exhausted, n, TotalSleep(p, st.random, 1, n - 1))
  {
    CallsAreExact(p, st, 1);
    SleepsBetweenAttempts(p, st, 1);
    var sum := DoFrom(p, st, 1);
    hide DoFrom, Sleep;
    assert !st.cancelled(sum.calls + 1) && !st.cancelled(sum.calls) && st.out(sum.calls) == Retryable;
  }

  /** With the default policy and neutral jitter, five failing attempts sleep 0.5 + 1 + 2 + 4 seconds. */
  lemma DefaultBackoff(st: Streams)
    requires forall k: nat :: st.out(k) == Retryable && !st.cancelled(k) && !st.cut(k) && st.random(k) == 0.5
    ensures DoFrom(DEFAULT_POLICY, st, 1) == Summary(Exhausted, 5, 7_500_000_000)
  {
    FailingIsRetried(DEFAULT_POLICY, st);
    DefaultDelays(7);
    JitterIsLinear(DEFAULT_POLICY, 1, 0.5);
    JitterIsLinear(DEFAULT_POLICY, 2, 0.5);
    JitterIsLinear(DEFAULT_POLICY, 3, 0.5);
    JitterIsLinear(DEFAULT_POLICY, 4, 0.5);
    hide DoFrom, Delay, Jittered;
    assert TotalSleep(DEFAULT_POLICY, st.random, 5, 4) == 0;
    assert TotalSleep(DEFAULT_POLICY, st.random, 4, 4) == 4_000_000_000;
    assert TotalSleep(DEFAULT_POLICY, st.random, 3, 4) == 6_000_000_000;
    assert TotalSleep(DEFAULT_POLICY, st.random, 2, 4) == 7_000_000_000;
  }

  /** A sleep is at most the cap, stretched by the jitter. */
  lemma SleepIsBounded(p: Policy, random: nat -> real, k: nat)
    requires p.maxDelay > 0 && 0.0 <= p.jitter <= 1.0 && 0.0 <= random(k) <= 1.0
    ensures 0.0 <= Sleep(p, random, k) as real <= p.maxDelay as real * (1.0 + p.jitter)
  {
    JitterStaysNear(p, k, random(k));
    DelayIsMonotoneAndCapped(p, k, k);
    hide Delay, Jittered;
    ScaledCapped(Delay(p, k), p.maxDelay, 1.0 + p.jitter);
    ScaledOrder(Delay(p, k), 1.0, 1.0 + p.jitter);
    hide Scaled;
  }

  lemma ScaledCapped(d: int, cap: int, factor: real)
    requires 0 <= d <= cap && factor >= 0.0
    ensures Scaled(d, factor) <= cap as real * factor
  {
    ScaleUp(d as real, cap as real, factor);
  }

  lemma OneMore(n: int, bound: real)
    ensures (n + 1) as real * bound == n as real * bound + bound
  {
  }

  lemma {:induction false} TotalIsBounded(p: Policy, random: nat -> real, from: nat, last: nat, bound: real)
    requires from <= last + 1 && forall k: nat :: Sleep(p, random, k) as real <= bound
    ensures TotalSleep(p, random, from, last) as real <= (last + 1 - from) as real * bound
    decreases last + 1 - from
  {
    hide Sleep;
    if from <= last {
      TotalIsBounded(p, random, from + 1, last, bound);
      OneMore(last - from, bound);
    }
  }

  lemma SleepsUpTo(p: Policy, random: nat -> real, last: nat, bound: real)
    requires forall k: nat :: Sleep(p, random, k) as real <= bound
    ensures TotalSleep(p, random, 1, last) as real <= last as real * bound
  {
    hide TotalSleep, Sleep;
    TotalIsBounded(p, random, 1, last, bound);
  }

  lemma SleepsWithin(p: Policy, st: Streams, bound: real)
    requires bound >= 0.0 && forall k: nat :: Sleep(p, st.random, k) as real <= bound
    ensures DoFrom(p, st, 1).slept as real <= (Attempts(p) - 1) as real * bound
  {
    hide *;
    var last := LastSleep(DoFrom(p, st, 1));
    SleepsBetweenAttempts(p, st, 1);
    SleepsUpTo(p, st.random, last, bound);
    ScaleUp(last as real, (Attempts(p) - 1) as real, bound);
  }

  /** With a positive cap, a call of Do means to sleep at most (attempts - 1) times the cap, stretched by the jitter. */
  lemma TotalSleepIsBounded(p: Policy, st: Streams)
    requires p.maxDelay > 0 && 0.0 <= p.jitter <= 1.0 && forall k :: 0.0 <= st.random(k) <= 1.0
    ensures DoFrom(p, st, 1).slept as real <= (Attempts(p) - 1) as real * (p.maxDelay as real * (1.0 + p.jitter))
  {
    var bound := p.maxDelay as real * (1.0 + p.jitter);
    hide DoFrom, Sleep;
    forall k: nat ensures 0.0 <= Sleep(p, st.random, k) as real <= bound {
      SleepIsBounded(p, st.random, k);
    }
    assert bound >= 0.0 by { assert Sleep(p, st.random, 1) as real <= bound; }
    SleepsWithin(p, st, bound);
  }
}
