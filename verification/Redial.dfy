/** The home relay's redial backoff (endpoint/src/endpoint_impl.rs, `redial_delay`, `next_redial_delay`). */
module Redial {
  import opened Types

  const REDIAL_MIN_DELAY: Duration := 10_000_000
  const REDIAL_MAX_DELAY: Duration := 5_000_000_000
  const REDIAL_ESTABLISHED: Duration := 10_000_000_000
  const NANOS_PER_SEC := 1_000_000_000
  const U16_MAX := 65535
  const U32_MAX := 0xffff_ffff
  const U64_MAX := 0xffff_ffff_ffff_ffff

  /** `Duration::checked_mul`: the whole seconds must fit 64 bits. */
  function CheckedMul(d: Duration, k: nat): Option<Duration> {
    if d * k / NANOS_PER_SEC <= U64_MAX then Some(d * k) else None
  }

  /** `1u32.checked_shl(n)`. */
  function CheckedShl(n: nat): Option<nat> {
    if n < 32 then Some(Pow2(n)) else None
  }

  function RedialBase(attempt: nat): Duration {
    var factor := match CheckedShl(Min(attempt, 31)) case Some(f) => f case None => U32_MAX;
    var grown := match CheckedMul(REDIAL_MIN_DELAY, factor) case Some(d) => d case None => REDIAL_MAX_DELAY;
    Min(grown, REDIAL_MAX_DELAY)
  }

  /** `spread` is the 16-bit random draw, zero when the random source refuses. */
  function RedialDelay(attempt: nat, spread: nat): Duration
    requires spread <= U16_MAX
  {
    var base := RedialBase(attempt);
    Min(base + Jitter(base, spread), REDIAL_MAX_DELAY)
  }

  /** Up to as much again as the base; the division truncates first. */
  function Jitter(base: Duration, spread: nat): Duration { Product(base / U16_MAX, spread) }

  function Product(a: nat, b: nat): nat { a * b }

  /** The pump's backoff state: the attempt counter and when the home relay was last registered. */
  datatype Backoff = Backoff(attempt: nat, homeSince: Option<Instant>)

  function NextRedialDelay(b: Backoff, now: Instant, spread: nat): (Backoff, Duration)
    requires spread <= U16_MAX
  {
    if b.homeSince.Some? && Since(now, b.homeSince.value) >= REDIAL_ESTABLISHED then
      (Backoff(0, None), 0)
    else
      (Backoff(Min(b.attempt + 1, U32_MAX), None), RedialDelay(b.attempt, spread))
  }

  /** A registered connection restarts the backoff. */
  function Reconnected(now: Instant): Backoff { Backoff(0, Some(now)) }

  lemma {:induction false} Pow2Monotone(m: nat, n: nat)
    requires m <= n
    ensures Pow2(m) <= Pow2(n)
    decreases n
  {
    if m < n {
      Pow2Monotone(m, n - 1);
    }
  }

  /** No step of the computation saturates by overflow: the base is the
      doubled minimum, capped. */
  lemma BaseIsCappedDoubling(attempt: nat)
    ensures RedialBase(attempt) == Min(REDIAL_MIN_DELAY * Pow2(attempt), REDIAL_MAX_DELAY)
    ensures CheckedShl(Min(attempt, 31)).Some?
    ensures CheckedMul(REDIAL_MIN_DELAY, Pow2(Min(attempt, 31))).Some?
  {
    hide Pow2;
    Pow2At31();
    Pow2Monotone(Min(attempt, 31), 31);
    if attempt > 31 {
      Pow2Monotone(31, attempt);
    }
  }

  lemma Pow2At31()
    ensures Pow2(31) == 0x8000_0000
  {
    assert Pow2(8) == 0x100;
    assert Pow2(16) == 0x1_0000;
    assert Pow2(24) == 0x100_0000;
  }

  lemma JitterBound(base: Duration, spread: nat)
    requires spread <= U16_MAX
    ensures Jitter(base, spread) <= base
  {
    assert Product(base / U16_MAX, spread) <= Product(base / U16_MAX, U16_MAX);
  }

  /** Every delay lies between the capped doubling and the capped double of it. */
  lemma DelayBounds(attempt: nat, spread: nat)
    requires spread <= U16_MAX
    ensures
      var doubled := REDIAL_MIN_DELAY * Pow2(attempt);
      Min(doubled, REDIAL_MAX_DELAY) <= RedialDelay(attempt, spread) <= Min(2 * doubled, REDIAL_MAX_DELAY)
  {
    hide Pow2, Jitter, RedialBase;
    BaseIsCappedDoubling(attempt);
    JitterBound(RedialBase(attempt), spread);
  }

  /** The jitter is the draw's share of the base, out of 65535 parts, to within the
      one nanosecond per part that the division drops; a larger draw never waits less,
      and the full draw all but doubles the base. */
  lemma JitterIsTheDrawsShare(base: Duration, spread: nat)
    requires spread <= U16_MAX
    ensures base * spread - 65534 * spread <= 65535 * Jitter(base, spread) <= base * spread
    ensures spread == 65535 ==> base - 65534 <= Jitter(base, spread) <= base
    ensures forall less: nat :: less <= spread ==> Jitter(base, less) <= Jitter(base, spread)
  {
    var q, r := base / 65535, base % 65535;
    assert base == 65535 * q + r;
    assert base * spread == 65535 * (q * spread) + r * spread;
    MulUpTo(r, 65534, spread);
    forall less: nat | less <= spread ensures Jitter(base, less) <= Jitter(base, spread) {
      MulUpTo(less, spread, q);
      assert less * q == q * less && spread * q == q * spread;
    }
  }

  lemma MulUpTo(i: nat, j: nat, k: nat)
    requires i <= j
    ensures i * k <= j * k
  {
    assert j * k == i * k + (j - i) * k;
  }

  lemma DelayIsBasePlusShare(attempt: nat, spread: nat)
    requires spread <= U16_MAX
    ensures RedialDelay(attempt, spread) == Min(RedialBase(attempt) + Jitter(RedialBase(attempt), spread), 5_000_000_000)
    ensures forall less: nat :: less <= spread ==> RedialDelay(attempt, less) <= RedialDelay(attempt, spread)
  {
    JitterIsTheDrawsShare(RedialBase(attempt), spread);
    hide Jitter, RedialBase;
  }

  // ----- an outage: redials with no connection registered in between -----

  datatype Draw = Draw(now: Instant, spread: nat)

  ghost predicate ValidDraws(draws: seq<Draw>) {
    forall i :: 0 <= i < |draws| ==> draws[i].spread <= U16_MAX
  }

  function Delays(b: Backoff, draws: seq<Draw>): seq<Duration>
    requires ValidDraws(draws)
    decreases |draws|
  {
    if draws == [] then []
    else
      var (next, delay) := NextRedialDelay(b, draws[0].now, draws[0].spread);
      [delay] + Delays(next, draws[1..])
  }

  function Sum(ds: seq<Duration>): Duration {
    if ds == [] then 0 else ds[0] + Sum(ds[1..])
  }

  function Nonzero(ds: seq<Duration>): nat {
    if ds == [] then 0 else (if ds[0] > 0 then 1 else 0) + Nonzero(ds[1..])
  }

  /** The least time `n` backed-off redials take, counted from attempt `from`. */
  function LeastTotal(from: nat, n: nat): Duration
    decreases n
  {
    if n == 0 then 0
    else Min(REDIAL_MIN_DELAY * Pow2(from), REDIAL_MAX_DELAY) + LeastTotal(from + 1, n - 1)
  }

  /** Without a pending registration every delay is backed off, none is zero. */
  lemma {:induction false} BackedOff(b: Backoff, draws: seq<Draw>)
    requires ValidDraws(draws) && b.homeSince == None && b.attempt <= U32_MAX
    ensures |Delays(b, draws)| == |draws|
    ensures forall i :: 0 <= i < |draws| ==> Delays(b, draws)[i] > 0
    ensures Nonzero(Delays(b, draws)) == |draws|
    ensures Sum(Delays(b, draws)) >= LeastTotal(b.attempt, |draws|)
    decreases |draws|
  {
    hide Pow2, RedialDelay;
    if draws != [] {
      var (next, delay) := NextRedialDelay(b, draws[0].now, draws[0].spread);
      DelayBounds(b.attempt, draws[0].spread);
      BackedOff(next, draws[1..]);
      if b.attempt == U32_MAX {
        CappedTotal(b.attempt, |draws| - 1);
        CappedTotal(b.attempt + 1, |draws| - 1);
      }
    }
  }

  /** The i-th of them lies between the i-th doubling and its double, both capped. */
  lemma {:induction false} EachDelayDoubles(b: Backoff, draws: seq<Draw>, i: nat)
    requires ValidDraws(draws) && b.homeSince == None && b.attempt <= U32_MAX && i < |draws|
    ensures |Delays(b, draws)| == |draws|
    ensures
      var doubled := REDIAL_MIN_DELAY * Pow2(b.attempt + i);
      Min(doubled, REDIAL_MAX_DELAY) <= Delays(b, draws)[i] <= Min(2 * doubled, REDIAL_MAX_DELAY)
    decreases |draws|
  {
    hide Pow2, RedialDelay;
    BackedOff(b, draws);
    var (next, delay) := NextRedialDelay(b, draws[0].now, draws[0].spread);
    if i == 0 {
      DelayBounds(b.attempt, draws[0].spread);
    } else {
      EachDelayDoubles(next, draws[1..], i - 1);
      if b.attempt == U32_MAX {
        CappedTotal(next.attempt + i - 1, 1);
        CappedTotal(b.attempt + i, 1);
      }
    }
  }

  lemma {:induction false} LeastTotalClosed(from: nat, n: nat)
    requires from <= 9
    ensures from + n <= 9 ==> LeastTotal(from, n) == REDIAL_MIN_DELAY * (Pow2(from + n) - Pow2(from))
    ensures from + n > 9 ==>
      LeastTotal(from, n) == REDIAL_MIN_DELAY * (512 - Pow2(from)) + REDIAL_MAX_DELAY * (from + n - 9)
    decreases n
  {
    assert Pow2(8) == 256 && Pow2(9) == 512;
    if n > 0 {
      if from < 9 {
        Pow2Monotone(from, 8);
        LeastTotalClosed(from + 1, n - 1);
      } else {
        CappedTotal(9, n);
      }
    }
  }

  lemma {:induction false} CappedTotal(from: nat, n: nat)
    requires from >= 9
    ensures LeastTotal(from, n) == REDIAL_MAX_DELAY * n
    decreases n
  {
    if n > 0 {
      Pow2Monotone(9, from);
      assert Pow2(9) == 512;
      CappedTotal(from + 1, n - 1);
    }
  }

  /** The floor on an outage with `n` backed-off redials:
      10 ms (2^n - 1) up to nine, then 5.11 s and 5 s for each further one. */
  function OutageFloor(n: nat): Duration {
    if n <= 9 then REDIAL_MIN_DELAY * (Pow2(n) - 1)
    else 5_110_000_000 + REDIAL_MAX_DELAY * (n - 9)
  }

  /** An outage starts with the attempt counter at zero (every registration
      resets it). A zero delay comes first or not at all, and only after a
      connection registered for at least `REDIAL_ESTABLISHED`; the nonzero ones
      take at least the floor. */
  lemma OutageTotal(b: Backoff, draws: seq<Draw>)
    requires ValidDraws(draws) && b.attempt == 0
    ensures
      var ds := Delays(b, draws);
      && |ds| == |draws|
      && (forall i :: 0 <= i < |ds| && ds[i] == 0 ==>
            i == 0 && b.homeSince.Some? && Since(draws[0].now, b.homeSince.value) >= REDIAL_ESTABLISHED)
      && (|ds| > 0 && b.homeSince.Some? && Since(draws[0].now, b.homeSince.value) >= REDIAL_ESTABLISHED ==> ds[0] == 0)
      && Nonzero(ds) >= |ds| - 1
      && Sum(ds) >= OutageFloor(Nonzero(ds))
  {
    if draws != [] {
      var (next, delay) := NextRedialDelay(b, draws[0].now, draws[0].spread);
      FirstDelay(b, draws[0]);
      BackedOff(next, draws[1..]);
      LeastTotalClosed(0, |draws|);
      LeastTotalClosed(0, |draws| - 1);
      assert Pow2(0) == 1;
      hide Pow2, RedialDelay, NextRedialDelay;
      var ds := Delays(b, draws);
      assert ds[1..] == Delays(next, draws[1..]);
    }
  }

  lemma FirstDelay(b: Backoff, draw: Draw)
    requires b.attempt == 0 && draw.spread <= U16_MAX
    ensures
      var (next, delay) := NextRedialDelay(b, draw.now, draw.spread);
      if b.homeSince.Some? && Since(draw.now, b.homeSince.value) >= REDIAL_ESTABLISHED
      then next == Backoff(0, None) && delay == 0
      else next == Backoff(1, None) && REDIAL_MIN_DELAY <= delay <= 2 * REDIAL_MIN_DELAY
  {
    DelayBounds(0, draw.spread);
    hide RedialDelay;
  }

  /** Delay by delay: at once exactly after a connection registered for ten seconds or
      more, and from there on each doubles the one before, from 10 ms to 5 s, within
      its jitter. */
  lemma OutageBacksOff(b: Backoff, draws: seq<Draw>, i: nat)
    requires ValidDraws(draws) && b.attempt == 0 && i < |draws|
    ensures |Delays(b, draws)| == |draws|
    ensures
      var ds := Delays(b, draws);
      var established := b.homeSince.Some? && Since(draws[0].now, b.homeSince.value) >= 10_000_000_000;
      if established && i == 0 then ds[i] == 0
      else
        var doubled := 10_000_000 * Pow2(if established then i - 1 else i);
        Min(doubled, 5_000_000_000) <= ds[i] <= Min(2 * doubled, 5_000_000_000)
  {
    var (next, delay) := NextRedialDelay(b, draws[0].now, draws[0].spread);
    FirstDelay(b, draws[0]);
    BackedOff(next, draws[1..]);
    assert Pow2(0) == 1;
    hide RedialDelay, Pow2, NextRedialDelay;
    if i > 0 {
      EachDelayDoubles(next, draws[1..], i - 1);
    }
  }

  /** The dials an outage can spend on a given time are bounded. */
  lemma DialsAreBounded(b: Backoff, draws: seq<Draw>, time: Duration)
    requires ValidDraws(draws) && b.attempt == 0
    requires Sum(Delays(b, draws)) <= time
    ensures |draws| <= 10 + time / REDIAL_MAX_DELAY
  {
    OutageTotal(b, draws);
  }
}
