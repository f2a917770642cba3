/**
 RTT smoothing, section 2 of RFC 6298 (crates/nexus-bwe/src/rtt.rs). The factors 7/8, 1/8,
 3/4 and 1/4 and the products with microseconds up to 5 s are exact in binary64, so the
 source's float expressions followed by truncation are the integer divisions below.
 */
module Rtt {
  const MIN_RTT_US: nat := 1_000
  const MAX_RTT_US: nat := 5_000_000
  const MIN_RTO_US: nat := 200_000
  const MAX_RTO_US: nat := 60_000_000

  datatype Estimate = Estimate(srtt: nat, rttvar: nat, min: nat, max: nat)

  predicate InRange(sample: nat) {
    MIN_RTT_US <= sample <= MAX_RTT_US
  }

  function First(sample: nat): Estimate {
    Estimate(sample, sample / 2, sample, sample)
  }

  function Abs(x: int): nat {
    if x < 0 then -x else x
  }

  function Clamp(x: nat, low: nat, high: nat): nat {
    if x < low then low else if x > high then high else x
  }

  /** SRTT without the clamp. */
  function Smoothed(srtt: nat, sample: nat): nat {
    (7 * srtt + sample) / 8
  }

  function Spread(rttvar: nat, diff: nat): nat {
    (3 * rttvar + diff) / 4
  }

  function Updated(e: Estimate, sample: nat): Estimate {
    Estimate(
      Clamp(Smoothed(e.srtt, sample), MIN_RTT_US, MAX_RTT_US),
      Spread(e.rttvar, Abs(sample - e.srtt)),
      if sample < e.min then sample else e.min,
      if sample > e.max then sample else e.max)
  }

  function After(e: Estimate, samples: seq<nat>): Estimate
    decreases |samples|
  {
    if samples == [] then e else After(Updated(e, samples[0]), samples[1..])
  }

  // ── Every sequence of samples ────────────────────────────────────

  /** SRTT is between the extremes seen, and RTTVAR no larger than the widest spread or the first guess. */
  predicate Bounded(e: Estimate, guess: nat) {
    && MIN_RTT_US <= e.min <= e.srtt <= e.max <= MAX_RTT_US
    && e.rttvar <= (if e.max - e.min > guess then e.max - e.min else guess)
  }

  /**
   The closing asserts of the source hold: truncation cannot push SRTT below the minimum, and
   the clamp does nothing.
   */
  lemma UpdateKeepsBounds(e: Estimate, guess: nat, sample: nat)
    requires Bounded(e, guess) && InRange(sample)
    ensures Bounded(Updated(e, sample), guess)
    ensures Updated(e, sample).srtt == Smoothed(e.srtt, sample)
    ensures Updated(e, sample).min <= e.min && e.max <= Updated(e, sample).max
      && Updated(e, sample).min <= sample <= Updated(e, sample).max
  {
    var (low, high) := (if e.srtt < sample then e.srtt else sample, if e.srtt < sample then sample else e.srtt);
    assert 8 * low <= 7 * e.srtt + sample <= 8 * high;
  }

  lemma {:induction false} AlwaysBounded(e: Estimate, guess: nat, samples: seq<nat>)
    requires Bounded(e, guess) && forall i :: 0 <= i < |samples| ==> InRange(samples[i])
    ensures Bounded(After(e, samples), guess)
    ensures After(e, samples).min <= e.min && e.max <= After(e, samples).max
    ensures forall i :: 0 <= i < |samples| ==> After(e, samples).min <= samples[i] <= After(e, samples).max
    decreases |samples|
  {
    if samples != [] {
      UpdateKeepsBounds(e, guess, samples[0]);
      AlwaysBounded(Updated(e, samples[0]), guess, samples[1..]);
      forall i | 0 <= i < |samples| ensures After(e, samples).min <= samples[i] <= After(e, samples).max {
        if i > 0 {
          assert samples[i] == samples[1..][i - 1];
        }
      }
    }
  }

  /** From a first sample on: SRTT within the samples seen, RTTVAR bounded. */
  lemma SrttWithinSamples(first: nat, samples: seq<nat>)
    requires InRange(first) && forall i :: 0 <= i < |samples| ==> InRange(samples[i])
    ensures
      var e := After(First(first), samples);
      && e.min <= e.srtt <= e.max && InRange(e.srtt)
      && e.rttvar <= (if e.max - e.min > first / 2 then e.max - e.min else first / 2)
  {
    AlwaysBounded(First(first), first / 2, samples);
  }

  // ── A constant sample ────────────────────────────────────────────

  /** Truncation stalls the smoothing exactly when SRTT is at the sample or up to 7 below it. */
  lemma StallsWithinSeven(srtt: nat, sample: nat)
    ensures Smoothed(srtt, sample) == srtt <==> sample - 7 <= srtt <= sample
    ensures srtt > sample ==> sample <= Smoothed(srtt, sample) < srtt
    ensures srtt < sample - 7 ==> srtt < Smoothed(srtt, sample) < sample
  {
  }

  /**
   Under a constant sample the estimator's SRTT comes down to it exactly, and up to it
   within 7 microseconds, in no more updates than it was microseconds away; then it stays.
   */
  lemma {:induction false} Converges(e: Estimate, guess: nat, sample: nat, n: nat)
    requires Bounded(e, guess) && InRange(sample) && n >= Abs(sample - e.srtt)
    ensures sample - 7 <= After(e, seq(n, _ => sample)).srtt <= sample
    ensures e.srtt >= sample ==> After(e, seq(n, _ => sample)).srtt == sample
    decreases n
  {
    StallsWithinSeven(e.srtt, sample);
    if n > 0 {
      UpdateKeepsBounds(e, guess, sample);
      if Smoothed(e.srtt, sample) == e.srtt {
        Stays(e, guess, sample, n);
      } else {
        ConstantSamples(sample, n);
        Converges(Updated(e, sample), guess, sample, n - 1);
      }
    }
  }

  lemma {:induction false} Stays(e: Estimate, guess: nat, sample: nat, n: nat)
    requires Bounded(e, guess) && InRange(sample) && Smoothed(e.srtt, sample) == e.srtt
    ensures After(e, seq(n, _ => sample)).srtt == e.srtt
    decreases n
  {
    if n > 0 {
      UpdateKeepsBounds(e, guess, sample);
      ConstantSamples(sample, n);
      Stays(Updated(e, sample), guess, sample, n - 1);
    }
  }

  lemma ConstantSamples(sample: nat, n: nat)
    requires n > 0
    ensures var samples := seq(n, _ => sample); samples[0] == sample && samples[1..] == seq(n - 1, _ => sample)
  {
  }

  // ── The estimator ────────────────────────────────────────────────

  class RttEstimator {
    var srttUs: nat
    var rttvarUs: nat
    var minRttUs: nat
    var maxRttUs: nat
    ghost const guess: nat

    ghost function View(): Estimate
      reads this
    {
      Estimate(srttUs, rttvarUs, minRttUs, maxRttUs)
    }

    ghost predicate Valid()
      reads this
    {
      Bounded(View(), guess) && guess <= MAX_RTT_US / 2
    }

    constructor (initial: nat)
      requires InRange(initial)
      ensures Valid() && View() == First(initial) && guess == initial / 2
    {
      srttUs, rttvarUs, minRttUs, maxRttUs := initial, initial / 2, initial, initial;
      guess := initial / 2;
    }

    method Update(sample: nat)
      requires Valid() && InRange(sample)
      modifies this
      ensures Valid() && View() == Updated(old(View()), sample)
    {
      UpdateKeepsBounds(View(), guess, sample);
      var diff := if sample > srttUs then sample - srttUs else srttUs - sample;
      var rttvar := (3 * rttvarUs + diff) / 4;
      var srtt := (7 * srttUs + sample) / 8;
      srtt := Clamp(srtt, MIN_RTT_US, MAX_RTT_US);
      srttUs, rttvarUs := srtt, rttvar;
      if sample < minRttUs {
        minRttUs := sample;
      }
      if sample > maxRttUs {
        maxRttUs := sample;
      }
      assert minRttUs <= srttUs <= maxRttUs;
    }

    /** Between 200 ms and 60 s; the upper clamp is never needed. */
    function RtoUs(): (rto: nat)
      requires Valid()
      reads this
      ensures MIN_RTO_US <= rto <= MAX_RTO_US && srttUs + 4 * rttvarUs <= rto
      ensures srttUs + 4 * rttvarUs >= MIN_RTO_US ==> rto == srttUs + 4 * rttvarUs
    {
      Clamp(srttUs + 4 * rttvarUs, MIN_RTO_US, MAX_RTO_US)
    }
  }
}
