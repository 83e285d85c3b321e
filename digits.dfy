/**
 * The stimulus alphabet (the digits 1..9) and the per-digit presentation counter
 * `number_counts`, a dictionary {1: 0, ..., 9: 0} that `display_stimulus` bumps.
 */
module DigitCounts {

  /** Stimuli are the single digits 1..9. */
  predicate IsDigit(d: int) {
    1 <= d <= 9
  }

  /** A counter map whose keys are exactly the digits 1..9. */
  ghost predicate WellFormedCounts(m: map<int, nat>) {
    forall d :: d in m <==> IsDigit(d)
  }

  /** `{i: 0 for i in range(1, 10)}` */
  function ZeroCounts(): (m: map<int, nat>)
    ensures WellFormedCounts(m)
    ensures forall d :: d in m ==> m[d] == 0
  {
    map[1 := 0, 2 := 0, 3 := 0, 4 := 0, 5 := 0, 6 := 0, 7 := 0, 8 := 0, 9 := 0]
  }

  /** A fresh counter has counted nothing. */
  lemma ZeroCountsSumToZero()
    ensures SumCounts(ZeroCounts()) == 0
  {
  }

  /** `sum(number_counts.values())` */
  function SumCounts(m: map<int, nat>): nat
    requires WellFormedCounts(m)
  {
    m[1] + m[2] + m[3] + m[4] + m[5] + m[6] + m[7] + m[8] + m[9]
  }

  /** `number_counts[s] += 1`: one more presentation of s, every other count kept. */
  function Bump(m: map<int, nat>, s: int): (r: map<int, nat>)
    requires WellFormedCounts(m) && IsDigit(s)
    ensures WellFormedCounts(r)
    ensures r[s] == m[s] + 1
    ensures forall d :: d in m && d != s ==> r[d] == m[d]
  {
    m[s := m[s] + 1]
  }

  /** Each presentation adds exactly one to the sum of the counts. */
  lemma BumpAddsOne(m: map<int, nat>, s: int)
    requires WellFormedCounts(m) && IsDigit(s)
    ensures SumCounts(Bump(m, s)) == SumCounts(m) + 1
  {
  }

  /**
   * Every digit shown at least `max_trials / 9.0` times. For integers, `c < n / 9.0` is
   * exactly `9 * c < n`.
   */
  ghost predicate ShownEnough(counts: map<int, nat>, maxTrials: nat)
    requires WellFormedCounts(counts)
  {
    forall d :: IsDigit(d) ==> 9 * counts[d] >= maxTrials
  }

  /** The loop of GNG-PVT.py's `clear_feedback_and_proceed` that decides `ShownEnough`. */
  method AllDigitsShownEnough(counts: map<int, nat>, maxTrials: nat) returns (all: bool)
    requires WellFormedCounts(counts)
    ensures all <==> ShownEnough(counts, maxTrials)
  {
    all := true;
    for i := 1 to 10
      invariant forall d :: 1 <= d < i ==> 9 * counts[d] >= maxTrials
    {
      if 9 * counts[i] < maxTrials {
        all := false;
        break;
      }
    }
  }
}
