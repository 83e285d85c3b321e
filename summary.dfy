/**
 * The session summary computed at the start of `save_data_to_json` (accuracy, average,
 * worst and spread of the reaction times), in both variants, and the accuracy shown on
 * gng_pvt.py's results screen. Floating-point rounding is not modelled: accuracy and the
 * average are exact ratios.
 */
module SessionSummary {
  import opened Wrappers
  import opened Trial

  /** `sum(reaction_times)` */
  function Sum(s: seq<nat>): nat {
    if s == [] then 0 else Sum(s[..|s| - 1]) + s[|s| - 1]
  }

  /** `max(reaction_times)`: an element of the series that no element exceeds. */
  function Max(s: seq<nat>): (m: nat)
    requires s != []
    ensures m in s
    ensures forall i :: 0 <= i < |s| ==> s[i] <= m
  {
    if |s| == 1 then s[0]
    else
      var m' := Max(s[..|s| - 1]);
      assert forall i :: 0 <= i < |s| - 1 ==> s[i] == s[..|s| - 1][i];
      if s[|s| - 1] > m' then s[|s| - 1] else m'
  }

  lemma {:induction false} MulMonotone(a: nat, b: nat, c: nat)
    requires b <= c
    ensures a * b <= a * c
  {
    if a > 0 {
      MulMonotone(a - 1, b, c);
      assert a * b == (a - 1) * b + b;
      assert a * c == (a - 1) * c + c;
    }
  }

  lemma MulSucc(k: nat, m: nat)
    ensures (k + 1) * m == k * m + m
  {
  }

  lemma {:induction false} SumAtMostCountTimesMax(s: seq<nat>)
    requires s != []
    ensures Sum(s) <= |s| * Max(s)
  {
    if |s| > 1 {
      var init := s[..|s| - 1];
      var k, m := |init|, Max(s);
      SumAtMostCountTimesMax(init);
      assert Max(init) <= m by {
        assert Max(init) in init;
      }
      MulMonotone(k, Max(init), m);
      MulSucc(k, m);
      assert Sum(init) <= k * m;
      assert s[|s| - 1] <= m;
      assert Sum(s) == Sum(init) + s[|s| - 1];
    }
  }

  lemma DivideBound(a: real, n: real, m: real)
    requires n > 0.0 && a <= n * m
    ensures a / n <= m
  {
    var q := a / n;
    assert q * n == a;
    if q > m {
      assert q * n > m * n;
    }
  }

  /** The average reaction time, `sum / len`: never above the worst one. */
  function Mean(s: seq<nat>): (r: real)
    requires s != []
    ensures 0.0 <= r <= Max(s) as real
  {
    SumAtMostCountTimesMax(s);
    var n := |s| as real;
    DivideBound(Sum(s) as real, n, Max(s) as real);
    Sum(s) as real / n
  }

  /** The average is `sum(reaction_times) / len(reaction_times)`: times the count it gives the sum back. */
  lemma {:induction false} MeanTimesCount(s: seq<nat>)
    requires s != []
    ensures Mean(s) * |s| as real == Sum(s) as real
  {
  }

  /**
   * The report's accuracy, `(go + no-go) / total * 100`, and 0.0 when no trial was run.
   * It is a percentage, and 100 exactly when every trial was correct.
   */
  function AccuracyPercent(correct: nat, total: nat): (pct: real)
    ensures total == 0 ==> pct == 0.0
    ensures total > 0 ==> pct * total as real == 100.0 * correct as real
    ensures correct <= total ==> 0.0 <= pct <= 100.0
    ensures total > 0 ==> (pct == 100.0 <==> correct == total)
  {
    if total == 0 then 0.0
    else
      var ratio := correct as real / total as real;
      assert ratio * total as real == correct as real;
      ratio * 100.0
  }

  /** `summary_results` of gng_pvt.py's report (the spread only as "present or null"). */
  datatype Summary = Summary(
    totalTrialsConducted: nat,
    correctGoResponses: nat,
    correctNoGoResponses: nat,
    commissionErrors: nat,
    outliersCommissionTooFast: nat,
    outliersOmissionTooLate: nat,
    accuracyPercentage: real,
    averageReactionTimeMs: Option<real>,
    worstReactionTimeMs: Option<nat>,
    hasReactionTimeStdDev: bool)

  /** gng_pvt.py's summary: always produced; each RT statistic is null when it cannot be computed. */
  function Summarize(t: Tally, total: nat, rts: seq<nat>): (s: Summary)
    ensures t.Total() == total ==> 0.0 <= s.accuracyPercentage <= 100.0
    ensures total == 0 ==> s.accuracyPercentage == 0.0
    ensures total > 0 ==> (s.accuracyPercentage == 100.0 <==> t.correctGo + t.correctNoGo == total)
    ensures s.averageReactionTimeMs.None? <==> rts == []
    ensures s.worstReactionTimeMs.None? <==> rts == []
    ensures s.worstReactionTimeMs.Some? ==>
              s.worstReactionTimeMs.value in rts && forall i :: 0 <= i < |rts| ==> rts[i] <= s.worstReactionTimeMs.value
    ensures rts != [] ==> s.averageReactionTimeMs.value <= s.worstReactionTimeMs.value as real
    ensures s.hasReactionTimeStdDev <==> |rts| >= 2
    ensures s.outliersCommissionTooFast == t.commissionOutliers && s.outliersOmissionTooLate == t.omissionOutliers
  {
    Summary(
      total, t.correctGo, t.correctNoGo, t.commissionErrors, t.commissionOutliers, t.omissionOutliers,
      AccuracyPercent(t.correctGo + t.correctNoGo, total),
      if rts == [] then None else Some(Mean(rts)),
      if rts == [] then None else Some(Max(rts)),
      |rts| >= 2)
  }

  /**
   * The values in gng_pvt.py's summary: accuracy is `(go + no-go) / total * 100`, the average
   * is `sum / len`, and the counters and the total are copied as they are.
   */
  lemma {:induction false} SummaryValues(t: Tally, total: nat, rts: seq<nat>)
    ensures var s := Summarize(t, total, rts);
            && (total > 0 ==> s.accuracyPercentage * total as real == 100.0 * (t.correctGo + t.correctNoGo) as real)
            && (rts != [] ==> s.averageReactionTimeMs.value * |rts| as real == Sum(rts) as real)
            && s.totalTrialsConducted == total
            && s.correctGoResponses == t.correctGo && s.correctNoGoResponses == t.correctNoGo
            && s.commissionErrors == t.commissionErrors
  {
    if rts != [] {
      MeanTimesCount(rts);
    }
  }

  /** `statistics.stdev` raises on fewer than two data points. */
  datatype StatisticsError = StatisticsError

  predicate StdevRaises(rts: seq<nat>) {
    |rts| < 2
  }

  /** `summary_results` of GNG-PVT.py's report: commission and omission outliers merged. */
  datatype SartSummary = SartSummary(
    totalTrialsConducted: nat,
    correctGoResponses: nat,
    correctNoGoResponses: nat,
    commissionErrors: nat,
    outliers: nat,
    totalCorrectResponses: nat,
    accuracyPercentage: real,
    averageReactionTimeMs: Option<real>,
    worstReactionTimeMs: Option<nat>)

  /**
   * GNG-PVT.py's summary, as written: the spread is computed unconditionally, so a session
   * with fewer than two reaction times raises instead of producing a report.
   */
  function SartSummarize(t: Tally, total: nat, rts: seq<nat>): (r: Result<SartSummary, StatisticsError>)
    ensures r.Failure? <==> |rts| < 2
    ensures r.Success? ==> r.value.outliers == t.commissionOutliers + t.omissionOutliers
    ensures r.Success? ==> r.value.totalCorrectResponses == t.correctGo + t.correctNoGo
    ensures r.Success? && t.Total() == total ==> 0.0 <= r.value.accuracyPercentage <= 100.0
    ensures r.Success? && total == 0 ==> r.value.accuracyPercentage == 0.0
    ensures r.Success? && total > 0 ==>
              r.value.accuracyPercentage * total as real == 100.0 * (t.correctGo + t.correctNoGo) as real
    ensures r.Success? ==> r.value.averageReactionTimeMs.Some? && r.value.worstReactionTimeMs.Some?
    ensures r.Success? ==> r.value.averageReactionTimeMs.value <= r.value.worstReactionTimeMs.value as real
    ensures r.Success? ==> r.value.worstReactionTimeMs.value in rts
    ensures r.Success? ==> forall i :: 0 <= i < |rts| ==> rts[i] <= r.value.worstReactionTimeMs.value
  {
    var correct := t.correctGo + t.correctNoGo;
    var accuracy := AccuracyPercent(correct, total);
    var average := if rts == [] then None else Some(Mean(rts));
    var worst := if rts == [] then None else Some(Max(rts));
    if StdevRaises(rts) then Failure(StatisticsError)
    else
      Success(SartSummary(
        total, t.correctGo, t.correctNoGo, t.commissionErrors,
        t.commissionOutliers + t.omissionOutliers, correct, accuracy, average, worst))
  }

  /** The values in GNG-PVT.py's report, when there is one: the average is `sum / len` and the counters are copied. */
  lemma {:induction false} SartSummaryValues(t: Tally, total: nat, rts: seq<nat>)
    requires SartSummarize(t, total, rts).Success?
    ensures var s := SartSummarize(t, total, rts).value;
            && s.averageReactionTimeMs.value * |rts| as real == Sum(rts) as real
            && s.totalTrialsConducted == total
            && s.correctGoResponses == t.correctGo && s.correctNoGoResponses == t.correctNoGo
            && s.commissionErrors == t.commissionErrors
  {
    MeanTimesCount(rts);
  }

  /** A GNG-PVT.py session whose only trial timed out, or had a single press, yields no report. */
  lemma SartReportLostWithFewRts()
    ensures SartSummarize(Tally(0, 1, 0, 0, 0), 1, []).Failure?
    ensures SartSummarize(Tally(1, 0, 0, 0, 0), 1, [250]).Failure?
    ensures Summarize(Tally(1, 0, 0, 0, 0), 1, [250]).worstReactionTimeMs == Some(250)
  {
  }

  /**
   * The report of a session the engine has logged: a percentage that is 100 exactly when
   * every trial was marked correct, and a worst RT exactly when some trial had a press.
   */
  lemma ReportOfLoggedSession(d: SessionData, target: int, outlierMs: nat, minIsiMs: nat, maxIsiMs: nat)
    requires SessionLog(d, target, outlierMs, minIsiMs, maxIsiMs)
    ensures var s := Summarize(d.counters, d.total, d.reactionTimes);
            && 0.0 <= s.accuracyPercentage <= 100.0
            && (d.total > 0 ==> (s.accuracyPercentage == 100.0 <==> CountCorrect(d.trials) == d.total))
            && (s.worstReactionTimeMs.None? <==>
                  d.counters.correctGo + d.counters.commissionErrors + d.counters.commissionOutliers == 0)
  {
    SessionLogTotals(d, target, outlierMs, minIsiMs, maxIsiMs);
  }

  /** GNG-PVT.py loses the report of a logged session exactly when fewer than two trials had a press. */
  lemma SartReportLostIffFewPresses(d: SessionData, target: int, outlierMs: nat, minIsiMs: nat, maxIsiMs: nat)
    requires SessionLog(d, target, outlierMs, minIsiMs, maxIsiMs)
    ensures SartSummarize(d.counters, d.total, d.reactionTimes).Failure? <==>
              d.counters.correctGo + d.counters.commissionErrors + d.counters.commissionOutliers < 2
  {
    SessionLogTotals(d, target, outlierMs, minIsiMs, maxIsiMs);
  }

  /** Division by zero, as Python raises it. */
  datatype ArithmeticError = ZeroDivisionError

  /**
   * The accuracy gng_pvt.py's results screen shows, as written: correct no-go trials over
   * the configured number of target trials, which raises when no target trials are configured.
   */
  function ResultsScreenAccuracy(correctNoGo: nat, targetTrials: nat, total: nat): (r: Result<real, ArithmeticError>)
    ensures total == 0 ==> r == Success(0.0)
    ensures r.Failure? <==> total > 0 && targetTrials == 0
    ensures r.Success? && total > 0 ==> r.value * targetTrials as real == 100.0 * correctNoGo as real
    ensures r.Success? && correctNoGo <= targetTrials ==> 0.0 <= r.value <= 100.0
  {
    if total > 0 then
      if targetTrials == 0 then Failure(ZeroDivisionError)
      else Success(AccuracyPercent(correctNoGo, targetTrials))
    else Success(0.0)
  }

  /**
   * The screen and the report disagree on the same session (2 correct Go, 1 correct No-Go
   * out of 5 trials, 3 target trials configured), and the screen fails outright when no
   * target trials are configured.
   */
  lemma ScreenAccuracyDisagreesWithReport()
    ensures AccuracyPercent(2 + 1, 5) == 60.0
    ensures ResultsScreenAccuracy(1, 3, 5).Success?
    ensures ResultsScreenAccuracy(1, 3, 5).value != AccuracyPercent(2 + 1, 5)
    ensures ResultsScreenAccuracy(0, 0, 1).Failure?
  {
  }

  /** The mixed-performance session: 2 Go hits, 1 No-Go hit, 1 commission error, 1 omission. */
  lemma MixedPerformanceSummary()
    ensures var s := Summarize(Tally(2, 1, 1, 0, 1), 5, [180, 220]);
            s.accuracyPercentage == 60.0
            && s.averageReactionTimeMs == Some(200.0)
            && s.worstReactionTimeMs == Some(220)
            && s.hasReactionTimeStdDev
  {
    var rts: seq<nat> := [180, 220];
    assert rts[..1] == [180];
    assert Sum(rts) == 400;
    assert Max(rts) == 220;
  }
}
