/**
 * One Go/No-Go trial: how it is classified, the record kept for it (one entry of
 * `all_trial_data`), and the running per-outcome counters of a session. Both app
 * variants share these rules.
 */
module Trial {
  import opened Wrappers
  import opened DigitCounts

  /** The five mutually exclusive ways a trial ends. */
  datatype Outcome =
    | CorrectGo          // `correct_go_responses`: pressed on a non-target, not too fast
    | CorrectNoGo        // `correct_no_go_responses`: withheld on the target
    | CommissionError    // `commission_errors`: pressed on the target, not too fast
    | CommissionOutlier  // `commission_outliers`: pressed faster than the outlier threshold
    | OmissionOutlier    // `omission_outliers`: let the window expire on a non-target

  /** Outcomes recorded with `is_correct` 1. */
  predicate IsCorrect(o: Outcome) {
    o == CorrectGo || o == CorrectNoGo
  }

  /** Outcomes reached through the response button rather than the window expiring. */
  predicate IsPress(o: Outcome) {
    o == CorrectGo || o == CommissionError || o == CommissionOutlier
  }

  /**
   * What any classification of a trial must satisfy, stated without the order of the
   * checks: the outcome says whether there was a press; too-fast presses are outliers;
   * a trial is correct exactly when the participant pressed (in time) on a non-target
   * or withheld on the target; the target-specific outcomes agree with the stimulus.
   * `rtMs` is None when the response window expired.
   */
  predicate Admissible(o: Outcome, isTarget: bool, rtMs: Option<nat>, outlierMs: nat) {
    && (IsPress(o) <==> rtMs.Some?)
    && (o == CommissionOutlier <==> rtMs.Some? && rtMs.value < outlierMs)
    && (IsCorrect(o) <==> if isTarget then rtMs.None? else rtMs.Some? && rtMs.value >= outlierMs)
    && ((o == CorrectNoGo || o == CommissionError) ==> isTarget)
    && ((o == CorrectGo || o == OmissionOutlier) ==> !isTarget)
  }

  /**
   * The branches of `handle_response_button` (too fast first, then the target check)
   * and of `handle_timeout` (target or not).
   */
  function Classify(isTarget: bool, rtMs: Option<nat>, outlierMs: nat): (o: Outcome)
    ensures Admissible(o, isTarget, rtMs, outlierMs)
  {
    match rtMs
    case Some(rt) =>
      if rt < outlierMs then CommissionOutlier
      else if isTarget then CommissionError
      else CorrectGo
    case None =>
      if isTarget then CorrectNoGo else OmissionOutlier
  }

  /** Every trial ends in exactly one outcome: no other outcome is admissible. */
  lemma ClassificationIsUnique(o: Outcome, isTarget: bool, rtMs: Option<nat>, outlierMs: nat)
    ensures Admissible(o, isTarget, rtMs, outlierMs) <==> o == Classify(isTarget, rtMs, outlierMs)
  {
    if Admissible(o, isTarget, rtMs, outlierMs) {
      match rtMs
      case Some(rt) =>
        assert IsPress(o);
        if rt >= outlierMs && isTarget {
          assert !IsCorrect(o) && o != CommissionOutlier;
        }
      case None =>
        assert !IsPress(o);
    }
  }

  /** A too-fast press on the target digit is an outlier, never a commission error. */
  lemma TooFastBeatsTarget(rtMs: nat, outlierMs: nat)
    requires rtMs < outlierMs
    ensures Classify(true, Some(rtMs), outlierMs) == CommissionOutlier
  {
  }

  /** One entry of `all_trial_data`. `isTarget`/`isCorrect` are the JSON's 0/1 flags. */
  datatype TrialRecord = TrialRecord(
    trialNumber: nat,
    preStimulusIntervalMs: Option<nat>,
    stimulus: int,
    isTarget: bool,
    isCorrect: bool,
    reactionTimeMs: Option<nat>)

  /** The outcome a record stands for (the record keeps no outcome field of its own). */
  function OutcomeOf(r: TrialRecord, outlierMs: nat): Outcome {
    Classify(r.isTarget, r.reactionTimeMs, outlierMs)
  }

  /** The record of the `number`-th trial of a session run with these settings. */
  predicate WellFormedRecord(r: TrialRecord, number: nat, target: int, outlierMs: nat, minIsiMs: nat, maxIsiMs: nat) {
    && r.trialNumber == number
    && IsDigit(r.stimulus)
    && r.isTarget == (r.stimulus == target)
    && r.isCorrect == IsCorrect(OutcomeOf(r, outlierMs))
    && (r.preStimulusIntervalMs.Some? ==> minIsiMs <= r.preStimulusIntervalMs.value <= maxIsiMs)
  }

  /** Records are numbered 1, 2, ... in presentation order and each is well formed. */
  predicate WellFormedLog(trials: seq<TrialRecord>, target: int, outlierMs: nat, minIsiMs: nat, maxIsiMs: nat) {
    trials == [] ||
    (&& WellFormedLog(trials[..|trials| - 1], target, outlierMs, minIsiMs, maxIsiMs)
     && WellFormedRecord(trials[|trials| - 1], |trials|, target, outlierMs, minIsiMs, maxIsiMs))
  }

  /** The log is well formed exactly when its i-th record (from 0) is the well-formed record number i + 1. */
  lemma {:induction false} WellFormedLogIndexed(trials: seq<TrialRecord>, target: int, outlierMs: nat, minIsiMs: nat, maxIsiMs: nat)
    ensures WellFormedLog(trials, target, outlierMs, minIsiMs, maxIsiMs)
            <==> forall i :: 0 <= i < |trials| ==> WellFormedRecord(trials[i], i + 1, target, outlierMs, minIsiMs, maxIsiMs)
  {
    if trials != [] {
      var init := trials[..|trials| - 1];
      WellFormedLogIndexed(init, target, outlierMs, minIsiMs, maxIsiMs);
      assert forall i :: 0 <= i < |init| ==> init[i] == trials[i];
    }
  }

  /** The number of records whose outcome is o. */
  function CountOutcome(trials: seq<TrialRecord>, o: Outcome, outlierMs: nat): nat {
    if trials == [] then 0
    else CountOutcome(trials[..|trials| - 1], o, outlierMs)
         + (if OutcomeOf(trials[|trials| - 1], outlierMs) == o then 1 else 0)
  }

  /** The reaction-time series: the RT of every record that has one, in order. */
  function RtsOf(trials: seq<TrialRecord>): seq<nat> {
    if trials == [] then []
    else RtsOf(trials[..|trials| - 1]) + RtEntry(trials[|trials| - 1])
  }

  /** The five outcome counters of a session. */
  datatype Tally = Tally(
    correctGo: nat,
    correctNoGo: nat,
    commissionErrors: nat,
    commissionOutliers: nat,
    omissionOutliers: nat)
  {
    function Count(o: Outcome): nat {
      match o
      case CorrectGo => correctGo
      case CorrectNoGo => correctNoGo
      case CommissionError => commissionErrors
      case CommissionOutlier => commissionOutliers
      case OmissionOutlier => omissionOutliers
    }

    function Total(): nat {
      correctGo + correctNoGo + commissionErrors + commissionOutliers + omissionOutliers
    }

    /** `self.<counter of o> += 1` */
    function Bump(o: Outcome): (t: Tally)
      ensures forall o' :: t.Count(o') == Count(o') + (if o' == o then 1 else 0)
      ensures t.Total() == Total() + 1
    {
      match o
      case CorrectGo => this.(correctGo := correctGo + 1)
      case CorrectNoGo => this.(correctNoGo := correctNoGo + 1)
      case CommissionError => this.(commissionErrors := commissionErrors + 1)
      case CommissionOutlier => this.(commissionOutliers := commissionOutliers + 1)
      case OmissionOutlier => this.(omissionOutliers := omissionOutliers + 1)
    }
  }

  /** The counters a log of records implies: the session's bumps, replayed in order. */
  function TallyOf(trials: seq<TrialRecord>, outlierMs: nat): Tally {
    if trials == [] then Tally(0, 0, 0, 0, 0)
    else TallyOf(trials[..|trials| - 1], outlierMs).Bump(OutcomeOf(trials[|trials| - 1], outlierMs))
  }

  /** Each counter is the number of records with its outcome. */
  lemma {:induction false} TallyCountsOutcomes(trials: seq<TrialRecord>, outlierMs: nat)
    ensures forall o :: TallyOf(trials, outlierMs).Count(o) == CountOutcome(trials, o, outlierMs)
  {
    if trials != [] {
      TallyCountsOutcomes(trials[..|trials| - 1], outlierMs);
    }
  }

  /** Appending one record bumps exactly the counter of its outcome and extends the RT series iff it has an RT. */
  lemma LogAppend(trials: seq<TrialRecord>, r: TrialRecord, outlierMs: nat)
    ensures TallyOf(trials + [r], outlierMs) == TallyOf(trials, outlierMs).Bump(OutcomeOf(r, outlierMs))
    ensures RtsOf(trials + [r]) == RtsOf(trials) + RtEntry(r)
  {
    assert (trials + [r])[..|trials|] == trials;
  }

  /** The five counters partition the trials: they sum to the number of records. */
  lemma {:induction false} TallyCoversEveryTrial(trials: seq<TrialRecord>, outlierMs: nat)
    ensures TallyOf(trials, outlierMs).Total() == |trials|
  {
    if trials != [] {
      TallyCoversEveryTrial(trials[..|trials| - 1], outlierMs);
    }
  }

  /** A reaction time is recorded exactly for the trials that ended with a press. */
  lemma {:induction false} RtRecordedIffPressed(trials: seq<TrialRecord>, outlierMs: nat)
    ensures var t := TallyOf(trials, outlierMs);
            |RtsOf(trials)| == t.correctGo + t.commissionErrors + t.commissionOutliers
  {
    if trials != [] {
      RtRecordedIffPressed(trials[..|trials| - 1], outlierMs);
    }
  }

  /** The number of records flagged correct. */
  function CountCorrect(trials: seq<TrialRecord>): nat {
    if trials == [] then 0
    else CountCorrect(trials[..|trials| - 1]) + (if trials[|trials| - 1].isCorrect then 1 else 0)
  }

  /** The counters count correct trials: go + no-go is the number of records flagged correct. */
  lemma {:induction false} CorrectFlagsMatchCounters(trials: seq<TrialRecord>, target: int, outlierMs: nat, minIsiMs: nat, maxIsiMs: nat)
    requires WellFormedLog(trials, target, outlierMs, minIsiMs, maxIsiMs)
    ensures CountCorrect(trials) == TallyOf(trials, outlierMs).correctGo + TallyOf(trials, outlierMs).correctNoGo
  {
    if trials != [] {
      CorrectFlagsMatchCounters(trials[..|trials| - 1], target, outlierMs, minIsiMs, maxIsiMs);
    }
  }

  /**
   * The session's bookkeeping attributes, which `save_data_to_json` reads: the trial log
   * (`all_trial_data`), the five counters, `total_trials_conducted` and `reaction_times`.
   */
  datatype SessionData = SessionData(trials: seq<TrialRecord>, counters: Tally, total: nat, reactionTimes: seq<nat>)

  /** The bookkeeping of a session that has not run a trial yet. */
  const EmptySession := SessionData([], Tally(0, 0, 0, 0, 0), 0, [])

  /** The bookkeeping invariant: the total, the counters and the RT series are what the log implies. */
  ghost predicate SessionLog(d: SessionData, target: int, outlierMs: nat, minIsiMs: nat, maxIsiMs: nat) {
    && d.total == |d.trials|
    && WellFormedLog(d.trials, target, outlierMs, minIsiMs, maxIsiMs)
    && d.counters == TallyOf(d.trials, outlierMs)
    && d.reactionTimes == RtsOf(d.trials)
  }

  /** The RT series entry a record contributes: its RT, if it has one. */
  function RtEntry(r: TrialRecord): seq<nat> {
    if r.reactionTimeMs.Some? then [r.reactionTimeMs.value] else []
  }

  /**
   * Finalising a trial: append its record, add one to the total, bump the counter of its
   * outcome and append its RT, if it has one.
   */
  function Finalize(d: SessionData, r: TrialRecord, outlierMs: nat): SessionData {
    SessionData(d.trials + [r], d.counters.Bump(OutcomeOf(r, outlierMs)), d.total + 1, d.reactionTimes + RtEntry(r))
  }

  /** Finalising the next trial keeps the bookkeeping invariant. */
  lemma SessionLogAppend(d: SessionData, r: TrialRecord, target: int, outlierMs: nat, minIsiMs: nat, maxIsiMs: nat)
    requires SessionLog(d, target, outlierMs, minIsiMs, maxIsiMs)
    requires WellFormedRecord(r, d.total + 1, target, outlierMs, minIsiMs, maxIsiMs)
    ensures SessionLog(Finalize(d, r, outlierMs), target, outlierMs, minIsiMs, maxIsiMs)
  {
    LogAppend(d.trials, r, outlierMs);
    assert (d.trials + [r])[..|d.trials|] == d.trials;
  }

  /** What the bookkeeping implies: the counters partition the trials, RTs match presses, flags match counters. */
  lemma SessionLogTotals(d: SessionData, target: int, outlierMs: nat, minIsiMs: nat, maxIsiMs: nat)
    requires SessionLog(d, target, outlierMs, minIsiMs, maxIsiMs)
    ensures d.counters.Total() == d.total
    ensures |d.reactionTimes| == d.counters.correctGo + d.counters.commissionErrors + d.counters.commissionOutliers
    ensures CountCorrect(d.trials) == d.counters.correctGo + d.counters.correctNoGo
  {
    TallyCoversEveryTrial(d.trials, outlierMs);
    RtRecordedIffPressed(d.trials, outlierMs);
    CorrectFlagsMatchCounters(d.trials, target, outlierMs, minIsiMs, maxIsiMs);
  }
}
