/**
 * GNG-PVT.py's `SARTApp` trial engine. It differs from `PVTApp` in four places: the
 * sequence holds `max_trials / 9` targets and is reshuffled until no two targets are
 * adjacent (up to 1000 attempts, then `RuntimeError`); `run_next_trial` also stops once the
 * digit counts add up to `max_trials`; `clear_feedback_and_proceed` stops early only when
 * every digit was shown at least `max_trials / 9` times and the counts add up to
 * `max_trials`; and neither `end_test` nor `clear_current_frame` clears a timer handle
 * (they only cancel the callbacks). Tk's timers are stood for by the stored handles; the
 * clock and the random module by parameters (`rtMs`, `isiMs`, `picks`, `draws`).
 */
module SartEngine {
  import opened Wrappers
  import opened DigitCounts
  import opened Trial
  import opened StimulusSequence

  class SartApp {
    // Settings. The interval bounds are `min_interval_s * 1000` and `max_interval_s * 1000` in ms.
    const targetNumber: int
    const maxTrials: nat
    const minIntervalMs: nat
    const maxIntervalMs: nat
    const responseLimitMs: nat
    const responseOutlierMs: nat
    const feedbackDurationMs: nat

    var sequence: seq<int>
    var currentStimulus: int
    var previousStimulus: int
    var numberCounts: map<int, nat>
    // `total_trials_conducted`, the five counters, `reaction_times` and `all_trial_data`.
    var session: SessionData
    var currentIsiMs: Option<nat>

    // Timer handles: Some(delay) while the id of `root.after(delay, ...)` is stored, None once cleared.
    var intervalTimer: Option<nat>
    var reactionWindowTimer: Option<nat>
    var feedbackClearTimer: Option<nat>

    var testInProgress: bool
    var stimulusOnScreen: bool
    var acceptingResponse: bool

    // What each `end_test` has handed to `save_data_to_json`, oldest first.
    var reports: seq<SessionData>

    /**
     * The engine's invariant: settings are sane, every stimulus is a digit, and the counters,
     * the trial total and the RT series are exactly what the trial log implies.
     */
    ghost predicate Valid()
      reads this`sequence, this`numberCounts, this`acceptingResponse, this`currentStimulus, this`currentIsiMs, this`session
    {
      && IsDigit(targetNumber)
      && minIntervalMs <= maxIntervalMs
      && SequenceOk()
      && CountsOk()
      && StimulusOk()
      && IsiOk()
      && SessionOk()
    }

    ghost predicate SequenceOk()
      reads this`sequence
    {
      forall i :: 0 <= i < |sequence| ==> IsDigit(sequence[i])
    }

    ghost predicate CountsOk()
      reads this`numberCounts
    {
      WellFormedCounts(numberCounts)
    }

    ghost predicate StimulusOk()
      reads this`acceptingResponse, this`currentStimulus
    {
      acceptingResponse ==> IsDigit(currentStimulus)
    }

    ghost predicate IsiOk()
      reads this`currentIsiMs
    {
      currentIsiMs.Some? ==> minIntervalMs <= currentIsiMs.value <= maxIntervalMs
    }

    ghost predicate SessionOk()
      reads this`session
    {
      SessionLog(session, targetNumber, responseOutlierMs, minIntervalMs, maxIntervalMs)
    }

    /** `int(max_trials / 9.0)`: the number of targets in the sequence. */
    function TargetCount(): nat {
      maxTrials / 9
    }

    /** Both handlers act only in this state. */
    predicate Armed()
      reads this`testInProgress, this`stimulusOnScreen, this`acceptingResponse
    {
      testInProgress && stimulusOnScreen && acceptingResponse
    }

    /** `run_next_trial`'s stopping rule: `max_trials` trials conducted or digits shown. */
    predicate Exhausted()
      reads this`session, this`numberCounts
      requires CountsOk()
    {
      session.total >= maxTrials || SumCounts(numberCounts) >= maxTrials
    }

    /** `clear_feedback_and_proceed`'s early stop: every digit shown often enough and `max_trials` shown. */
    ghost predicate StopsEarly()
      reads this`numberCounts
      requires CountsOk()
    {
      ShownEnough(numberCounts, maxTrials) && SumCounts(numberCounts) >= maxTrials
    }

    /** What `end_test` leaves behind when it runs past its re-entry guard: the handles stay stored. */
    ghost predicate Ended(before: seq<SessionData>, data: SessionData)
      reads this`testInProgress, this`reports
    {
      !testInProgress && reports == before + [data]
    }

    /** What `run_next_trial` leaves behind when it schedules the next stimulus. */
    ghost predicate Scheduled(isiMs: nat)
      reads this`testInProgress, this`stimulusOnScreen, this`acceptingResponse, this`currentIsiMs, this`intervalTimer
    {
      testInProgress && !stimulusOnScreen && !acceptingResponse
      && currentIsiMs == Some(isiMs) && intervalTimer == Some(isiMs)
    }

    /** `end_test` called from inside another method, measured from that method's pre-state. */
    twostate predicate EndTestDone()
      reads this`testInProgress, this`session, this`reports
    {
      if old(!testInProgress && session.total > 0) then
        testInProgress == old(testInProgress) && reports == old(reports)
      else
        Ended(old(reports), old(session))
    }

    /** The record of the trial now on screen, finalised as correct or not, with or without an RT. */
    function CurrentRecord(isCorrect: bool, rtMs: Option<nat>): TrialRecord
      reads this`session, this`currentIsiMs, this`currentStimulus
    {
      TrialRecord(session.total + 1, currentIsiMs, currentStimulus, currentStimulus == targetNumber, isCorrect, rtMs)
    }

    /** `__init__` without the window: the settings and a freshly reset session. */
    constructor(target: int, maxTrials: nat, minIntervalMs: nat, maxIntervalMs: nat,
                responseLimitMs: nat, responseOutlierMs: nat, feedbackDurationMs: nat)
      requires IsDigit(target) && minIntervalMs <= maxIntervalMs
      ensures Valid()
      ensures this.targetNumber == target && this.maxTrials == maxTrials
      ensures this.minIntervalMs == minIntervalMs && this.maxIntervalMs == maxIntervalMs
      ensures this.responseLimitMs == responseLimitMs && this.responseOutlierMs == responseOutlierMs
      ensures this.feedbackDurationMs == feedbackDurationMs
      ensures sequence == [] && session == EmptySession && numberCounts == ZeroCounts() && reports == []
      ensures !testInProgress && !stimulusOnScreen && !acceptingResponse
      ensures intervalTimer.None? && reactionWindowTimer.None? && feedbackClearTimer.None?
    {
      this.targetNumber := target;
      this.maxTrials := maxTrials;
      this.minIntervalMs := minIntervalMs;
      this.maxIntervalMs := maxIntervalMs;
      this.responseLimitMs := responseLimitMs;
      this.responseOutlierMs := responseOutlierMs;
      this.feedbackDurationMs := feedbackDurationMs;
      sequence := [];
      currentStimulus := 0;
      previousStimulus := 0;
      numberCounts := ZeroCounts();
      session := EmptySession;
      currentIsiMs := None;
      intervalTimer := None;
      reactionWindowTimer := None;
      feedbackClearTimer := None;
      testInProgress := false;
      stimulusOnScreen := false;
      acceptingResponse := false;
      reports := [];
    }

    /**
     * `generate_sequence`: `max_trials / 9` copies of the target plus one picked non-target
     * digit per remaining trial, reshuffled (each attempt shuffles the previous attempt's
     * order) until no two targets are adjacent. The first accepted attempt becomes the
     * sequence; when all 1000 attempts fail the error is returned and the sequence is kept.
     */
    method GenerateSequence(picks: seq<int>, draws: seq<seq<nat>>) returns (err: Option<SequenceError>)
      requires Valid()
      requires |picks| == Remaining(TargetCount(), maxTrials) && ValidPicks(picks, targetNumber)
      requires ValidAttemptDraws(draws, TargetCount() + |picks|)
      modifies this`sequence
      ensures Valid()
      ensures var pool := Pool(targetNumber, TargetCount(), picks);
              err.None? <==> exists a :: 0 <= a < MaxShuffleAttempts && Accepted(pool, draws, targetNumber, a)
      ensures var pool := Pool(targetNumber, TargetCount(), picks);
              err.None? ==> exists a :: FirstAccepted(pool, draws, targetNumber, a) && sequence == Attempt(pool, draws, a)
      ensures err.Some? ==> sequence == old(sequence)
    {
      var pool := Repeat(targetNumber, TargetCount()) + picks;
      var shuffled := ShuffleUntilSeparated(pool, draws, targetNumber);
      if shuffled.None? {
        return Some(SequenceConstructionError);
      }
      PermutationComposition(shuffled.value, targetNumber, TargetCount(), picks);
      sequence := shuffled.value;
      return None;
    }

    /** `reset_test_variables`: a new, empty session; the sequence and the timers are kept. */
    method ResetTestVariables()
      requires Valid()
      modifies this`currentStimulus, this`previousStimulus, this`numberCounts, this`session,
               this`currentIsiMs, this`testInProgress, this`stimulusOnScreen, this`acceptingResponse
      ensures Valid()
      ensures currentStimulus == 0 && previousStimulus == 0 && numberCounts == ZeroCounts()
      ensures session == EmptySession && currentIsiMs.None?
      ensures !testInProgress && !stimulusOnScreen && !acceptingResponse
    {
      currentStimulus := 0;
      previousStimulus := 0;
      numberCounts := ZeroCounts();
      session := EmptySession;
      currentIsiMs := None;
      testInProgress := false;
      stimulusOnScreen := false;
      acceptingResponse := false;
    }

    /** `start_test`: mark the session running and run the first trial; the timer handles stay stored. */
    method StartTest(isiMs: nat)
      requires Valid() && minIntervalMs <= isiMs <= maxIntervalMs
      modifies this`testInProgress, this`intervalTimer, this`reports, this`stimulusOnScreen,
               this`acceptingResponse, this`currentIsiMs
      ensures Valid()
      ensures Exhausted() ==>
                Ended(old(reports), session) && intervalTimer == old(intervalTimer)
                && stimulusOnScreen == old(stimulusOnScreen) && acceptingResponse == old(acceptingResponse)
                && currentIsiMs == old(currentIsiMs)
      ensures !Exhausted() ==> Scheduled(isiMs) && reports == old(reports)
    {
      testInProgress := true;
      RunNextTrial(isiMs);
    }

    /**
     * `run_next_trial`: nothing unless running; the session ends once `max_trials` trials were
     * conducted or the digit counts add up to `max_trials`; otherwise the stimulus is cleared
     * and the next one scheduled `isiMs` ahead.
     */
    method RunNextTrial(isiMs: nat)
      requires Valid() && minIntervalMs <= isiMs <= maxIntervalMs
      modifies this`testInProgress, this`intervalTimer, this`reports, this`stimulusOnScreen,
               this`acceptingResponse, this`currentIsiMs
      ensures Valid()
      ensures !old(testInProgress) ==> unchanged(this)
      ensures old(testInProgress) && Exhausted() ==>
                Ended(old(reports), session) && intervalTimer == old(intervalTimer)
                && stimulusOnScreen == old(stimulusOnScreen) && acceptingResponse == old(acceptingResponse)
                && currentIsiMs == old(currentIsiMs)
      ensures old(testInProgress) && !Exhausted() ==> Scheduled(isiMs) && reports == old(reports)
    {
      if !testInProgress {
        return;
      }
      if session.total >= maxTrials || SumCounts(numberCounts) >= maxTrials {
        EndTest();
        return;
      }
      stimulusOnScreen := false;
      acceptingResponse := false;
      currentIsiMs := Some(isiMs);
      intervalTimer := Some(isiMs);
    }

    /** `select_stimulus`: pop the last element of the sequence, or None when it is empty. */
    method SelectStimulus() returns (s: Option<int>)
      requires Valid()
      modifies this`sequence
      ensures Valid()
      ensures s.None? <==> old(sequence) == []
      ensures s.None? ==> sequence == old(sequence)
      ensures s.Some? ==> old(sequence) == sequence + [s.value] && IsDigit(s.value)
    {
      if |sequence| == 0 {
        return None;
      }
      s := Some(sequence[|sequence| - 1]);
      sequence := sequence[..|sequence| - 1];
    }

    /**
     * `display_stimulus`: nothing unless running; ends the session when the sequence is
     * exhausted; otherwise shows the popped digit, arms both flags, counts the digit and
     * opens the response window.
     */
    method DisplayStimulus()
      requires Valid()
      modifies this`sequence, this`currentStimulus, this`previousStimulus, this`stimulusOnScreen,
               this`acceptingResponse, this`numberCounts, this`reactionWindowTimer,
               this`testInProgress, this`reports
      ensures Valid()
      ensures !old(testInProgress) ==> unchanged(this)
      ensures old(testInProgress) && old(sequence) == [] ==>
                Ended(old(reports), session)
                && sequence == old(sequence) && numberCounts == old(numberCounts)
                && currentStimulus == old(currentStimulus) && previousStimulus == old(previousStimulus)
                && stimulusOnScreen == old(stimulusOnScreen) && acceptingResponse == old(acceptingResponse)
                && reactionWindowTimer == old(reactionWindowTimer)
      ensures old(testInProgress) && old(sequence) != [] ==>
                && old(sequence) == sequence + [currentStimulus]
                && previousStimulus == currentStimulus
                && Armed()
                && numberCounts == Bump(old(numberCounts), currentStimulus)
                && reactionWindowTimer == Some(responseLimitMs)
                && reports == old(reports)
    {
      if !testInProgress {
        return;
      }
      var next := SelectStimulus();
      if next.None? {
        EndTest();
        return;
      }
      Present(next.value);
    }

    /** The rest of `display_stimulus` once a digit was popped: show it, arm, count it, open the window. */
    method Present(s: int)
      requires Valid() && IsDigit(s)
      modifies this`currentStimulus, this`stimulusOnScreen, this`acceptingResponse, this`numberCounts,
               this`previousStimulus, this`reactionWindowTimer
      ensures Valid()
      ensures currentStimulus == s && previousStimulus == s && stimulusOnScreen && acceptingResponse
      ensures numberCounts == Bump(old(numberCounts), s) && reactionWindowTimer == Some(responseLimitMs)
    {
      currentStimulus := s;
      stimulusOnScreen := true;
      acceptingResponse := true;
      numberCounts := Bump(numberCounts, currentStimulus);
      previousStimulus := currentStimulus;
      reactionWindowTimer := Some(responseLimitMs);
    }

    /** The first steps of both handlers: the window timer is dropped and the stimulus disarmed. */
    method CloseResponseWindow()
      modifies this`reactionWindowTimer, this`acceptingResponse, this`stimulusOnScreen
      ensures reactionWindowTimer.None? && !acceptingResponse && !stimulusOnScreen
    {
      reactionWindowTimer := None;
      acceptingResponse := false;
      stimulusOnScreen := false;
    }

    /**
     * `handle_response_button` after `rtMs` milliseconds: ignored unless armed; otherwise it
     * cancels the window timer, disarms, classifies the press (too fast first, then the
     * target check) and finalises the trial with its RT, then schedules the feedback pause.
     * Afterwards the engine is never armed, so a second press or a late timeout changes nothing.
     */
    method HandleResponseButton(rtMs: nat)
      requires Valid()
      modifies this`reactionWindowTimer, this`acceptingResponse, this`stimulusOnScreen, this`session,
               this`feedbackClearTimer
      ensures Valid()
      ensures !Armed()
      ensures !old(Armed()) ==> unchanged(this)
      ensures old(Armed()) ==>
                && !acceptingResponse && !stimulusOnScreen
                && reactionWindowTimer.None? && feedbackClearTimer == Some(feedbackDurationMs)
                && var o := Classify(currentStimulus == targetNumber, Some(rtMs), responseOutlierMs);
                   session == Finalize(old(session), old(CurrentRecord(IsCorrect(o), Some(rtMs))), responseOutlierMs)
    {
      if !testInProgress || !stimulusOnScreen || !acceptingResponse {
        return;
      }
      CloseResponseWindow();
      var outcome;
      if rtMs < responseOutlierMs {
        outcome := CommissionOutlier;
      } else if currentStimulus == targetNumber {
        outcome := CommissionError;
      } else {
        outcome := CorrectGo;
      }
      var record := CurrentRecord(IsCorrect(outcome), Some(rtMs));
      SessionLogAppend(session, record, targetNumber, responseOutlierMs, minIntervalMs, maxIntervalMs);
      session := Finalize(session, record, responseOutlierMs);
      feedbackClearTimer := Some(feedbackDurationMs);
    }

    /**
     * `handle_timeout`: ignored unless armed; otherwise the window expired without a press:
     * a target is a correct No-Go, a non-target an omission; the trial is finalised without an RT.
     */
    method HandleTimeout()
      requires Valid()
      modifies this`reactionWindowTimer, this`acceptingResponse, this`stimulusOnScreen, this`session,
               this`feedbackClearTimer
      ensures Valid()
      ensures !Armed()
      ensures !old(Armed()) ==> unchanged(this)
      ensures old(Armed()) ==>
                && !acceptingResponse && !stimulusOnScreen
                && reactionWindowTimer.None? && feedbackClearTimer == Some(feedbackDurationMs)
                && var o := Classify(currentStimulus == targetNumber, None, responseOutlierMs);
                   session == Finalize(old(session), old(CurrentRecord(IsCorrect(o), None)), responseOutlierMs)
    {
      if !testInProgress || !stimulusOnScreen || !acceptingResponse {
        return;
      }
      CloseResponseWindow();
      var outcome;
      if currentStimulus == targetNumber {
        outcome := CorrectNoGo;
      } else {
        outcome := OmissionOutlier;
      }
      var record := CurrentRecord(IsCorrect(outcome), None);
      SessionLogAppend(session, record, targetNumber, responseOutlierMs, minIntervalMs, maxIntervalMs);
      session := Finalize(session, record, responseOutlierMs);
      feedbackClearTimer := Some(feedbackDurationMs);
    }

    /**
     * `clear_feedback_and_proceed`: drops the feedback timer; with `max_trials` trials conducted
     * the session ends; otherwise it ends early only when every digit was shown at least
     * `max_trials / 9.0` times and the counts add up to `max_trials`, and runs the next trial
     * in every other case.
     */
    method ClearFeedbackAndProceed(isiMs: nat)
      requires Valid() && minIntervalMs <= isiMs <= maxIntervalMs
      modifies this`feedbackClearTimer, this`testInProgress, this`intervalTimer, this`reports,
               this`stimulusOnScreen, this`acceptingResponse, this`currentIsiMs
      ensures Valid()
      ensures feedbackClearTimer.None?
      ensures session.total >= maxTrials || StopsEarly() ==>
                EndTestDone() && intervalTimer == old(intervalTimer)
                && stimulusOnScreen == old(stimulusOnScreen) && acceptingResponse == old(acceptingResponse)
                && currentIsiMs == old(currentIsiMs)
      ensures session.total < maxTrials && !StopsEarly() && old(testInProgress) ==>
                if SumCounts(numberCounts) >= maxTrials then
                  Ended(old(reports), session) && intervalTimer == old(intervalTimer)
                  && stimulusOnScreen == old(stimulusOnScreen) && acceptingResponse == old(acceptingResponse)
                  && currentIsiMs == old(currentIsiMs)
                else
                  Scheduled(isiMs) && reports == old(reports)
      ensures session.total < maxTrials && !StopsEarly() && !old(testInProgress) ==>
                && !testInProgress && reports == old(reports) && intervalTimer == old(intervalTimer)
                && stimulusOnScreen == old(stimulusOnScreen) && acceptingResponse == old(acceptingResponse)
                && currentIsiMs == old(currentIsiMs)
    {
      feedbackClearTimer := None;
      var stop := session.total >= maxTrials;
      if !stop {
        var allShown := AllDigitsShownEnough(numberCounts, maxTrials);
        stop := allShown && SumCounts(numberCounts) >= maxTrials;
      }
      if stop {
        EndTest();
      } else {
        RunNextTrial(isiMs);
      }
    }

    /**
     * `end_test` and its re-entry guard: a session that has stopped after at least one trial
     * is left alone; otherwise it stops, the pending callbacks are cancelled (the handles are
     * not cleared) and the session's bookkeeping is handed to `save_data_to_json`.
     */
    method EndTest()
      requires Valid()
      modifies this`testInProgress, this`reports
      ensures Valid()
      ensures EndTestDone()
      ensures old(!testInProgress && session.total > 0) ==> unchanged(this)
      ensures old(testInProgress || session.total == 0) ==> Ended(old(reports), session)
    {
      if !testInProgress && session.total > 0 {
        return;
      }
      testInProgress := false;
      reports := reports + [session];
    }
  }

  /**
   * What an accepted attempt of `generate_sequence` yields: `max_trials` digits, exactly
   * `max_trials / 9` of them the target, and never two targets side by side.
   */
  lemma AcceptedSequenceComposition(target: int, maxTrials: nat, picks: seq<int>, draws: seq<seq<nat>>, a: nat)
    requires IsDigit(target)
    requires |picks| == Remaining(maxTrials / 9, maxTrials) && ValidPicks(picks, target)
    requires ValidAttemptDraws(draws, maxTrials / 9 + |picks|) && a < |draws|
    requires Accepted(Pool(target, maxTrials / 9, picks), draws, target, a)
    ensures var s := Attempt(Pool(target, maxTrials / 9, picks), draws, a);
            && |s| == maxTrials
            && multiset(s)[target] == maxTrials / 9
            && (forall i :: 0 <= i < |s| ==> IsDigit(s[i]))
            && NoAdjacentTargets(s, target)
  {
    var pool := Pool(target, maxTrials / 9, picks);
    AttemptPermutes(pool, draws, a);
    PermutationComposition(Attempt(pool, draws, a), target, maxTrials / 9, picks);
  }
}
