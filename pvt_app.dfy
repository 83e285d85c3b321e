/**
 * gng_pvt.py's `PVTApp` trial engine: a sequence shuffled once (no adjacency check), a
 * stimulus popped from its tail per trial, a response or a window expiry finalising the
 * trial, and a feedback pause after which the engine schedules the next trial or ends.
 * Tk's timers are stood for by the stored handles; the clock and the random module by
 * parameters (`rtMs`, `isiMs`, `picks`, `draws`).
 */
module PvtEngine {
  import opened Wrappers
  import opened DigitCounts
  import opened Trial
  import opened StimulusSequence

  class PvtApp {
    // Settings. The interval bounds are `int(min_interval_s * 1000)` and `int(max_interval_s * 1000)`.
    const targetNumber: int
    const targetTrials: nat
    const maxTrials: nat
    const minIntervalMs: nat
    const maxIntervalMs: nat
    const responseLimitMs: nat
    const responseOutlierMs: nat
    const feedbackDurationMs: nat

    var sequence: seq<int>
    var currentStimulus: int
    var previousStimulus: int
    var numberCounts: map<int, nat>
    // `total_trials_conducted`, the five counters, `reaction_times` and `all_trial_data`.
    var session: SessionData
    var currentIsiMs: Option<nat>

    // Timer handles: Some(delay) while the id of `root.after(delay, ...)` is stored, None once cleared.
    var intervalTimer: Option<nat>
    var reactionWindowTimer: Option<nat>
    var feedbackClearTimer: Option<nat>

    var testInProgress: bool
    var stimulusOnScreen: bool
    var acceptingResponse: bool

    // What each `end_test` has handed to `save_data_to_json`, oldest first.
    var reports: seq<SessionData>

    /**
     * The engine's invariant: settings are sane, every stimulus is a digit, and the counters,
     * the trial total and the RT series are exactly what the trial log implies.
     */
    ghost predicate Valid()
      reads this`sequence, this`numberCounts, this`acceptingResponse, this`currentStimulus, this`currentIsiMs, this`session
    {
      && IsDigit(targetNumber)
      && minIntervalMs <= maxIntervalMs
      && SequenceOk()
      && CountsOk()
      && StimulusOk()
      && IsiOk()
      && SessionOk()
    }

    ghost predicate SequenceOk()
      reads this`sequence
    {
      forall i :: 0 <= i < |sequence| ==> IsDigit(sequence[i])
    }

    ghost predicate CountsOk()
      reads this`numberCounts
    {
      WellFormedCounts(numberCounts)
    }

    ghost predicate StimulusOk()
      reads this`acceptingResponse, this`currentStimulus
    {
      acceptingResponse ==> IsDigit(currentStimulus)
    }

    ghost predicate IsiOk()
      reads this`currentIsiMs
    {
      currentIsiMs.Some? ==> minIntervalMs <= currentIsiMs.value <= maxIntervalMs
    }

    ghost predicate SessionOk()
      reads this`session
    {
      SessionLog(session, targetNumber, responseOutlierMs, minIntervalMs, maxIntervalMs)
    }

    /** Both handlers act only in this state. */
    predicate Armed()
      reads this`testInProgress, this`stimulusOnScreen, this`acceptingResponse
    {
      testInProgress && stimulusOnScreen && acceptingResponse
    }

    /** What `end_test` leaves behind when it runs past its re-entry guard. */
    ghost predicate Ended(before: seq<SessionData>, data: SessionData)
      reads this`testInProgress, this`intervalTimer, this`reactionWindowTimer, this`feedbackClearTimer, this`reports
    {
      && !testInProgress
      && intervalTimer.None? && reactionWindowTimer.None? && feedbackClearTimer.None?
      && reports == before + [data]
    }

    /** What `run_next_trial` leaves behind when it schedules the next stimulus. */
    ghost predicate Scheduled(isiMs: nat)
      reads this`testInProgress, this`stimulusOnScreen, this`acceptingResponse, this`currentIsiMs, this`intervalTimer
    {
      testInProgress && !stimulusOnScreen && !acceptingResponse
      && currentIsiMs == Some(isiMs) && intervalTimer == Some(isiMs)
    }

    /** `end_test` called from inside another method, measured from that method's pre-state. */
    twostate predicate EndTestDone()
      reads this`testInProgress, this`session, this`reports, this`intervalTimer, this`reactionWindowTimer, this`feedbackClearTimer
    {
      if old(!testInProgress && session.total > 0) then
        && testInProgress == old(testInProgress) && reports == old(reports)
        && intervalTimer == old(intervalTimer) && reactionWindowTimer == old(reactionWindowTimer)
      else
        Ended(old(reports), old(session))
    }

    /** The record of the trial now on screen, finalised as correct or not, with or without an RT. */
    function CurrentRecord(isCorrect: bool, rtMs: Option<nat>): TrialRecord
      reads this`session, this`currentIsiMs, this`currentStimulus
    {
      TrialRecord(session.total + 1, currentIsiMs, currentStimulus, currentStimulus == targetNumber, isCorrect, rtMs)
    }

    /** `__init__` without the window: the settings and a freshly reset session. */
    constructor(target: int, targetTrials: nat, maxTrials: nat, minIntervalMs: nat, maxIntervalMs: nat,
                responseLimitMs: nat, responseOutlierMs: nat, feedbackDurationMs: nat)
      requires IsDigit(target) && minIntervalMs <= maxIntervalMs
      ensures Valid()
      ensures this.targetNumber == target && this.targetTrials == targetTrials && this.maxTrials == maxTrials
      ensures this.minIntervalMs == minIntervalMs && this.maxIntervalMs == maxIntervalMs
      ensures this.responseLimitMs == responseLimitMs && this.responseOutlierMs == responseOutlierMs
      ensures this.feedbackDurationMs == feedbackDurationMs
      ensures sequence == [] && session == EmptySession && numberCounts == ZeroCounts() && reports == []
      ensures !testInProgress && !stimulusOnScreen && !acceptingResponse
      ensures intervalTimer.None? && reactionWindowTimer.None? && feedbackClearTimer.None?
    {
      this.targetNumber := target;
      this.targetTrials := targetTrials;
      this.maxTrials := maxTrials;
      this.minIntervalMs := minIntervalMs;
      this.maxIntervalMs := maxIntervalMs;
      this.responseLimitMs := responseLimitMs;
      this.responseOutlierMs := responseOutlierMs;
      this.feedbackDurationMs := feedbackDurationMs;
      sequence := [];
      currentStimulus := 0;
      previousStimulus := 0;
      numberCounts := ZeroCounts();
      session := EmptySession;
      currentIsiMs := None;
      intervalTimer := None;
      reactionWindowTimer := None;
      feedbackClearTimer := None;
      testInProgress := false;
      stimulusOnScreen := false;
      acceptingResponse := false;
      reports := [];
    }

    /**
     * `generate_sequence`: `target_trials` copies of the target plus one picked non-target digit
     * per remaining trial, shuffled once. Nothing keeps two targets apart.
     */
    method GenerateSequence(picks: seq<int>, draws: seq<nat>)
      requires Valid()
      requires |picks| == Remaining(targetTrials, maxTrials) && ValidPicks(picks, targetNumber)
      requires ValidDraws(draws, targetTrials + |picks|)
      modifies this`sequence
      ensures Valid()
      ensures sequence == Shuffled(Pool(targetNumber, targetTrials, picks), draws)
    {
      var pool := Repeat(targetNumber, targetTrials);
      pool := pool + picks;
      ShuffledPermutes(pool, draws);
      PermutationComposition(Shuffled(pool, draws), targetNumber, targetTrials, picks);
      sequence := Shuffled(pool, draws);
    }

    /** `reset_test_variables`: a new, empty session; the sequence and the timers are kept. */
    method ResetTestVariables()
      requires Valid()
      modifies this`currentStimulus, this`previousStimulus, this`numberCounts, this`session,
               this`currentIsiMs, this`testInProgress, this`stimulusOnScreen, this`acceptingResponse
      ensures Valid()
      ensures currentStimulus == 0 && previousStimulus == 0 && numberCounts == ZeroCounts()
      ensures session == EmptySession && currentIsiMs.None?
      ensures !testInProgress && !stimulusOnScreen && !acceptingResponse
    {
      currentStimulus := 0;
      previousStimulus := 0;
      numberCounts := ZeroCounts();
      session := EmptySession;
      currentIsiMs := None;
      testInProgress := false;
      stimulusOnScreen := false;
      acceptingResponse := false;
    }

    /** `start_test`: mark the session running, drop all timer handles, and run the first trial. */
    method StartTest(isiMs: nat)
      requires Valid() && minIntervalMs <= isiMs <= maxIntervalMs
      modifies this`testInProgress, this`intervalTimer, this`reactionWindowTimer, this`feedbackClearTimer,
               this`reports, this`stimulusOnScreen, this`acceptingResponse, this`currentIsiMs
      ensures Valid()
      ensures session.total >= maxTrials ==>
                Ended(old(reports), session)
                && stimulusOnScreen == old(stimulusOnScreen) && acceptingResponse == old(acceptingResponse)
                && currentIsiMs == old(currentIsiMs)
      ensures session.total < maxTrials ==>
                Scheduled(isiMs) && reactionWindowTimer.None? && feedbackClearTimer.None? && reports == old(reports)
    {
      testInProgress := true;
      intervalTimer := None;
      reactionWindowTimer := None;
      feedbackClearTimer := None;
      RunNextTrial(isiMs);
    }

    /**
     * `run_next_trial`: nothing unless running; the session ends once `max_trials` trials
     * were conducted; otherwise the stimulus is cleared and the next one scheduled `isiMs` ahead.
     */
    method RunNextTrial(isiMs: nat)
      requires Valid() && minIntervalMs <= isiMs <= maxIntervalMs
      modifies this`testInProgress, this`intervalTimer, this`reactionWindowTimer, this`feedbackClearTimer,
               this`reports, this`stimulusOnScreen, this`acceptingResponse, this`currentIsiMs
      ensures Valid()
      ensures !old(testInProgress) ==> unchanged(this)
      ensures old(testInProgress) && session.total >= maxTrials ==>
                Ended(old(reports), session)
                && stimulusOnScreen == old(stimulusOnScreen) && acceptingResponse == old(acceptingResponse)
                && currentIsiMs == old(currentIsiMs)
      ensures old(testInProgress) && session.total < maxTrials ==>
                Scheduled(isiMs) && reactionWindowTimer == old(reactionWindowTimer)
                && feedbackClearTimer == old(feedbackClearTimer) && reports == old(reports)
    {
      if !testInProgress {
        return;
      }
      if session.total >= maxTrials {
        EndTest();
        return;
      }
      stimulusOnScreen := false;
      acceptingResponse := false;
      currentIsiMs := Some(isiMs);
      intervalTimer := Some(isiMs);
    }

    /** `select_stimulus`: pop the last element of the sequence, or None when it is empty. */
    method SelectStimulus() returns (s: Option<int>)
      requires Valid()
      modifies this`sequence
      ensures Valid()
      ensures s.None? <==> old(sequence) == []
      ensures s.None? ==> sequence == old(sequence)
      ensures s.Some? ==> old(sequence) == sequence + [s.value] && IsDigit(s.value)
    {
      if sequence == [] {
        return None;
      }
      s := Some(sequence[|sequence| - 1]);
      sequence := sequence[..|sequence| - 1];
    }

    /**
     * `display_stimulus`: nothing unless running; ends the session when the sequence is
     * exhausted; otherwise shows the popped digit, arms both flags, counts the digit and
     * opens the response window.
     */
    method DisplayStimulus()
      requires Valid()
      modifies this`sequence, this`currentStimulus, this`previousStimulus, this`stimulusOnScreen,
               this`acceptingResponse, this`numberCounts, this`reactionWindowTimer,
               this`testInProgress, this`intervalTimer, this`feedbackClearTimer, this`reports
      ensures Valid()
      ensures !old(testInProgress) ==> unchanged(this)
      ensures old(testInProgress) && old(sequence) == [] ==>
                Ended(old(reports), session)
                && sequence == old(sequence) && numberCounts == old(numberCounts)
                && currentStimulus == old(currentStimulus) && previousStimulus == old(previousStimulus)
                && stimulusOnScreen == old(stimulusOnScreen) && acceptingResponse == old(acceptingResponse)
      ensures old(testInProgress) && old(sequence) != [] ==>
                && old(sequence) == sequence + [currentStimulus]
                && previousStimulus == currentStimulus
                && Armed()
                && numberCounts == Bump(old(numberCounts), currentStimulus)
                && reactionWindowTimer == Some(responseLimitMs)
                && intervalTimer == old(intervalTimer) && feedbackClearTimer == old(feedbackClearTimer)
                && reports == old(reports)
    {
      if !testInProgress {
        return;
      }
      var next := SelectStimulus();
      if next.None? {
        EndTest();
        return;
      }
      Present(next.value);
    }

    /** The rest of `display_stimulus` once a digit was popped: show it, arm, count it, open the window. */
    method Present(s: int)
      requires Valid() && IsDigit(s)
      modifies this`currentStimulus, this`stimulusOnScreen, this`acceptingResponse, this`numberCounts,
               this`previousStimulus, this`reactionWindowTimer
      ensures Valid()
      ensures currentStimulus == s && previousStimulus == s && stimulusOnScreen && acceptingResponse
      ensures numberCounts == Bump(old(numberCounts), s) && reactionWindowTimer == Some(responseLimitMs)
    {
      currentStimulus := s;
      stimulusOnScreen := true;
      acceptingResponse := true;
      numberCounts := Bump(numberCounts, currentStimulus);
      previousStimulus := currentStimulus;
      reactionWindowTimer := Some(responseLimitMs);
    }

    /** The first steps of both handlers: the window timer is dropped and the stimulus disarmed. */
    method CloseResponseWindow()
      modifies this`reactionWindowTimer, this`acceptingResponse, this`stimulusOnScreen
      ensures reactionWindowTimer.None? && !acceptingResponse && !stimulusOnScreen
    {
      reactionWindowTimer := None;
      acceptingResponse := false;
      stimulusOnScreen := false;
    }

    /**
     * `handle_response_button` after `rtMs` milliseconds: ignored unless armed; otherwise it
     * cancels the window timer, disarms, classifies the press (too fast first, then the
     * target check) and finalises the trial with its RT, then schedules the feedback pause.
     * Afterwards the engine is never armed, so a second press or a late timeout changes nothing.
     */
    method HandleResponseButton(rtMs: nat)
      requires Valid()
      modifies this`reactionWindowTimer, this`acceptingResponse, this`stimulusOnScreen, this`session,
               this`feedbackClearTimer
      ensures Valid()
      ensures !Armed()
      ensures !old(Armed()) ==> unchanged(this)
      ensures old(Armed()) ==>
                && !acceptingResponse && !stimulusOnScreen
                && reactionWindowTimer.None? && feedbackClearTimer == Some(feedbackDurationMs)
                && var o := Classify(currentStimulus == targetNumber, Some(rtMs), responseOutlierMs);
                   session == Finalize(old(session), old(CurrentRecord(IsCorrect(o), Some(rtMs))), responseOutlierMs)
    {
      if !testInProgress || !stimulusOnScreen || !acceptingResponse {
        return;
      }
      CloseResponseWindow();
      var outcome;
      if rtMs < responseOutlierMs {
        outcome := CommissionOutlier;
      } else if currentStimulus == targetNumber {
        outcome := CommissionError;
      } else {
        outcome := CorrectGo;
      }
      var record := CurrentRecord(IsCorrect(outcome), Some(rtMs));
      SessionLogAppend(session, record, targetNumber, responseOutlierMs, minIntervalMs, maxIntervalMs);
      session := Finalize(session, record, responseOutlierMs);
      feedbackClearTimer := Some(feedbackDurationMs);
    }

    /**
     * `handle_timeout`: ignored unless armed; otherwise the window expired without a press:
     * a target is a correct No-Go, a non-target an omission; the trial is finalised without an RT.
     */
    method HandleTimeout()
      requires Valid()
      modifies this`reactionWindowTimer, this`acceptingResponse, this`stimulusOnScreen, this`session,
               this`feedbackClearTimer
      ensures Valid()
      ensures !Armed()
      ensures !old(Armed()) ==> unchanged(this)
      ensures old(Armed()) ==>
                && !acceptingResponse && !stimulusOnScreen
                && reactionWindowTimer.None? && feedbackClearTimer == Some(feedbackDurationMs)
                && var o := Classify(currentStimulus == targetNumber, None, responseOutlierMs);
                   session == Finalize(old(session), old(CurrentRecord(IsCorrect(o), None)), responseOutlierMs)
    {
      if !testInProgress || !stimulusOnScreen || !acceptingResponse {
        return;
      }
      CloseResponseWindow();
      var outcome;
      if currentStimulus == targetNumber {
        outcome := CorrectNoGo;
      } else {
        outcome := OmissionOutlier;
      }
      var record := CurrentRecord(IsCorrect(outcome), None);
      SessionLogAppend(session, record, targetNumber, responseOutlierMs, minIntervalMs, maxIntervalMs);
      session := Finalize(session, record, responseOutlierMs);
      feedbackClearTimer := Some(feedbackDurationMs);
    }

    /**
     * `clear_feedback_and_proceed`: drops the feedback timer, then ends the session when
     * `max_trials` trials were conducted or the digit counts add up to `max_trials`, and
     * otherwise runs the next trial.
     */
    method ClearFeedbackAndProceed(isiMs: nat)
      requires Valid() && minIntervalMs <= isiMs <= maxIntervalMs
      modifies this`feedbackClearTimer, this`testInProgress, this`intervalTimer, this`reactionWindowTimer,
               this`reports, this`stimulusOnScreen, this`acceptingResponse, this`currentIsiMs
      ensures Valid()
      ensures feedbackClearTimer.None?
      ensures session.total >= maxTrials || SumCounts(numberCounts) >= maxTrials ==>
                EndTestDone()
                && stimulusOnScreen == old(stimulusOnScreen) && acceptingResponse == old(acceptingResponse)
                && currentIsiMs == old(currentIsiMs)
      ensures session.total < maxTrials && SumCounts(numberCounts) < maxTrials && old(testInProgress) ==>
                Scheduled(isiMs) && reactionWindowTimer == old(reactionWindowTimer) && reports == old(reports)
      ensures session.total < maxTrials && SumCounts(numberCounts) < maxTrials && !old(testInProgress) ==>
                && !testInProgress && reports == old(reports)
                && stimulusOnScreen == old(stimulusOnScreen) && acceptingResponse == old(acceptingResponse)
                && currentIsiMs == old(currentIsiMs) && intervalTimer == old(intervalTimer)
                && reactionWindowTimer == old(reactionWindowTimer)
    {
      feedbackClearTimer := None;
      if session.total < maxTrials {
        if SumCounts(numberCounts) >= maxTrials {
          EndTest();
        } else {
          RunNextTrial(isiMs);
        }
      } else {
        EndTest();
      }
    }

    /**
     * `end_test`, its re-entry guard and its timer cancellation: a session that has stopped
     * after at least one trial is left alone; otherwise it stops, all three timer handles are
     * cancelled and cleared, and the session's bookkeeping is handed to `save_data_to_json`.
     */
    method EndTest()
      requires Valid()
      modifies this`testInProgress, this`intervalTimer, this`reactionWindowTimer, this`feedbackClearTimer, this`reports
      ensures Valid()
      ensures EndTestDone()
      ensures old(!testInProgress && session.total > 0) ==> unchanged(this)
      ensures old(testInProgress || session.total == 0) ==> Ended(old(reports), session)
    {
      if !testInProgress && session.total > 0 {
        return;
      }
      testInProgress := false;
      intervalTimer := None;
      reactionWindowTimer := None;
      feedbackClearTimer := None;
      reports := reports + [session];
    }
  }

  /**
   * What `generate_sequence` yields: exactly `target_trials` targets, every entry a digit, and
   * `max_trials` entries when `target_trials <= max_trials` (`target_trials` otherwise).
   */
  lemma GeneratedSequenceComposition(target: int, targetTrials: nat, maxTrials: nat, picks: seq<int>, draws: seq<nat>)
    requires IsDigit(target)
    requires |picks| == Remaining(targetTrials, maxTrials) && ValidPicks(picks, target)
    requires ValidDraws(draws, targetTrials + |picks|)
    ensures var s := Shuffled(Pool(target, targetTrials, picks), draws);
            && multiset(s)[target] == targetTrials
            && |s| == (if targetTrials <= maxTrials then maxTrials else targetTrials)
            && (forall i :: 0 <= i < |s| ==> IsDigit(s[i]))
  {
    var pool := Pool(target, targetTrials, picks);
    ShuffledPermutes(pool, draws);
    PermutationComposition(Shuffled(pool, draws), target, targetTrials, picks);
  }
}
