# GNG-PVT trial engine in Dafny

A model of the trial engine of the two Go/No-Go reaction-time tests in this repository:
`PVTApp` (gng_pvt.py) and `SARTApp` (GNG-PVT.py). In both, a digit from 1 to 9 appears
after a random interval. The participant presses for every digit except the target and
withholds on the target. Each trial ends in one of five outcomes:

- correct Go;
- correct No-Go;
- commission error (a press on the target);
- too-fast outlier;
- omission (a missed non-target).

After a feedback pause the engine schedules the next trial or ends the session. At the
end, the session's bookkeeping goes to `save_data_to_json`, which summarises it.

Layout:

- `wrappers.dfy` holds `Option` and `Result`.
- `digits.dfy` holds the per-digit presentation counter `number_counts`.
- `trial.dfy` holds the classification, the trial record, the five counters and the
  session bookkeeping, which both variants share.
- `sequence.dfy` builds the stimulus sequence: the target pool, `random.shuffle` as
  CPython's Fisher-Yates pass, and GNG-PVT.py's retry-until-separated loop.
- `summary.dfy` holds the report arithmetic of both variants and the results-screen accuracy.
- `pvt_app.dfy` is the class `PvtApp` and `sart_app.dfy` the class `SartApp`. Each holds
  the engine's attributes as fields and each Tk callback as a method.

Each class keeps the invariant `Valid()`:

- every sequence entry and every shown stimulus is a digit;
- `number_counts` has exactly the keys 1 to 9;
- the five counters, `total_trials_conducted` and `reaction_times` are exactly what the
  trial log `all_trial_data` implies.

Every method of the two classes except the two `CloseResponseWindow` helpers requires and
preserves `Valid()`, and every method states its new state.

Some inputs come from outside the engine and are parameters:

- `time.perf_counter` becomes the reaction time `rtMs`;
- `random.randint` becomes the interval `isiMs`;
- `random.choice` becomes the list `picks`;
- `random.shuffle`'s `randbelow` calls become the list `draws`.

A Tk timer is the stored handle: `Some(delay)` while the id returned by
`root.after(delay, ...)` is stored, `None` once it is cleared. A callback firing is
modelled as a call of the method it names.

Two behaviours of the handlers are modelled exactly as the code has them:

- The outlier test is a strict `<` (gng_pvt.py:288, GNG-PVT.py:291). A press whose RT
  equals `response_outlier_ms` is therefore a correct Go or a commission error, not an
  outlier.
- The press handler never compares the RT with `response_limit_ms`. Only the timeout
  callback closes the response window.

## Model

| member | source | states |
|---|---|---|
| DigitCounts.ZeroCounts | gng_pvt.py:171 | the fresh counter has exactly the keys 1..9, each mapped to 0 |
| DigitCounts.ZeroCountsSumToZero | GNG-PVT.py:178 | a fresh counter has counted no presentation |
| DigitCounts.Bump | gng_pvt.py:251 | counting a shown digit raises its count by one and keeps every other count and the key set |
| DigitCounts.BumpAddsOne | GNG-PVT.py:220 | each presentation adds exactly one to `sum(number_counts.values())`, the quantity `run_next_trial` compares with `max_trials` |
| DigitCounts.AllDigitsShownEnough | GNG-PVT.py:351-356 | the loop's flag is true exactly when every digit 1..9 was shown at least `max_trials / 9.0` times |
| Trial.Classify | gng_pvt.py:288-299 | the outcome of a trial is admissible: a press iff there is an RT, too fast iff RT < outlier threshold, correct iff pressed in time on a non-target or withheld on the target, target outcomes only on the target |
| Trial.ClassificationIsUnique | gng_pvt.py:288-333 | an outcome is admissible exactly when it is the handlers' classification, so every trial has exactly one outcome |
| Trial.TooFastBeatsTarget | GNG-PVT.py:291-298 | a too-fast press on the target is an outlier, not a commission error, because the speed check comes first |
| Trial.WellFormedLogIndexed | gng_pvt.py:278-285 | the log is well formed iff its i-th entry is trial number i + 1 with a digit stimulus, the target flag of that digit and the correct flag of its outcome |
| Trial.Tally.Bump | gng_pvt.py:288-299 | incrementing the counter of outcome o adds one to that counter only and one to the total |
| Trial.TallyCountsOutcomes | gng_pvt.py:288-302 | each counter equals the number of logged trials with its outcome |
| Trial.LogAppend | gng_pvt.py:301-302 | appending a record bumps exactly its outcome's counter and extends the RT series by its RT, if it has one |
| Trial.TallyCoversEveryTrial | GNG-PVT.py:305 | the five counters add up to the number of logged trials |
| Trial.RtRecordedIffPressed | gng_pvt.py:287 | the RT series has one entry per trial that ended with a press (correct Go, commission error or outlier) |
| Trial.CorrectFlagsMatchCounters | gng_pvt.py:398 | correct Go + correct No-Go equals the number of records flagged `is_correct` |
| Trial.SessionLogAppend | gng_pvt.py:278-302 | finalising a well-formed record for trial `total + 1` keeps the bookkeeping consistent with the log |
| Trial.SessionLogTotals | gng_pvt.py:397-398 | in consistent bookkeeping the counters sum to the total, RTs match presses and correct counters match correct flags |
| StimulusSequence.Repeat | gng_pvt.py:158 | `[x] * n` has length n and holds n copies of x |
| StimulusSequence.PoolComposition | GNG-PVT.py:151-159 | the unshuffled list has `target_count + len(picks)` digits, exactly `target_count` of them the target |
| StimulusSequence.SwapPermutes | gng_pvt.py:165 | a swap of two positions is a permutation |
| StimulusSequence.ShuffleDownPermutes | gng_pvt.py:165 | the Fisher-Yates pass from a given position down is a permutation |
| StimulusSequence.ShuffledPermutes | gng_pvt.py:165 | `random.shuffle` only reorders its list |
| StimulusSequence.AttemptPermutes | GNG-PVT.py:166-167 | every retry attempt, which reshuffles the previous attempt's order, is a permutation of the pool |
| StimulusSequence.PermutationComposition | test_gng_pvt.py:37-42 | any permutation of the pool has the pool's length, target count and digit entries |
| StimulusSequence.ShuffleUntilSeparated | GNG-PVT.py:164-173 | the retry loop fails iff none of the 1000 attempts separates the targets; otherwise it returns the first attempt that does, a permutation of the pool without adjacent targets |
| StimulusSequence.SeparatedTargetsBound | GNG-PVT.py:168 | a list without adjacent targets holds at most (n + 1) / 2 of them |
| StimulusSequence.FullPoolAlwaysFails | GNG-PVT.py:164-173 | a pool with more than (n + 1) / 2 targets fails every one of the 1000 attempts, so `generate_sequence` raises |
| StimulusSequence.NoTargetsAlwaysAccepted | GNG-PVT.py:168 | a pool without targets is accepted on the first attempt |
| StimulusSequence.UncheckedShuffleMayRepeatTarget | gng_pvt.py:157-165 | gng_pvt.py's single shuffle can leave two targets side by side: pool [5, 5, 1] with draws [0, 1, 2] |
| SessionSummary.Max | gng_pvt.py:402 | `max(reaction_times)` is an element of the series that no element exceeds |
| SessionSummary.Mean | gng_pvt.py:401 | the average RT lies between 0 and the worst RT |
| SessionSummary.MeanTimesCount | GNG-PVT.py:405 | the average is `sum(reaction_times) / len(reaction_times)`: times the count it gives the sum |
| SessionSummary.AccuracyPercent | gng_pvt.py:398-399 | accuracy is 0 with no trials and otherwise `correct / total * 100`; a percentage between 0 and 100, and 100 exactly when every trial was correct |
| SessionSummary.Summarize | gng_pvt.py:397-403 | the summary always exists; average and worst RT are null iff there are no RTs; the worst RT is the maximum; the average is at most the worst; a spread iff at least two RTs |
| SessionSummary.SummaryValues | gng_pvt.py:397-401 | the summary's accuracy is `(go + no-go) / total * 100`, its average `sum / len`, and the total and counters are copied |
| SessionSummary.SartSummarize | GNG-PVT.py:397-407 | as written, the report fails exactly when fewer than two RTs exist; otherwise outliers are commission + omission, accuracy is `(go + no-go) / total * 100` and a percentage, the worst RT is the maximum of the series, and the average is at most the worst |
| SessionSummary.SartSummaryValues | GNG-PVT.py:397-405 | a GNG-PVT.py report, when there is one, has the average `sum / len` and copies the total and counters |
| SessionSummary.SartReportLostWithFewRts | test_gng_pvt.py:152-169 | a session whose only trial timed out, or had a single press, yields no GNG-PVT.py report, while gng_pvt.py reports the single RT |
| SessionSummary.ReportOfLoggedSession | gng_pvt.py:397-403 | for a logged session the accuracy is a percentage, 100 iff every record is flagged correct, and the worst RT is null iff no trial had a press |
| SessionSummary.SartReportLostIffFewPresses | GNG-PVT.py:405-407 | a logged session loses its GNG-PVT.py report exactly when fewer than two trials ended with a press |
| SessionSummary.ResultsScreenAccuracy | gng_pvt.py:491-492 | as written: 0 with no trials, a ZeroDivisionError iff trials were run with no target trials configured, and otherwise `correct_no_go / target_trials * 100` |
| SessionSummary.ScreenAccuracyDisagreesWithReport | gng_pvt.py:491-492 | the screen shows 33.33...% where the report says 60% for the same session, and fails when no target trials are configured |
| SessionSummary.MixedPerformanceSummary | test_gng_pvt.py:103-130 | 2 Go hits, 1 No-Go hit, 1 commission error and 1 omission with RTs [180, 220] give 60% accuracy, average 200, worst 220 and a spread |
| PvtEngine.PvtApp.constructor | gng_pvt.py:29-95 | the settings as given, an empty session, zero counts, no timers, not running |
| PvtEngine.PvtApp.GenerateSequence | gng_pvt.py:157-165 | the sequence is the shuffle of `target_trials` targets followed by the picks |
| PvtEngine.GeneratedSequenceComposition | test_gng_pvt.py:37-42 | the generated sequence holds exactly `target_trials` targets, only digits, and `max_trials` entries when `target_trials <= max_trials` |
| PvtEngine.PvtApp.ResetTestVariables | gng_pvt.py:167-185 | stimulus, counts, the five counters, the total, the RT series, the log and the flags are reset |
| PvtEngine.PvtApp.StartTest | gng_pvt.py:187-191 | the session runs, all timer handles are cleared, and the first trial is scheduled (or the session ends when `max_trials` is already reached) |
| PvtEngine.PvtApp.RunNextTrial | gng_pvt.py:211-227 | nothing unless running; the session ends at `max_trials` trials; otherwise the stimulus is cleared and the next is scheduled after the chosen interval |
| PvtEngine.PvtApp.SelectStimulus | gng_pvt.py:229-234 | None iff the sequence is empty; otherwise the last element, which is removed |
| PvtEngine.PvtApp.DisplayStimulus | gng_pvt.py:236-258 | nothing unless running; ends the session when the sequence is exhausted; otherwise shows the popped digit, arms the response, counts the digit and opens the response window |
| PvtEngine.PvtApp.Present | gng_pvt.py:245-258 | the digit is current and previous stimulus, both flags are armed, its count is bumped and the window timer is set |
| PvtEngine.PvtApp.CloseResponseWindow | gng_pvt.py:264-275 | the window handle is cleared and the stimulus disarmed |
| PvtEngine.PvtApp.HandleResponseButton | gng_pvt.py:260-303 | ignored unless armed; otherwise the window handle is cleared, the response and the stimulus are disarmed, the press is classified and the trial finalised with its RT, and the feedback pause is scheduled; afterwards the engine is never armed |
| PvtEngine.PvtApp.HandleTimeout | gng_pvt.py:305-337 | ignored unless armed; otherwise the window handle is cleared, the response and the stimulus are disarmed, and the trial is finalised without an RT, as correct No-Go on the target and omission otherwise |
| PvtEngine.PvtApp.ClearFeedbackAndProceed | gng_pvt.py:342-364 | the feedback handle is cleared; the session ends once `max_trials` trials were conducted or digits shown; otherwise the next trial is scheduled |
| PvtEngine.PvtApp.EndTest | gng_pvt.py:366-374 | a stopped session with trials is left alone; otherwise the session stops, all timer handles are cleared and its bookkeeping is reported |
| SartEngine.SartApp.constructor | GNG-PVT.py:28-88 | the settings as given, an empty session, zero counts, no timers, not running |
| SartEngine.SartApp.GenerateSequence | GNG-PVT.py:149-173 | succeeds iff one of the 1000 attempts separates the targets, and then the sequence is the first such attempt; on failure the sequence is kept |
| SartEngine.AcceptedSequenceComposition | test.py:183-192 | an accepted sequence has `max_trials` digits, exactly `max_trials / 9` of them the target, never two side by side |
| SartEngine.SartApp.ResetTestVariables | GNG-PVT.py:175-191 | stimulus, counts, the five counters, the total, the RT series, the log and the flags are reset |
| SartEngine.SartApp.StartTest | GNG-PVT.py:193-197 | the session runs and the first trial is scheduled, or the session ends when the trial or presentation limit is already reached; timer handles are kept |
| SartEngine.SartApp.RunNextTrial | GNG-PVT.py:216-231 | nothing unless running; the session ends once `max_trials` trials were conducted or the counts sum to `max_trials`; otherwise the next trial is scheduled |
| SartEngine.SartApp.SelectStimulus | GNG-PVT.py:233-238 | None iff the sequence is empty; otherwise the last element, which is removed |
| SartEngine.SartApp.DisplayStimulus | GNG-PVT.py:240-261 | nothing unless running; ends the session when the sequence is exhausted; otherwise shows, arms, counts and opens the response window |
| SartEngine.SartApp.Present | GNG-PVT.py:249-261 | the digit is current and previous stimulus, both flags are armed, its count is bumped and the window timer is set |
| SartEngine.SartApp.CloseResponseWindow | GNG-PVT.py:267-278 | the window handle is cleared and the stimulus disarmed |
| SartEngine.SartApp.HandleResponseButton | GNG-PVT.py:263-306 | ignored unless armed; otherwise the window handle is cleared, the response and the stimulus are disarmed, the press is classified and the trial finalised with its RT, and the feedback pause is scheduled; afterwards the engine is never armed |
| SartEngine.SartApp.HandleTimeout | GNG-PVT.py:308-340 | ignored unless armed; otherwise the window handle is cleared, the response and the stimulus are disarmed, and the trial is finalised without an RT, as correct No-Go on the target and omission otherwise |
| SartEngine.SartApp.ClearFeedbackAndProceed | GNG-PVT.py:345-362 | the feedback handle is cleared; the session ends at `max_trials` trials or once every digit was shown often enough and `max_trials` were shown; otherwise it continues as `run_next_trial` |
| SartEngine.SartApp.EndTest | GNG-PVT.py:364-374 | a stopped session with trials is left alone; otherwise the session stops and its bookkeeping is reported; the timer handles are only cancelled, not cleared |

## Left out

- The Tk window, its frames, labels, key bindings, fonts and the results screen's text.
  The one exception is the results-screen accuracy, modelled as a finding.
- Tk's event queue and scheduler. A timer is a stored handle, and a callback firing is a
  call of its method. Both `after_cancel` and firing are outside the model. So is the
  order in which pending callbacks run. GNG-PVT.py's `end_test` and `clear_current_frame`
  cancel without clearing, and the model keeps those handles stored.
- The clock, `random.randint`, `random.choice` and `random.shuffle`'s draws. They are
  parameters, constrained to the ranges the library guarantees.
- Floating point. Reaction times and intervals are whole milliseconds, and
  `round(rt_s * 1000)` is the supplied `rtMs`. Accuracy and the average are exact ratios:
  `round(..., 2)`, `round(mean)` and the numeric value of `statistics.stdev` are not
  modelled. Only whether the spread exists, or whether computing it raises, is modelled.
- GNG-PVT.py passes `min_interval_s * 1000` to `random.randint`, which may be a float,
  and whether that is accepted depends on the Python version. The model takes any whole
  `isiMs` between the bounds.
- The random choice of the target digit when it is configured as 0. The target is a
  constructor argument.
- The `data_dir` handling, the file names, JSON serialisation, the graph and `quit_app`.
  GNG-PVT.py's `os.path.join(self.data_dir, ...)` also raises when no data directory
  exists. Whether the file is written is outside the model: `reports` records what each
  `end_test` would hand to `save_data_to_json`.
- The bookkeeping attributes are grouped into one `SessionData` value. This value holds
  `all_trial_data`, the five counters, `total_trials_conducted` and `reaction_times`, and
  each handler updates it in one step (`Finalize`). The intermediate states inside a
  handler are not modelled, because nothing observes them.
- `PvtApp.Present`, `PvtApp.CloseResponseWindow`, `SartApp.Present` and
  `SartApp.CloseResponseWindow` are helper methods holding consecutive statements of
  `display_stimulus` and of the two handlers. They are not separate operations of the source.
- `SartApp.ClearFeedbackAndProceed` first computes whether to stop, then makes one call,
  instead of the source's nested `if`. It calls `end_test` in exactly the same cases.
- `StimulusSequence.ShuffleUntilSeparated` is the loop of GNG-PVT.py's
  `generate_sequence`, written as a method of its own. `SartApp.GenerateSequence`
  returns the `RuntimeError` as a value instead of raising it.
- A `target_trials` larger than `max_trials` (gng_pvt.py) gives an empty pick list, as
  `range` of a negative count does.
## Findings

| source | as written | input that shows it | evidently intended | confidence | as-written member | corrected member |
|---|---|---|---|---|---|---|
| gng_pvt.py:491-492 | the results screen computes accuracy as correct No-Go / `target_trials` | 2 correct Go and 1 correct No-Go out of 5 trials with 3 target trials: the screen shows 33.33% and the saved report 60%; with `target_trials` 0 and one trial run the screen raises ZeroDivisionError | the same accuracy as the report, (correct Go + correct No-Go) / total | not executed | SessionSummary.ScreenAccuracyDisagreesWithReport | SessionSummary.AccuracyPercent |
| GNG-PVT.py:407 | `statistics.stdev(self.reaction_times)` is computed unconditionally | a session with one press (RTs [250]), or only timeouts (RTs []): `stdev` raises StatisticsError and no report is saved | a null spread below two RTs, as gng_pvt.py:403 does | not executed | SessionSummary.SartReportLostIffFewPresses | SessionSummary.Summarize |
