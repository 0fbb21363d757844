# 4BLD trainer: the training-session engine in Dafny

This project models the `Trainer` class of the 4BLD memory drill (`app.js`). That class is the whole engine behind one training run:

- It draws a sequence of letter-pair stimuli from the pool: 10 "edges", 6 "corners" and an optional parity item.
- It shows the items one at a time (Memo).
- It collects typed answers (Exec).
- It scores them against the sequence (Result) and prepends a run record to the history.
- It summarises that history on the statistics screen.
- Separately, the study screen browses a filtered list of the pool with a wrap-around cursor.

Modules:

- `Pool`: the `Stimulus` record.
- `Optional`: the `Option` type.
- `Generation`: `generateSequence` as specification functions (`Draws`, `Generated`) with lemmas on length, parity, prefix and pool membership.
- `Answers`: `toUpperCase().trim()` as `Normalize`, with lemmas on its shape, on when it is empty, and on idempotence.
- `Scoring`: the per-position verdict and the count `finishRun` computes (`Correct`, `Score`), with bound and success lemmas.
- `RunStats`: run records and the `showStats` summary (success rate, best, average, recent rows).
- `StudyFilter`: the study list for a filter value.
- `App`: the class `Trainer`. It has the source's fields and one method per source method. Loops are kept as loops: the draws in `GenerateSequence` and the scoring loop in `FinishRun`. Each state change is described by a two-state predicate (`MemoStarted`, `MemoAdvanced`, `ExecEntered`, `AnswerSubmitted`, `RunFinished`, `StudyStepped`, `ModeSet`). The key handlers `HandleSpace` and `HandleEnter` state, mode by mode, which of these transitions happened. `Valid()` holds between operations. It says:
  - every sequence item and study item comes from the pool;
  - every stored answer is a normalised non-empty string;
  - the study cursor is in range whenever the study list is non-empty;
  - in Memo, the memo cursor points at an item still to be shown.

The environment becomes parameters:

- The three check boxes become `Options`.
- `Date.now()` becomes an integer `now` in milliseconds.
- The study filter's selected value becomes a string.
- The answer box is the field `input`, which `EditInput` sets.
- `Math.random()` becomes an oracle `random: nat -> Roll`. The i-th draw of one generation call uses `random(i) / 2^53`, and the item drawn is `data[floor(random(i) * |data| / 2^53)]`.

Where app.js differs from the intended design of the system, the model follows app.js:

- A run succeeds when `score === total` (app.js:236). Trailing extra answers therefore do not make it fail (`Scoring.SuccessIffAllMatched`, `Scoring.ExtraAnswerScenario`).
- Going from Result back to Idle (app.js:112) does not clear the sequence or the answers. The next run is still clean, because `startMemo` replaces the sequence and `startExec` clears the answers (`App.RestartAfterResult`).
- The answers are reset in `startExec` (app.js:176), not in `startMemo`.
- Starting with an empty pool returns silently and leaves the state unchanged (app.js:129). No error is raised.
- The statistics screen can be opened from any mode, and Space also leaves it (app.js:72, 114).
- On the statistics screen, "-" is shown whenever the best or average value is 0 (JavaScript falsy), not only when there is no successful run (app.js:253-254).
- A missing answer is compared as the string "-" (app.js:208). A target whose pair code is "-" would therefore be scored correct against a missing answer. Pair codes are letter pairs, so `SuccessIffAllMatched` assumes none is "-".

## Model

| member | source | states |
|---|---|---|
| Generation.DrawIndex | app.js:144 | `Math.floor(Math.random() * data.length)` is always an index below the pool size |
| Generation.Pick | app.js:144 | one draw is always an element of the pool |
| Generation.Draws | app.js:146-147 | each draw pushes exactly one item, so `count` draws give a sequence of length `count` |
| Generation.Generated | app.js:138-152 | the stored sequence has 10·[edges] + 6·[corners] items, plus one exactly when the parity box is checked |
| Generation.DrawsAt | app.js:144-147 | item i of the sequence is the item picked by the i-th call of `Math.random()` |
| Generation.DrawsPrefix | app.js:146-150 | later draws never change the items drawn before them |
| Generation.GeneratedInPool | app.js:144-151 | every element of the generated sequence is an element of `data` |
| Generation.ParityDrawIffParityChecked | app.js:146-150 | 10 and 6 are even, so the parity step draws exactly when the parity box is checked |
| Generation.GeneratedLength | app.js:146-150 | the length lies between 10·[edges] + 6·[corners] and one more than that; it is odd iff parity is checked; it is 0 iff no box is checked |
| Generation.CategoryDrawsKept | app.js:146-150 | the first 10·[edges] + 6·[corners] items are the category draws; the parity draw only appends |
| Generation.FullSetWithParity | app.js:146-150 | with edges and corners checked, the length is 17 with parity and 16 without |
| Answers.ToUpper | app.js:184 | upper-casing turns each lower-case ASCII letter into its capital (a→A … z→Z), changes no other character, and keeps white space white space |
| Answers.UpperCase | app.js:184 | `toUpperCase()` keeps the length, replaces every lower-case letter by its capital, changes nothing else, and leaves no lower-case letter |
| Answers.LeadingSpace | app.js:184 | trim drops exactly the white space before the first other character |
| Answers.KeptLength | app.js:184 | trim drops exactly the white space after the last other character |
| Answers.Trim | app.js:184 | `trim()` returns the part of the input that follows the leading white space, everything after it is white space, and it neither starts nor ends with white space |
| Answers.Normalize | app.js:184 | the value submitPair stores is no longer than the box text, has no lower-case letter and no white space at either end |
| Answers.TrimEmptyIff | app.js:122 | `trim()` is empty exactly when the box holds only white space |
| Answers.NormalizeEmptyIff | app.js:183-185 | `toUpperCase().trim()` is empty exactly when `trim()` is, so Enter's emptiness test and submitPair's agree |
| Answers.LowerCaseScenario | app.js:184 | typing " ab " stores "AB" |
| Answers.NormalFormFixed | app.js:184 | a string with no lower-case letter and no white space at either end is left unchanged by normalisation |
| Answers.NormalizeIdempotent | app.js:184 | normalising twice gives the same as normalising once |
| Answers.NormalizedIsAnswer | app.js:184-186 | every value submitPair appends is a non-empty normalised answer |
| Answers.AnswerIffNormal | app.js:184-186 | the answer shape is exactly "non-empty and unchanged by normalisation" |
| Scoring.AnswerAt | app.js:208 | the answer compared at position i is `userAnswers[i]`, or "-" past the last answer |
| Scoring.IsOk | app.js:207-209 | a position past the last target is never correct; with no answer there, it is correct only for a target coded "-"; with an answer, exactly when the answer equals the target's pair code |
| Scoring.Correct | app.js:205-210 | the count of correct positions is at most the number of positions visited |
| Scoring.CorrectBounded | app.js:200-210 | the count of correct positions is at most the number of targets |
| Scoring.CorrectPastEnd | app.js:205-210 | positions past the end of the sequence never add to the score |
| Scoring.CorrectAllIff | app.js:206-210 | the count reaches n exactly when every one of the first n positions is correct |
| Scoring.Score | app.js:200-210 | 0 ≤ correct ≤ total = \|sequence\|, and visiting max(\|sequence\|, \|answers\|) positions scores the same as visiting the targets only |
| Scoring.SuccessIffAllMatched | app.js:200-236 | score == total exactly when at least as many answers as targets were given and `answers[i] == sequence[i].pair` at every target position |
| Scoring.ShortAnswerScenario | app.js:205-210 | targets AB, CD, EF against answers AB, XX: position 0 is correct, positions 1 and 2 are wrong, score 1 |
| Scoring.ExtraAnswerScenario | app.js:205-236 | target AB against answers AB, XX scores 1 of 1, so the run succeeds despite the extra answer |
| RunStats.Wins | app.js:244 | the successful runs are exactly the records with `success`, and there are no more of them than runs |
| RunStats.WinsCons | app.js:244 | one step of `filter`: the first record is kept exactly when it is a success, ahead of the filtered rest |
| RunStats.WinsAppend | app.js:244 | `filter` keeps the records' order: filtering a concatenation is the concatenation of the filtered parts |
| RunStats.WinsCount | app.js:244 | `filter` keeps every copy of a successful record and no copy of a failed one, so the win count counts repeated records |
| RunStats.Times | app.js:249 | one time per successful run, in the same order, each that run's time |
| RunStats.Min | app.js:250 | the best time is one of the times and no time is smaller |
| RunStats.RatePercent | app.js:247 | the success rate is 0 without runs, at most 100, and otherwise `Math.round(wins / total * 100)` with halves rounded up |
| RunStats.BestTime | app.js:250 | 0 without a successful run; otherwise the time of a successful run, and no successful run's time is smaller |
| RunStats.AverageTime | app.js:251 | present exactly when some run succeeded; its count is the number of successful runs and its sum the sum of their times |
| RunStats.Summarize | app.js:241-256 | the summary counts every run; its rate is `RatePercent` of wins over runs (at most 100); best is shown exactly when `BestTime` is non-zero and then equals it; the average is shown exactly when it exists with a non-zero sum and then equals `AverageTime`; the table rows are the first min(50, runs) records, most recent first |
| RunStats.EmptySummary | app.js:243-254 | with no runs: 0 runs, rate 0, best "-", average "-" |
| RunStats.BestIsFastestWin | app.js:244-250 | with at least one successful run, the best time is the time of a successful run, and no successful run was faster |
| RunStats.NoWinsNoTimes | app.js:249-254 | without a successful run, best and average both show "-" |
| RunStats.FailedRunKeepsTimes | app.js:244-251 | prepending a failed run changes neither the best nor the average time, so a failed run's time never becomes best |
| RunStats.SumAtLeast | app.js:251 | a lower bound of all times, multiplied by their count, is at most their sum |
| RunStats.SumAppend | app.js:251 | `reduce((a, b) => a + b, 0)` over a concatenation is the sum of the parts |
| RunStats.BestAtMostAverage | app.js:249-251 | with at least one successful run there is an average, and the best time is at most it |
| StudyFilter.WithPrefix | app.js:275 | the filtered list holds exactly the pool items whose pair code starts with the filter, and is no longer than the pool |
| StudyFilter.WithPrefixCons | app.js:275 | one step of `filter`: the first stimulus is kept exactly when its pair code starts with the filter, ahead of the filtered rest |
| StudyFilter.WithPrefixAppend | app.js:275 | `filter` keeps the pool's order: filtering a concatenation is the concatenation of the filtered parts |
| StudyFilter.WithPrefixCount | app.js:275 | `filter` keeps every copy of a matching stimulus and no copy of another |
| StudyFilter.StudyList | app.js:273-276 | "ALL" gives the pool itself; every study item is from the pool; for a letter filter, exactly the items starting with it |
| StudyFilter.AllMatchKeepsPool | app.js:275 | when every pair code starts with the filter, the filter removes nothing |
| App.RecordOf | app.js:195-237 | the record of a finished run has time = now − start, the memo split, memo + exec == time, total = \|sequence\|, score = `Score(sequence, answers)`, and success iff score == total |
| App.Trainer.constructor | app.js:4-17 | a new trainer is Idle with an empty run, the supplied pool and the saved history |
| App.Trainer.HandleSpace | app.js:107-116 | Space starts a run in Idle, advances in Memo, does nothing in Exec, returns to Idle from Result and Stats without clearing the run, and steps forward in Study |
| App.Trainer.HandleEnter | app.js:118-125 | Enter starts Exec early in Memo; in Exec it appends one answer when the box is not blank, and otherwise finishes the run |
| App.Trainer.PressFinish | app.js:64-70 | the finish button submits a non-blank box first, then finishes and scores the run including that answer |
| App.Trainer.StartMemo | app.js:128-136 | with an empty pool nothing changes; otherwise a fresh sequence replaces the old one, the cursor is 0, the clock starts, and the mode is Memo, or Exec at once for an empty sequence |
| App.Trainer.GenerateSequence | app.js:138-152 | the pushed sequence equals `Generated` for the boxes and the oracle, and keeps every item in the pool |
| App.Trainer.RenderMemo | app.js:154-158 | once the cursor reaches the end of the sequence, Exec starts; before that, nothing changes |
| App.Trainer.NextMemo | app.js:166-169 | the cursor goes up by one; past the last item the mode becomes Exec with the answers cleared and the memo split recorded |
| App.Trainer.StartExec | app.js:171-181 | memo split = now − start, mode Exec, answers and answer box cleared |
| App.Trainer.EditInput | app.js:102-104 | typing replaces the answer box's text and nothing else |
| App.Trainer.SubmitPair | app.js:183-193 | a blank box changes nothing; otherwise exactly its normalised value is appended after the earlier answers, which are untouched, and the box is cleared |
| App.Trainer.FinishRun | app.js:195-226 | the counting loop returns `Score` with correct ≤ total; the run's record goes first in the history, with earlier records unchanged; the mode becomes Result |
| App.Trainer.SaveStats | app.js:228-239 | the new record goes to index 0, every previous record moves down by one unchanged, and `success` is score == total |
| App.Trainer.ShowStats | app.js:241-254 | the statistics screen shows `Summarize` of the history |
| App.Trainer.CloseScreen | app.js:73 | closing the statistics or study screen sets the mode to Idle |
| App.Trainer.StartStudy | app.js:266-271 | with an empty pool nothing changes; otherwise the mode is Study, with the filtered list and cursor 0 |
| App.Trainer.FilterStudy | app.js:273-278 | the study list becomes the pool ("ALL") or its items with the chosen prefix, and the cursor is reset to 0 |
| App.Trainer.NavStudy | app.js:280-286 | no-op on an empty list; otherwise the cursor always lands in range, and a ±1 step from an index in range is (index ± 1) mod length, which wraps last→first and first→last |
| App.RestartAfterResult | app.js:112-176 | after Result, Space, Space (and Enter if needed) reach Exec with a freshly generated sequence and no answers: the stale run does not leak |

## Left out

- DOM rendering and event wiring are not modelled. This covers the `ui` element cache, `innerText`/`innerHTML`, the progress bar, result rows, answer chips, focus, `setMode`'s CSS class and mode label, `renderStudy`, `populateStudyFilter` and the key/button listener registration. They only present state.
- Loading `pairs.json` with `fetch`, and the `alert` on failure, are not modelled. The pool is a constructor argument.
- `localStorage` is not modelled. The saved history is a constructor argument, and writes are not modelled. The reset button (remove the key, reload the page) amounts to constructing a new `Trainer` with an empty history.
- The record's ISO date string is left out; it is a separate clock read used only for display.
- The `setInterval` display timer and `stopTimer` are left out. They have no state beyond the display.
- The `setTimeout` auto-submit at two typed characters is not modelled as a timer. Its effect is a call of `SubmitPair`.
- Times are whole milliseconds (`now - startTime`) instead of seconds as floating point (`/ 1000`). `toFixed` display rounding is left out.
- The average is kept as an exact `Mean(sum, count)` instead of a float.
- The success rate is `Math.round` of the exact ratio. Floating-point rounding of `wins / total * 100` is not modelled.
- `Math.random()` is modelled as multiples of 2^-53. Floating-point rounding of `Math.random() * data.length` is not modelled.
- Answers.ToUpper: only ASCII letters are upper-cased. JavaScript's full Unicode case mapping is not modelled; it can change a string's length (for example ß becomes SS).
- `startMemo` and the `startExec` it reaches through `renderMemo` for an empty sequence read the clock twice. The model uses one `now`, so that memo split is 0.
- Before the study screen is first opened, the source leaves `studyList`/`studyIndex` undefined. The model starts them at `[]` and 0.
- The arrow-key study navigation (app.js:96-99) and the prev/next buttons are listener wiring. Each of them calls `NavStudy(±1)`.
- download_images.py is not part of this model. It does network image search, HTTP downloads, file writes and sleeps, and none of that is session logic.
