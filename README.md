# Adaptive quiz engine: difficulty controller and question selector

This project models the game logic of the quiz component
`frontend/src/components/Game.js`. Two operations make up that logic:

- `handleAnswer` takes the player's verdict on the question on screen. It
  updates the visible streak, the hidden streak that drives promotion, the
  count of wrong answers in a row, the score and the player log. It then
  chooses the next difficulty tier (easy, normal, hard) by three fixed rules,
  checked in order: promote after a hidden streak of three, demote from hard
  on a wrong answer, demote from normal after two wrong answers in a row.
  Only when no rule applies is the external difficulty predictor asked. The
  operation ends by loading a question for the chosen tier.
- `loadNextQuestion` draws a presentation mode (multiple choice or fill in
  the blank) and looks up the pool entry for that mode and tier. A missing
  entry is an error. It drops the questions already asked. If none is left
  it moves one tier up, clears the questions of the tier, and retries with a
  fresh mode draw. At hard, an empty draw ends the game. Otherwise it picks
  one of the remaining questions and appends it to the asked list.

Layout:

- `quiz_types.dfy` (module `QuizTypes`): tiers, modes, errors, and `Pick`,
  which turns one `Math.random()` value into an index.
- `controller.dfy` (module `Controller`): the counter update, the score
  increment and the tier transition with the predictor as a parameter.
- `selection.dfy` (module `Selection`): the filter of unseen questions and
  the selector's outcome, a function recursive on the tier rank.
- `session.dfy` (module `GameSession`): a snapshot `State` of the component
  state and the effect of each operation on it (`Load`, `AfterAnswer`). It
  also holds the class `Session`, whose fields are the component state and
  whose methods update them in place. Each method is proved to produce
  exactly the state the matching function describes. The properties are
  lemmas about those functions.

Modelling choices:

- `Math.random()` is a stream `rand: nat -> Fraction`, where a `Fraction`
  is a real in [0, 1). One load uses `rand(draw)` for its mode, then either
  `rand(draw + 1)` for the question index or, on escalation, `rand(draw + 1)`
  as the next mode draw. An index is `Floor(r * n)`, as in the source.
- The predictor is a total function from `PlayerStats` (hidden streak after
  the answer, tier of the answer) to `Option<Tier>`. `None` is a rejected
  promise.
- A pool entry is present when the mode and tier keys exist. An empty
  question list is present (an empty array is truthy in the source), so it
  leads to escalation, not to the missing-entry error.
- Questions are opaque values compared by equality.
- The `gameOver` flag records that game over was signalled
  (`setShowModal(true)`). Closing the dialog clears `showModal` in the source;
  that rendering step is not modelled, so the flag is never cleared. The
  error message strings are the `GameError` values.
- The source stores the counters before the tier rules run, so the resets
  those rules make are lost (see "## Findings"). `AfterAnswerAsWritten` is
  the round as written. `AfterAnswer` is the corrected round, which commits
  the resets, and the class `Session` implements that corrected commit.
  `AsWrittenDiffersOnlyInCounters` proves the two rounds end in the same
  state except for the hidden streak and the wrong-answer count.
- Each answer is processed to completion before the next one. The component
  state reads of the source therefore see the latest values.

## Model

| member | source | states |
|---|---|---|
| QuizTypes.Up | frontend/src/components/Game.js:122-126 | promotion moves easy to normal and normal to hard, one rank up; hard stays hard |
| QuizTypes.Pick | frontend/src/components/Game.js:62 | the index `Math.floor(Math.random() * n)` is always below `n`, so the pick is in range |
| Controller.ScoreIncrement | frontend/src/components/Game.js:96-98 | a correct answer earns at least one point; the increment `k` satisfies `3(k-1) <= streak < 3k` for the raised visible streak |
| Controller.Promotion | frontend/src/components/Game.js:120-127 | a hidden streak of three or more moves the tier one step up (hard stays hard) and resets the hidden streak, whatever the predictor |
| Controller.HardDemotion | frontend/src/components/Game.js:128-130 | at hard a wrong answer always gives normal with hidden streak zero, whatever the streak before; rule 1 cannot fire there |
| Controller.NormalDemotion | frontend/src/components/Game.js:131-134 | at normal, two or more wrong answers in a row (and no promotion) give easy with both the hidden streak and the wrong-answer count reset |
| Controller.PredictorFallback | frontend/src/components/Game.js:110-137 | the predictor is consulted exactly when none of the three rules applies (both directions); it gets the updated hidden streak and current tier, its tier is taken, its failure fails the transition |
| Controller.RuleIgnoresPredictor | frontend/src/components/Game.js:120-134 | when a rule applies, every predictor yields the same transition |
| Controller.RuleStepShape | frontend/src/components/Game.js:120-134 | a rule step always leaves the hidden streak at zero and the visible streak untouched, and moves the tier up or exactly one rank down |
| Selection.Available | frontend/src/components/Game.js:42 | the filtered list is never longer than the pool entry |
| Selection.AvailableMembers | frontend/src/components/Game.js:42 | a question survives the filter exactly when it is in the pool entry and not yet asked |
| Selection.SelectFrom | frontend/src/components/Game.js:26-60 | the selector ends within three attempts, one per tier from the start tier up; a selected question is in the pool entry of its mode and tier and not yet asked; game over happens only at hard with an empty filtered list; a missing outcome has no pool entry |
| Selection.StaysAtTier | frontend/src/components/Game.js:32-43 | the selector picks at the start tier exactly when the drawn mode has an entry with an unseen question |
| Selection.Escalates | frontend/src/components/Game.js:43-58 | below hard, an empty filtered list makes the outcome that of the next tier with the next draw, plus one attempt |
| Selection.ExhaustedAtHard | frontend/src/components/Game.js:50-54 | at hard an empty filtered list ends the game after that one attempt |
| Selection.NothingLeftNothingSelected | frontend/src/components/Game.js:26-60 | once every pool question has been asked, no selection is possible from any tier |
| Selection.ExhaustedWhileOtherModeHasQuestions | frontend/src/components/Game.js:29-54 | exhaustion is judged for the drawn mode only: game over while the other mode still holds an unseen hard question |
| GameSession.InvariantOnTierChange | frontend/src/components/Game.js:56-57 | moving to another tier with the tier's question list cleared keeps the session invariant |
| GameSession.NoDuplicatesAppend | frontend/src/components/Game.js:65 | appending a question not yet asked keeps the asked list free of repeats |
| GameSession.SuffixAppend | frontend/src/components/Game.js:65-66 | appending the same question to both lists keeps the tier's list a suffix of the asked list |
| GameSession.LoadFollowsSelection | frontend/src/components/Game.js:26-70 | a load writes exactly the selector's outcome into the state: selection appends the question to both lists and shows it with its mode, escalation sets the tier and restarts the tier's list, game over raises the flag, a missing entry records the error; counters, score and log are untouched |
| GameSession.LoadMissing | frontend/src/components/Game.js:32-36 | without a pool entry for the drawn mode and tier, only the error changes |
| GameSession.LoadGameOver | frontend/src/components/Game.js:50-54 | at hard with nothing unseen, only the game-over flag changes |
| GameSession.LoadEscalates | frontend/src/components/Game.js:43-58 | below hard with nothing unseen, the load is the load of the next tier after setting the tier and clearing the tier's list |
| GameSession.LoadSelects | frontend/src/components/Game.js:62-68 | with unseen questions, the picked one is appended to both lists and shown, with the drawn mode |
| GameSession.LoadAppendsFresh | frontend/src/components/Game.js:42-66 | a load leaves the asked list as it was or appends exactly one question not asked before, which also ends the tier's list and is the question shown |
| GameSession.LoadOutcomes | frontend/src/components/Game.js:32-59 | the tier only moves upward from the requested one, and then the tier's list holds at most the new question; the tier's list grows by at most one; game over and a missing entry select nothing |
| GameSession.LoadKeepsInvariant | frontend/src/components/Game.js:26-70 | a load keeps the invariant: no repeats in the asked list, the tier's list a suffix of it, hidden streak at most the visible one, a pending wrong answer only with no streak |
| GameSession.CorrectAnswer | frontend/src/components/Game.js:91-98 | corrected round: after a correct answer the visible streak is one higher, the score rose by exactly `ScoreIncrement` of that streak, the wrong-answer count is zero, the hidden streak is one higher or reset by a promotion, and the log has the new entry |
| GameSession.WrongAnswer | frontend/src/components/Game.js:99-108 | corrected round: after a wrong answer the score is unchanged, both streaks are zero, and the wrong-answer count is one higher or reset by the demotion from normal |
| GameSession.ScoreNeverDecreases | frontend/src/components/Game.js:96-103 | no answer lowers the score |
| GameSession.PredictorNotConsulted | frontend/src/components/Game.js:120-136 | when a rule applies, the whole round is the same for every predictor |
| GameSession.PredictorFailure | frontend/src/components/Game.js:147-150 | a failing predictor leaves the error set, the tier, the asked list, the tier's list, the question shown and game over unchanged, and the updated counters committed |
| GameSession.TierChangeClearsPrevious | frontend/src/components/Game.js:141-146 | the round ends at the transition's tier or higher, and a round that changes the tier leaves at most the newly loaded question in the tier's list |
| GameSession.AnswerKeepsInvariant | frontend/src/components/Game.js:86-151 | an answered round keeps the session invariant |
| GameSession.AnswerGrowsAsked | frontend/src/components/Game.js:65 | an answered round only ever extends the asked list |
| GameSession.PlayNeverRepeats | frontend/src/components/Game.js:42-65 | over any number of corrected rounds no question is asked twice, the asked list only grows and the score never falls |
| GameSession.AfterAnswerAsWritten | frontend/src/components/Game.js:86-151 | the round as the source runs it: the stored streaks and wrong-answer count are exactly those of the answer update at lines 87-107, whatever rule fires afterwards |
| GameSession.LoadIgnoresCounters | frontend/src/components/Game.js:26-70 | a load neither reads nor writes the hidden streak and the wrong-answer count: setting them before or after it gives the same state |
| GameSession.AsWrittenDiffersOnlyInCounters | frontend/src/components/Game.js:86-151 | for every input, the round as written ends in the corrected round's state except that the hidden streak and the wrong-answer count keep the values stored at lines 105-107 |
| GameSession.AsWrittenKeepsInvariant | frontend/src/components/Game.js:86-151 | the round as written keeps the session invariant |
| GameSession.PlayAsWrittenNeverRepeats | frontend/src/components/Game.js:42-65 | over any number of rounds as written no question is asked twice, the asked list only grows and the score never falls |
| GameSession.PromotionResetLost | frontend/src/components/Game.js:105-127 | with question 1 of easy on screen and hidden streak two, two correct answers as written reach hard (questions 3 then 5 shown, no error); with the reset committed the game stays at normal |
| GameSession.DemotionResetLost | frontend/src/components/Game.js:105-134 | with question 3 of normal on screen and one wrong answer pending, a wrong answer as written demotes to easy (question 1 shown, no error) but leaves the wrong-answer count at two; with the reset committed it is zero |
| GameSession.Session.constructor | frontend/src/components/Game.js:10-24 | a new game: zero counters and score, easy, nothing asked, nothing shown, no error, invariant holds |
| GameSession.Session.LoadNextQuestion | frontend/src/components/Game.js:26-70 | the fields after the call are exactly `Load` of the fields before |
| GameSession.Session.Present | frontend/src/components/Game.js:65-68 | the question is appended to both lists and shown with its mode; nothing else changes |
| GameSession.Session.CountAnswer | frontend/src/components/Game.js:87-108 | the fields become `Counted` of the old ones, and the returned counters are the ones the rules see |
| GameSession.Session.NextDifficulty | frontend/src/components/Game.js:110-137 | the rule chain and the predictor call compute exactly `Transition` of the current tier and updated counters |
| GameSession.Session.ApplyStep | frontend/src/components/Game.js:141-144 | corrected round: the step's counters, resets included, are committed (the source keeps the values stored at lines 105-107), and the tier changes with the tier's list cleared only when it differs |
| GameSession.Session.HandleAnswer | frontend/src/components/Game.js:86-151 | corrected round: the fields after the call are exactly `AfterAnswer` of the fields before (the source's round as written is `AfterAnswerAsWritten`), and the session invariant is kept |

## Left out

- React plumbing: `useState` batching, the two identical initial-load
  effects (Game.js:72-84), `useCallback` closures and stale reads, and the
  `loading` and `isInitialLoad` flags. Rounds are modelled one after another
  on the latest state.
- The internals of `predictDifficulty` and its asynchrony. The model takes
  any total function to `Option<Tier>`. A predictor answer that is not one
  of the three tier names is not modelled.
- `Math.random()` itself and its uniformity. The model takes any stream of
  values in [0, 1).
- Console logging, `renderGameMode`, `StatsModal` and the rest of the
  rendering.
- The contents of the question pool and of the player log entries beyond
  the question shown and the verdict.
- GameSession.Session.LoadNextQuestion: its contract does not mention the
  session invariant. The invariant across a load is stated on the function
  it follows, by `GameSession.LoadKeepsInvariant`.

## Findings

| source | as written | input that shows it | evidently intended | confidence | as-written member | corrected member |
|---|---|---|---|---|---|---|
| frontend/src/components/Game.js:105-107 | the counters are stored before the rules run, so the resets at lines 127, 130 and 133-134 change only local variables and never reach the state | at easy with question 1 on screen and hidden streak 2, two correct answers in a row: the first promotes to normal but leaves the hidden streak at 3, so the second promotes again to hard | a promotion or demotion resets the stored hidden streak (and, after the demotion from normal, the wrong-answer count), as the comments at those lines say | not executed | GameSession.AfterAnswerAsWritten, GameSession.PromotionResetLost, GameSession.DemotionResetLost | GameSession.AfterAnswer, GameSession.Session.HandleAnswer, GameSession.Session.ApplyStep, GameSession.CorrectAnswer, GameSession.WrongAnswer |
