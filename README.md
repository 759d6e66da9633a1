# Listening-quiz session engine, modelled in Dafny

This project models the engine of a browser listening quiz. The learner hears a spoken sentence and picks its text from several options. Three parts are modelled:

- **`Exercisegame`** (`exercise_game.dfy`) models the session component of `src/components/Exercisegame/ExerciseGame.js`.
  - The class `ExerciseGame` has the component's state cells as fields: round index, game state, selected answer, score, attempt count and playback speed.
  - It also has a record of the delayed replays that were requested.
  - Its handlers `HandleOptionSelect`, `HandleNext` and `HandleSpeedToggle` are methods. Each is proved against a pure transition function over a `Session` snapshot, and each keeps the object invariant `Valid()`.
  - The lemmas about those transition functions state what each handler does. They also state what holds over every sequence of user events starting from the initial state.
- **`AnswerGrid`** (`answer_grid.dfy`) models the option buttons of `AnswerGrid.js`. Each button gets a `disabled` flag, a "correct" mark and an "incorrect" mark. The lemmas tie these marks to the feedback the game shows.
- **`IndexPage`** (`index_page.dfy`) models `src/pages/index.js`:
  - `generateExerciseRounds`, with its random reordering;
  - the speed toggle of the older exercise screen defined inline in that file;
  - the `App` switch between the home view and the exercise view.
- **`Wrappers`** (`wrappers.dfy`) holds `Option`, which stands for JavaScript's null-or-value.

The random sort `[...items].sort(() => Math.random() - 0.5)` is modelled by `Shuffle(items, picks)`. Each element of `picks` chooses which remaining item comes next. `Shuffle` is proved to return a reordering of `items`. `ShuffleReachesEveryPermutation` proves that every reordering of `items` is a possible result. Together they say the model allows exactly the outcomes of a sort. The model says nothing about how likely each outcome is. The bank `items` is a value, so the copy-then-sort never changes it.

Playback speed is the two-valued `Speed` (`Normal`, `Slow`). The multipliers the source stores appear only in the `PlaybackRate` and `LegacyPlaybackRate` functions: 1 and 0.65 in the component, 1 and 0.5 in the older screen.

## Source behaviour the model keeps

- `setTimeout(playAudio, 1000)` at `ExerciseGame.js:42` is never cleared, and `handleNext` cancels nothing. In the model, each request is appended to `replayRequests` and nothing removes it. `ReplaySurvivesNext` and `RunOnlyGrows` state this.
- `handleNext` has no `gameState` guard (`ExerciseGame.js:47-48`); its button is only rendered while a result is shown (`ExerciseGame.js:92-103`). `AfterNext` has no guard either, and the invariants are proved for every event sequence, including "Next" while playing.
- The correct answer field is `sentence`, as `ExerciseGame.js:39` reads it.
- `App` in `index.js` renders the older exercise screen defined inline in the same file (`index.js:47`, `index.js:161-166`), not the component of `ExerciseGame.js`. `App.Render`'s `ExerciseScreen` is that inline screen, which `LegacyExerciseGame` models. None of the modelled files imports `ExerciseGame.js`; its `rounds` and `onHome` come from a caller outside them.

## Model

| member | source | states |
|---|---|---|
| Exercisegame.PlaybackRate | src/components/Exercisegame/ExerciseGame.js:25-31 | The stored multiplier is in (0, 1], and it is 1 exactly at normal speed. |
| Exercisegame.ToggledSpeed | src/components/Exercisegame/ExerciseGame.js:25-27 | In rate terms, a stored speed of 1 becomes 0.65 and any other speed becomes 1. |
| Exercisegame.ToggleTwiceRestores | src/components/Exercisegame/ExerciseGame.js:25-27 | Toggling twice restores the speed. From normal, the first toggle gives the slow rate. |
| Exercisegame.SpeedToggleChangesOnlySpeed | src/components/Exercisegame/ExerciseGame.js:25-31 | The speed toggle changes the speed and nothing else in the session. Applying it twice restores the session. |
| Exercisegame.FeedbackIsCorrect | src/components/Exercisegame/ExerciseGame.js:94-97 | The feedback counts as correct exactly when an answer is selected and it equals the round's sentence. A null selection is never correct. |
| Exercisegame.InitialSession | src/components/Exercisegame/ExerciseGame.js:8-13 | The initial cells: score 0, 0 attempts, no replays, playing, no selection, normal speed. They satisfy the session invariant for any non-empty list of rounds. |
| Exercisegame.OptionSelected | src/components/Exercisegame/ExerciseGame.js:33-45 | Selecting keeps the round and speed. While a result is shown, it changes nothing. While playing, it shows the result with that option selected. Each added attempt brings exactly one point or one replay request. Earlier replay requests are kept. |
| Exercisegame.OnLastRound | src/components/Exercisegame/ExerciseGame.js:48 | For an index in range, the end-of-session branch is taken exactly on the final round. |
| Exercisegame.AfterNext | src/components/Exercisegame/ExerciseGame.js:47-56 | "Next" keeps score, attempts, speed and replay requests. It keeps the index in range and moves it by 0 or 1. When it moves, the session is playing with no selection. |
| Exercisegame.SpeedToggled | src/components/Exercisegame/ExerciseGame.js:25-31 | The speed toggle changes the speed and leaves every other cell as it was. |
| AnswerGrid.ButtonFor | src/components/Exercisegame/components/AnswerGrid/AnswerGrid.js:13-21 | A button shows its own option and is never marked both correct and incorrect. Only disabled buttons, those of a shown result, carry a mark. Only the selected option can be marked incorrect. |
| Exercisegame.SelectWhilePlaying | src/components/Exercisegame/ExerciseGame.js:33-45 | While playing, selecting an option: records it; switches to showing the result; adds exactly 1 attempt; keeps the round and the speed. A correct option adds 1 to the score and requests no replay. A wrong option keeps the score and appends one replay request for the current round. |
| Exercisegame.SelectWhileShowingResultIsIgnored | src/components/Exercisegame/ExerciseGame.js:33-34 | Selecting while a result is shown leaves the whole session unchanged. |
| Exercisegame.FeedbackMatchesScore | src/components/Exercisegame/ExerciseGame.js:39-43 | After an answer, the feedback of lines 94-97 (selectedAnswer equals the round's sentence) says "correct" exactly when the score rose by 1. It says "incorrect" exactly when one replay was requested. |
| Exercisegame.NextAdvances | src/components/Exercisegame/ExerciseGame.js:47-51 | Before the last round, "Next" moves to the next round, sets the state to playing and clears the selection. Score, attempts, speed and replay requests stay the same, and no completion is reported. |
| Exercisegame.NextOnLastRoundCompletes | src/components/Exercisegame/ExerciseGame.js:52-55 | On the last round, "Next" leaves the session unchanged and reports the current score and attempts as the final result. |
| Exercisegame.NextCompletion | src/components/Exercisegame/ExerciseGame.js:47-56 | A completion is reported exactly on the last round, and it carries the session's score and attempts. |
| Exercisegame.ReplaySurvivesNext | src/components/Exercisegame/ExerciseGame.js:42-51 | After a wrong answer and "Next", the session is on the following round and the replay requested for the previous round is still there. |
| Exercisegame.InitialIsConsistent | src/components/Exercisegame/ExerciseGame.js:8-13 | The initial state cells satisfy the session invariant when there is at least one round. |
| Exercisegame.StepKeepsConsistent | src/components/Exercisegame/ExerciseGame.js:25-56 | Each of the three handlers preserves the session invariant. The invariant includes: round index in range; score <= attempts <= index + 1; selection null exactly while playing; score + replay requests == attempts. |
| Exercisegame.RunKeepsConsistent | src/components/Exercisegame/ExerciseGame.js:25-56 | Any sequence of user events keeps the invariant. |
| Exercisegame.ReachableSessionsAreConsistent | src/components/Exercisegame/ExerciseGame.js:8-56 | Every session reachable from the initial state has: 0 <= index < number of rounds; score <= totalAttempts <= index + 1; selectedAnswer null exactly when playing. |
| Exercisegame.RunOnlyGrows | src/components/Exercisegame/ExerciseGame.js:33-56 | Along any run, round index, score and attempts never decrease. Earlier replay requests stay a prefix of later ones, so none is cancelled. |
| Exercisegame.ExerciseGame.constructor | src/components/Exercisegame/ExerciseGame.js:8-13 | It starts at round 0, playing, with no selection, score 0, 0 attempts, normal speed and no replays; the invariant holds. |
| Exercisegame.ExerciseGame.CurrentRound | src/components/Exercisegame/ExerciseGame.js:16 | The round on screen is one of the session's rounds. |
| Exercisegame.ExerciseGame.HandleSpeedToggle | src/components/Exercisegame/ExerciseGame.js:25-31 | The new state is the toggled-speed session, and the invariant is kept. |
| Exercisegame.ExerciseGame.HandleOptionSelect | src/components/Exercisegame/ExerciseGame.js:33-45 | The new state is `OptionSelected` of the old state, and the invariant is kept. |
| Exercisegame.ExerciseGame.HandleNext | src/components/Exercisegame/ExerciseGame.js:47-56 | The new state is `AfterNext` of the old state. The returned completion is the final score exactly on the last round. The invariant is kept. |
| AnswerGrid.Buttons | src/components/Exercisegame/components/AnswerGrid/AnswerGrid.js:12-25 | There is one button per option, in option order. |
| AnswerGrid.ButtonRules | src/components/Exercisegame/components/AnswerGrid/AnswerGrid.js:16-20 | A button is disabled exactly when a result is shown. While playing, nothing is marked. While showing, "correct" marks exactly the correct answer. "Incorrect" marks exactly the selected option when it is not the correct answer. No button is marked both. |
| AnswerGrid.ExactlyOneMarkedCorrect | src/components/Exercisegame/components/AnswerGrid/AnswerGrid.js:19 | When the options are distinct and contain the correct answer, exactly one button is marked correct while showing. |
| AnswerGrid.IncorrectMarkMatchesFeedback | src/components/Exercisegame/components/AnswerGrid/AnswerGrid.js:20 | For distinct options that contain the selection: some button is marked incorrect exactly when the game's feedback says incorrect. That button is the selected one, and it is the only one. |
| AnswerGrid.GameButtons | src/components/Exercisegame/ExerciseGame.js:84-90 | The grid the game renders has one button per option of the current round. While playing, every button is enabled and none is marked incorrect. |
| IndexPage.Shuffle | src/pages/index.js:26 | The reordered copy has the same length and the same elements, with multiplicities, as the bank. |
| IndexPage.ShuffleReachesEveryPermutation | src/pages/index.js:26 | Every reordering of the bank is a possible result of the shuffle. |
| IndexPage.GenerateExerciseRounds | src/pages/index.js:15-28 | Any category other than 'grocery' gives []. 'grocery' gives min(count, bank size) rounds. As a multiset the rounds are contained in the bank, so nothing is repeated. `count` defaults to 10. |
| IndexPage.RoundsComeFromBank | src/pages/index.js:25-27 | Every round is a bank item. When count >= bank size, the whole bank is returned, each item exactly once. |
| IndexPage.EveryPrefixOfAPermutationIsPossible | src/pages/index.js:25-27 | Every choice of the first min(count, size) items of any reordering of the bank is a possible result. |
| IndexPage.LegacyPlaybackRate | src/pages/index.js:88-89 | The older screen's multiplier is in (0, 1], and it is 1 exactly at normal speed. |
| IndexPage.LegacyExerciseGame.constructor | src/pages/index.js:48-53 | The older screen's state cells start at round 0, playing, no selection, 0/0 and speed 1. |
| IndexPage.LegacyExerciseGame.TogglePlaybackSpeed | src/pages/index.js:88-94 | A stored speed of 1 becomes 0.5 and any other speed becomes 1. Only the speed changes. |
| IndexPage.LegacyToggleTwice | src/pages/index.js:88-90 | From normal, the first toggle gives 0.5 and the second gives 1 again. |
| IndexPage.App.constructor | src/pages/index.js:140-142 | The App starts in the home view with no exercise selected. |
| IndexPage.App.HandleExerciseSelect | src/pages/index.js:144-147 | Selecting an exercise switches to the exercise view with that id selected. |
| IndexPage.App.HandleHome | src/pages/index.js:149-152 | Going home switches to the home view and clears the selection. |
| IndexPage.App.Render | src/pages/index.js:154-167 | The home view renders the home page. The exercise view renders the exercise screen with the selected id and min(10, bank size) rounds drawn from the grocery bank. |

## Left out

- Audio output is not modelled, because it is browser media I/O. This covers `audioRef.current.play()`, resetting `currentTime`, assigning `playbackRate` to the audio element (`ExerciseGame.js:18-23, 28-30`; `index.js:58-73, 91-93`) and the play button's `playAudio`. A delayed replay is kept only as the round index at which it was requested.
- The 1000 ms delay and the asynchronous timer are not modelled, because wall-clock time is not part of the model. When a replay fires it plays whatever round is then on screen; the model does not capture this.
- `debugAudio`'s fetch and all console logging (`index.js:75-86`) are not modelled, because they are network I/O and diagnostics.
- The `alert` and the `onHome` call on completion (`ExerciseGame.js:53-54`) are left out, because they are UI side effects and `onHome` belongs to a caller outside the modelled files. `HandleNext` returns the final score instead. `App.HandleHome` is wired only to the inline older screen of `index.js` (`index.js:99, 165`).
- Exercisegame.ExerciseGame.constructor requires at least one round: with `rounds` empty, `ExerciseGame.js:16` gives `undefined` and line 75 throws reading `.audioPath`, so no session exists to model.
- The likelihood of each shuffle outcome is not modelled. Any order is allowed, and no claim is made about how uniform the random comparator is.
- The unused `exerciseType` parameter of `generateExerciseRounds` is not modelled, and `count` is a natural number. JavaScript's `slice` with a negative count is not modelled, because no caller passes one.
- React batching is not modelled. Each event is taken to see the state left by the previous one. With two clicks in the same render, both handlers would read the same stale values.
- The sentence bank modules `../data/categories` and `../data/exercises/grocery` are not part of this model. The grocery items are a parameter.
- JSX markup, CSS-module class strings, icons and label texts are left out as presentation only. This includes the stubbed option buttons of the older screen (`index.js:124-132`), `AudioPlayer.js` and `ExerciseHome.js`.
- `tailwind.config.js` and `next.config.js` are left out, because they are build configuration.
