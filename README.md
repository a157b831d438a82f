# Penalty Shootout '85 — a Dafny model of the shot resolver, the match state machine and the settings normaliser

The game is a single-screen penalty shootout. Before any animation runs, the
**shot resolver** (`moveKeeper`) decides whether the keeper blocks. The chance
of a block depends on the difficulty. It also decides where the keeper
stands. When the ball lands, a blocked shot is *saved*. An unblocked shot is
classified by the goal-frame test of `checkGoal` as a *goal* or a *miss*. The
**match state machine** appends each shot to an append-only history and ends
the match once the history reaches `totalShots`. The match then ends with a
shooter win or a keeper win, or, on a tie, adds one sudden-death shot. Restart
updates the games-played and win-streak statistics. The **settings screen**
vets and normalises the stored `gameSettings` JSON. Its handlers each change
one field. It saves, and adopts a new record only when the write succeeded.
The game screen separately merges the valid stored fields into its own state.

Files (one module each):

- `resolver.dfy` (`Resolver`): aim clamp, keeper positions, save rates,
  bucket and "wrong position" choice, the keeper's decision, the goal-frame test.
- `shootout.dfy` (`Shootout`): shot history and counts, messages, the
  end-of-match verdict, the game screen's settings merge, and the class
  `Match` holding the screen's state. Its methods are the event handlers and
  the timer / animation callbacks.
- `settings.dfy` (`Preferences`): the `Settings` record, the text
  pre-check, normalisation, the copy-and-update handlers, `JSON.stringify`
  of a record, and the class `SettingsScreen`.
- `config.dfy` (`Config`): difficulty and view-mode names and their parsing.
- `storage.dfy` (`Storage`): an abstract parsed JSON value, the record of
  the four optional stored fields, the outcome of `JSON.parse`, and the
  storage entry (class `Store`) that both screens share.
- `js_text.dfy` (`JsText`): `String.prototype.trim` over ECMAScript white
  space and line terminators, and decimal rendering for the messages.
- `wrappers.dfy` (`Wrappers`): `Option`.

Modelling choices:

- Geometry is `real`. The window size and goal size are a `Pitch`;
  `ShippedPitch` gives the shipped proportions (goal 80% wide, 35% high).
- The two `Math.random()` draws are inputs in [0, 1).
- `predictedX = sin(angle) * GOAL_WIDTH * 0.4` is an input. The fact |sin| ≤ 1
  is the hypothesis |predictedX| ≤ 0.4 · GOAL_WIDTH.
- Every `setTimeout` callback and animation-completion callback is a step
  method of `Match`. Each runs only if its `...Pending` field says it is
  scheduled. Otherwise it does nothing.
- `Match.Valid()` is the object invariant:
  - attempts are numbered 1, 2, …;
  - `|shots| <= totalShots` and `totalShots >= 5`;
  - the `tapCount` is at most 1 and the arrow stays within ±60°;
  - which callbacks each phase may have pending;
  - a scheduled sudden-death shot exists only for a tied, complete history;
  - with a goal that catches every shot (`CatchesEveryShot`, which the
    shipped geometry meets), there are no misses, `totalShots` stays 5 and
    no sudden death is ever scheduled.

What the proofs establish beyond one call:

- A keeper who lets the shot through never stands in the blocking bucket
  (`MissAvoidsBlockBucket`). The sign-based fallback applies only to a
  dead-centre ball. Without the aim bound the guarantee fails (`AimBoundIsNeeded`).
- With the shipped geometry, an unblocked ball always ends inside the goal
  frame (`UnblockedShotAlwaysScores`, `ShippedPitchNeverWide`). So "WIDE!" is
  never shown. Every shot is a goal or a save, five shots can never tie
  (`NoMissOddLengthIsDecided`), and the sudden-death branch is never taken
  in the shipped game (`Match.ShippedMatch`, kept by every event).
- What the settings screen saves passes both screens' text checks. The
  settings screen reads it back unchanged (`SaveThenLoad`), and the game
  screen picks up its view mode, difficulty and sound flag
  (`FocusPicksUpSavedSettings`).

Behaviour of the code worth knowing:

- No code path ever sets `gameState` to `'result'`. A shot goes from
  `shooting` straight to `aiming` or `gameOver`, and `Valid()` excludes `Result`.
- The sudden-death callback does not clear the tie message
  (app/index.tsx:489-492). It stays up during the extra shot's aiming.
- After a successful read, the settings screen leaves an absent or blank
  stored string in place and removes only non-blank text that fails the
  checks or the parse. A failed read removes the entry whatever it held
  (app/settings.tsx:112-119); so does the game screen's (app/index.tsx:553-560).
- The game screen's own pre-check is weaker than the settings screen's
  (`{}` passes it). Its merge reads only view mode, difficulty and sound.

## Model

| member | source | states |
|---|---|---|
| Resolver.ShippedPitch | app/index.tsx:31-32 | the shipped goal is 0.8 of the window's width and 0.35 of its height |
| Resolver.ClampAngle | app/index.tsx:75-77 | the aim angle always lies in [-60, 60], equals the raw angle when that is in range, and is the nearer bound otherwise |
| Resolver.KeeperX | app/index.tsx:83-90 | the centre stands at 0; left and right stand a third of the goal width to either side, left negative and right positive |
| Resolver.ClampExample | app/index.tsx:76 | a gesture at 85° aims at 60°, one at -85° at -60° |
| Resolver.SaveRate | app/index.tsx:99 | every difficulty's save probability lies strictly between 0 and 1 |
| Resolver.BlockBucket | app/index.tsx:109-115 | the blocking keeper goes left exactly when the ball is below -GW/4, right exactly when above GW/4, centre exactly when within GW/4 of the middle |
| Resolver.SaveRateIncreasesWithDifficulty | app/index.tsx:99 | easy (0.45) < medium (0.66) < hard (0.75) |
| Resolver.FilterFar | app/index.tsx:121-124 | the filter keeps exactly the listed positions more than GOAL_WIDTH/3 from the ball, and never grows the list |
| Resolver.MissCandidates | app/index.tsx:119-128 | when some position is far, the candidates are exactly the far positions; when none is, the single fallback is left for predictedX >= 0 and right otherwise |
| Resolver.PickIndex | app/index.tsx:130 | `floor(r * n)` for r in [0, 1) is an index below n |
| Resolver.Decide | app/index.tsx:95-135 | the keeper blocks exactly when the first draw is below the save rate; a block targets predictedX from its bucket (left below -GW/4, right above GW/4, else centre); a miss takes the candidate at index floor(pickDraw · count) and targets that position's x |
| Resolver.WrongPositionsUnfold | app/index.tsx:119-124 | the filtered list is left, centre, right in that order, each present exactly when far from the ball |
| Resolver.MissAvoidsBlockBucket | app/index.tsx:106-128 | for a ball within the aim's reach, no miss candidate is the blocking bucket, and the fallback is used exactly for a dead-centre ball |
| Resolver.MissIsFarFromBall | app/index.tsx:119-132 | on a miss the keeper is not in the blocking bucket and, off centre, is more than GW/3 from the ball |
| Resolver.AimBoundIsNeeded | app/index.tsx:96 | for a ball at -GOAL_WIDTH (out of the aim's reach) the left position would be both blocking bucket and miss candidate |
| Resolver.GoalFrame | app/index.tsx:355-358 | the goal rectangle is centred on the window, as wide and as high as the goal, its top at 0.3 of the window's height |
| Resolver.ClassifyFinalPoint | app/index.tsx:354-367 | an unblocked shot is a goal exactly when its final point is inside [goalLeft, goalRight] × [goalTop, goalBottom], a miss otherwise, never a save |
| Resolver.UnblockedFinalPoint | app/index.tsx:244-245 | an unblocked ball rests predictedX right of the window's centre line, at 0.4 of the window's height |
| Resolver.ShotOutcome | app/index.tsx:200-256 | a shot is saved exactly when the keeper decided to block; otherwise it is missed exactly when its resting point is outside the frame |
| Resolver.UnblockedShotAlwaysScores | app/index.tsx:191-192 | a goal at least a tenth of the window high catches every unblocked shot within the aim's reach |
| Resolver.ShippedPitchNeverWide | app/index.tsx:244-246 | with the shipped geometry an unblocked shot always scores |
| Shootout.Count | app/index.tsx:466-467 | a result's count never exceeds the history's length |
| Shootout.CountAppend | app/index.tsx:393 | appending a shot adds one to its own result's count and nothing to the others |
| Shootout.CountsSumToLength | app/index.tsx:466-467 | goals + saves + misses equals the history's length |
| Shootout.NoMissOddLengthIsDecided | app/index.tsx:475-479 | a history of odd length without a miss is never a tie |
| Shootout.Banner.Text | app/index.tsx:476-481 | the overlay text is empty exactly for the blank message |
| Shootout.ResultBanner | app/index.tsx:256 | a recorded shot shows "SAVED!", "GOOOAL!" or "WIDE!" by its result |
| Shootout.FinalBanner | app/index.tsx:466-482 | shooter win when goals > saves, tie when equal, keeper win when fewer, carrying both counts; misses count for neither |
| Shootout.ShooterWinsScenario | app/index.tsx:475-476 | [goal, goal, goal, saved, saved] is a 3-2 shooter win |
| Shootout.TieScenario | app/index.tsx:477-479 | [goal, saved, goal, saved, missed] is a 2-2 tie |
| Shootout.GamePreCheck | app/index.tsx:520-523 | text the game screen accepts is non-blank and at least `{}` long once trimmed |
| Shootout.SettingsCheckIsStricter | app/index.tsx:520-523 | every string the settings screen's pre-check accepts also passes the game screen's |
| Shootout.EmptyBracesPassGameCheckOnly | app/index.tsx:523 | `{}` passes the game screen's check and fails the settings screen's |
| Storage.Truthy | app/index.tsx:527-531 | undefined and null are falsy, a boolean is itself, a string is truthy exactly when non-empty |
| Shootout.MergeStored | app/index.tsx:527-538 | each preference is overwritten only by a valid stored value (a known view-mode or difficulty name, a boolean sound flag) and kept otherwise |
| Shootout.MergeIdempotent | app/index.tsx:526-538 | merging the same stored object twice equals merging it once |
| Shootout.MergeVersusNormalise | app/index.tsx:527-534 | on a valid stored value the game merge and the settings normaliser agree; on an invalid one the merge keeps the current value while the normaliser takes the default |
| Shootout.FocusStep | app/index.tsx:517-560 | the entry is kept or removed, never rewritten; the preferences become the merge exactly when the read succeeded, the text passed the braces check and the parse gave an object, and are kept otherwise; a present entry is removed exactly when the read failed, or the text is non-blank and was not accepted |
| Shootout.FocusPicksUpSavedSettings | app/index.tsx:519-538 | the text the settings screen saves is accepted by the game screen, which takes its view mode, difficulty and sound flag |
| Shootout.Match.constructor | app/index.tsx:40-51 | a match starts aiming, with no shots, 5 total, angle 0, keeper centred, no message, medium, day, sound on, zero statistics, and the invariant |
| Shootout.Match.SetPrefs | app/index.tsx:528-536 | the three preferences become the given ones and the match invariant is kept |
| Shootout.Match.Remaining | app/index.tsx:844 | REMAINING is between 0 and totalShots and is 0 exactly when the history is complete |
| Shootout.Match.Aim | app/index.tsx:73-78 | while aiming the arrow takes the clamped gesture angle; otherwise it is unchanged |
| Shootout.Match.MoveKeeper | app/index.tsx:95-135 | the block ref, the keeper position and the spring target are those of the decision; the destination ref is (predictedX, -0.3·height) |
| Shootout.Match.Shoot | app/index.tsx:180-200 | state becomes shooting with the ball in flight and the keeper's decision committed |
| Shootout.Match.HandleTap | app/index.tsx:160-178 | a tap outside aiming changes nothing; the first tap arms (count 1, reset scheduled) and leaves keeper, refs and flight alone; the second shoots and resets the count to 0 |
| Shootout.Match.TapTimerFires | app/index.tsx:174-176 | the scheduled reset returns a lone tap's count to 0 |
| Shootout.Match.HandleSavedShot | app/index.tsx:251-256 | appends exactly one saved shot with attempt old length + 1, keeps earlier entries, shows "SAVED!" |
| Shootout.Match.CheckGoal | app/index.tsx:354-396 | appends exactly one shot classified by the frame test, attempt old length + 1, with its message |
| Shootout.Match.AnimationComplete | app/index.tsx:200-247 | the landing records the outcome fixed before the flight: saved if blocked, else the frame test at the resting point |
| Shootout.Match.ResetForNextShot | app/index.tsx:443-455 | back to aiming with angle 0 and the keeper centred |
| Shootout.Match.EndGameWithShots | app/index.tsx:462-494 | state becomes gameOver with the verdict shown; sudden death is scheduled exactly on a tie |
| Shootout.Match.ResultTimerFires | app/index.tsx:398-405 | the message clears; the match ends exactly when the history has reached totalShots, leaving arrow and keeper where they were, else play returns to aiming with angle 0 and keeper centred |
| Shootout.Match.SuddenDeathTimerFires | app/index.tsx:488-493 | totalShots becomes the captured value + 1 and play returns to aiming with the history kept; from a valid state this is a tied, complete history gaining exactly one shot |
| Shootout.Match.RestartGame | app/index.tsx:496-513 | games played + 1, win streak + 1 after a win else 0, history empty, totalShots 5, message cleared, aiming, and no sudden death left pending |
| Shootout.Match.RestartGameAsWritten | app/index.tsx:496-513 | the same statistics and reset, but a scheduled sudden-death callback stays pending |
| Shootout.Match.LoadSettingsOnFocus | app/index.tsx:517-561 | the preferences and stored entry become exactly those of `FocusStep` |
| Shootout.StaleSuddenDeathAsWritten | app/index.tsx:488-513 | a 0-0 match over a low goal, restarted during the tie message, gets 6 shots when the stale callback fires |
| Shootout.StaleSuddenDeathCorrected | app/index.tsx:488-513 | with the callback cancelled on restart the fresh match keeps 5 shots |
| JsText.TrimIsInfix | app/settings.tsx:80 | the trimmed text is the infix of the input left after dropping all-white-space prefix and suffix |
| JsText.NatToString | app/index.tsx:476-481 | the rendered count is a string of decimal digits denoting the number, without a leading zero |
| JsText.Trim | app/settings.tsx:80 | the trimmed text neither starts nor ends with white space and is empty exactly when the input is all white space |
| Config.ParseDifficulty | app/settings.tsx:90 | a name is recognised exactly when it is easy, medium or hard, and names the difficulty returned |
| Config.ParseViewMode | app/settings.tsx:91 | a name is recognised exactly when it is day, night or rain, and names the mode returned |
| Config.DifficultyNameRoundTrip | app/settings.tsx:33 | every difficulty parses back from its own name |
| Config.ViewModeNameRoundTrip | app/settings.tsx:34 | every view mode parses back from its own name |
| Preferences.PassesPreCheck | app/settings.tsx:77-83 | text the settings screen hands to the parser is non-blank and at least three characters once trimmed |
| Preferences.OrTrue | app/settings.tsx:88-89 | an absent or null flag becomes true, a present boolean is kept |
| Preferences.DifficultyOr | app/settings.tsx:90 | a known difficulty name is kept, anything else becomes medium |
| Preferences.ViewModeOr | app/settings.tsx:91 | a known view-mode name is kept, anything else becomes day |
| Preferences.Normalise | app/settings.tsx:86-92 | the record is built field by field from the stored fields with those fallbacks |
| Preferences.EmptyObjectGivesDefaults | app/settings.tsx:87-92 | an object without any of the four fields normalises to sound on, vibration on, medium, day |
| Preferences.Stringify | app/settings.tsx:125 | the saved text is a braced object literal whose first character inside is a quote |
| Preferences.Members | app/settings.tsx:125 | the member list begins and ends with a quote |
| Preferences.StringifiedPassesPreCheck | app/settings.tsx:80-83 | a saved record's JSON text is its own trim and passes the pre-check |
| Preferences.NormaliseRoundTrip | app/settings.tsx:87-92 | normalising the parsed copy of a saved record gives the record back |
| Preferences.LoadStep | app/settings.tsx:74-121 | the record is kept or becomes the normalised parsed object; the entry is kept or removed; a load that changes the record keeps the entry |
| Preferences.LoadAdoptsExactlyValidObjects | app/settings.tsx:77-105 | the record changes to the normalised object exactly when the read succeeded, the text passed the pre-check and the parse gave an object; otherwise it is unchanged |
| Preferences.LoadRemovesExactlyRejected | app/settings.tsx:77-120 | a present entry is removed exactly when the read failed, or the text is non-blank and was not accepted |
| Preferences.SaveThenLoad | app/settings.tsx:123-126 | reading back what a save wrote restores the saved record and keeps the entry |
| Preferences.ToggleSound | app/settings.tsx:132-135 | flips the sound flag and keeps the other three fields |
| Preferences.ToggleVibration | app/settings.tsx:137-140 | flips the vibration flag and keeps the other three fields |
| Preferences.WithDifficulty | app/settings.tsx:142-145 | sets the difficulty and keeps the other three fields |
| Preferences.WithViewMode | app/settings.tsx:147-150 | sets the view mode and keeps the other three fields |
| Preferences.ToggleTwice | app/settings.tsx:132-140 | toggling either switch twice restores the record |
| Preferences.SettingsScreen.constructor | app/settings.tsx:51-56 | the screen starts with sound on, vibration on, medium, day |
| Preferences.SettingsScreen.LoadSettings | app/settings.tsx:74-121 | the record and stored entry become exactly those of `LoadStep` |
| Preferences.SettingsScreen.SaveSettings | app/settings.tsx:123-130 | on a successful write the entry holds the record's JSON and the screen takes the record; on failure both are unchanged |
| Preferences.SettingsScreen.HandleSoundToggle | app/settings.tsx:132-135 | saves the record with the sound flag flipped |
| Preferences.SettingsScreen.HandleVibrationToggle | app/settings.tsx:137-140 | saves the record with the vibration flag flipped |
| Preferences.SettingsScreen.HandleDifficultyChange | app/settings.tsx:142-145 | saves the record with the new difficulty |
| Preferences.SettingsScreen.HandleViewModeChange | app/settings.tsx:147-150 | saves the record with the new view mode |

## Findings

| source | as written | input that shows it | evidently intended | confidence | as-written member | corrected member |
|---|---|---|---|---|---|---|
| app/index.tsx:488-513 | `endGameWithShots` schedules `setTotalShots(totalShots + 1)` 2 s after a tie, and `restartGame` (whose button shows during that message) does not cancel it | a match ending level (possible only where a shot can miss, e.g. a goal lower than a tenth of the window), then Restart within 2 s: the fresh match is given 6 shots | the extra shot belongs to the tied match only; a restart drops the pending callback | not executed; latent with the shipped geometry, where no shot misses and five shots cannot tie | Shootout.StaleSuddenDeathAsWritten | Shootout.Match.RestartGame |

## Left out

- Rendering, layout, gradients, rain, stars and crowd are presentation only.
- Springs, timings, ball rotation and bounce (including the random bounce
  offsets of `handleSavedShot`), and the keeper's idle loop with its timers
  are animation only.
- `Math.sin`, `Math.atan2` and the `Date.now`-driven arrow oscillation are
  floating point or time: the predicted x and the raw gesture angle are inputs.
- Floating-point rounding and NaN are not modelled: geometry is exact `real` arithmetic.
- Audio, haptics, console logging, `Linking`, `Alert` and router navigation
  are foreign side effects.
- `JSON.parse` is external: its outcome is an input. `Preferences.Fields`
  states what it returns for saved text, and this is not proved.
- `AsyncStorage.removeItem`'s own failures are not modelled: removal always succeeds.
- Preferences.OrTrue: a present non-boolean flag is kept as-is by `??`,
  which makes the record ill-typed; the model keeps that value's JavaScript truthiness instead.
- Shootout.Match.Aim: the pan responder is created once, so its `gameState` test reads the first render's value; the model tests the current state.
- Setting two React states in one handler is taken as one batched update.
  Stale closures other than the sudden-death callback's captured `totalShots` are not modelled.
- `shotDestinationRef` is written and never read in the source. `Match`
  reads the ball's resting point from it, because it holds the same x and y
  that `shoot` recomputes (app/index.tsx:191-192).
- Scroll-to-section and `measureLayout` in the settings screen are UI plumbing.
- app/privacy.tsx is static text and app/_layout.tsx is navigator wiring; neither is part of this model.
