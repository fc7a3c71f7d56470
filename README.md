# Pizza Snap: a verified model of the game session

Pizza Snap is a browser reaction game. A pizza appears at one of five fixed
places for a short window. The player catches it by clicking it, or by
pressing the key that matches its place. Each level has 20 appearances, and
the game has 70 levels that get faster as they go. Each catch extends a
streak. The streak sets a multiplier of 1.0 to 3.0, and the multiplier scales
the points of the catch. A missed appearance breaks the streak.

This project models the page script's game-session state machine in Dafny:

- `scoring.dfy` (module `Scoring`): the multiplier in half-units, the base
  value of a catch and `Math.round` of base times multiplier.
- `timing.dfy` (module `Timing`): the visible window, the gap and the ticker
  period of a level.
- `places.dfy` (module `Places`): the table of five positions and the rule
  that says which key catches the pizza at which place.
- `session_model.dfy` (module `SessionModel`): every global of the script as
  one value `SessionState`, with an "armed" flag for each of the two timers.
  Each handler and each timer callback is a transition function. `Inv` is
  the invariant that every transition keeps.
- `runs.dfy` (module `Runs`): any interleaving of clicks, key presses and
  timer firings. A timer that has been cleared never fires. Proves that the
  invariant holds across whole runs and that a level runs exactly 20 ticks.
- `session.dfy` (module `Session`): class `GameSession`. Its fields are the
  script's globals. Its methods perform the handlers' statements in place.
  Each method, handlers and helpers alike, is proved to reach exactly the
  state that the matching `SessionModel` transition describes, and to keep
  `Inv`.
- `wrappers.dfy` (module `Wrappers`): `Option`, which stands in for `null`.

Timers become events. The ticker callback is `Tick(slot)`, and `slot` is the
table index that `Math.random` would have drawn. The hide-timeout callback is
`HideExpire()`. Each callback may run only while its armed flag is set.
The user handlers (start, click, keydown, continue, quit) may run in any
state. So the model also covers orders of events that the page's menu and
results dialog would prevent, and every invariant holds for those too.

The model keeps these behaviours of the code exactly as written:

- `pointsThisLevel` is never reset.
- Continue and quit leave the streak and the multiplier as they are.
- The click handler does not check whether a game is running.
- A tick that finds an armed hide timer drops it without counting a miss.
- The 20th appearance is shown and hidden within the same tick, so it can be
  neither caught nor missed (`SessionModel.LastAppearanceUncatchable`).
- When continue returns to the menu, it does not clear the timers.

`pendingNext` is `null` or a level number. The model writes `null` as 0.

## Model

| member | source | states |
|---|---|---|
| Scoring.MultiplierHalves | script.js:210-212 | the multiplier is 1.0 to 3.0 (2..6 half-units); it is 3.0 exactly from a streak of 12, and 1.0 below a streak of 3 |
| Scoring.MultiplierMonotone | script.js:212 | the multiplier never decreases as the streak grows |
| Scoring.MultiplierStep | script.js:212 | three more catches raise the multiplier by 0.5, up to the cap of 3.0 |
| Scoring.BasePoints | script.js:248 | the base is 10 plus the floor of 1.5 times the level, characterised by the floor's defining inequality |
| Scoring.RoundHalves | script.js:249 | the result is `Math.round` of base times multiplier: the integer within half a point of it, rounding halves up |
| Scoring.CatchPoints | script.js:247-249 | a catch is worth at least the base and is the rounded product of base and multiplier |
| Scoring.CatchPointsMonotone | script.js:249 | a larger multiplier never gives fewer points at the same level |
| Scoring.ScoringExamples | script.js:247-249 | level 1 at streak 1 gives 11, at streak 3 or 4 gives 17; level 10 at streak 1 gives 25; level 70 at full multiplier gives 345 |
| Timing.VisibleMs | script.js:139 | the visible window is the larger of 300 and 1000 - (level-1)*10 |
| Timing.GapMs | script.js:140 | the gap is the larger of 150 and 500 - (level-1)*5 |
| Timing.IntervalMs | script.js:141 | the ticker period is at least 450 and longer than the visible window |
| Timing.TimingNonIncreasing | script.js:139-141 | window, gap and period never grow with the level |
| Timing.TimingLinearWithinGame | script.js:139-141 | over levels 1..70 neither floor is reached: the window is at least 310 and the gap at least 155 |
| Places.IndexOf | script.js:17-23 | every place has an entry in the position table that carries its name |
| Places.PositionsDistinct | script.js:17-23 | no two table entries share a name |
| Places.CatchKeys | script.js:227-232 | every place has at least one catching key |
| Places.KeyMatches | script.js:226-232 | a key matches exactly when it is a catching key of the current place; with no current place, no key matches |
| Places.KeyDeterminesPlace | script.js:227-232 | no key catches the pizza at two different places |
| SessionModel.Init | script.js:7-32 | the page starts at level 1 with score 0, not running, both timers idle, high score as stored, invariant established |
| SessionModel.Start | script.js:35-42 | start is a no-op while running; otherwise the game runs and the current level starts at tick 0 |
| SessionModel.StartLevel | script.js:117-143 | starting a level zeroes the tick count and the hits, cancels the hide timer and arms the ticker for that level |
| SessionModel.Tick | script.js:143-196 | a tick shows the pizza at the drawn place, drops an armed hide timer without a miss, arms a new one and counts the tick; the 20th tick stops both timers, hides the pizza and makes level+1 pending |
| SessionModel.HideExpire | script.js:164-173 | a hide expiry hides the pizza and resets streak and multiplier if uncaught; score, level points, hits and high score are unchanged |
| SessionModel.Award | script.js:247-256 | score and level points grow by the same positive catch points; the high score becomes the larger of itself and the new score |
| SessionModel.MarkCaught | script.js:204-212 | the first steps of a catch cancel the hide timer, mark the appearance caught, extend the streak by one and set the multiplier from the new streak, leaving score, hits and visibility alone |
| SessionModel.Catch | script.js:202-215 | a catch cancels the hide timer, marks the appearance caught, extends the streak, sets the multiplier from it, adds the catch points, counts one hit and hides the pizza |
| SessionModel.Click | script.js:200-219 | a click catches exactly when the pizza is shown, whether or not a game is running |
| SessionModel.KeyDown | script.js:222-244 | a key press changes the state only when the game runs, the pizza is shown and the key matches its place, and then it is a catch |
| SessionModel.Continue | script.js:69-89 | continue starts the pending level if it is non-null and at most 70; otherwise it returns to the menu with level 1 and score 0, leaving the timers untouched; streak and high score are kept |
| SessionModel.Quit | script.js:91-102 | quit clears both timers and returns to the menu with level 1 and score 0; streak, high score and pizza visibility are kept |
| SessionModel.StartKeepsInv | script.js:35-42 | start keeps the session invariant |
| SessionModel.TickKeepsInv | script.js:143-196 | a tick of the armed ticker keeps the session invariant |
| SessionModel.HideExpireKeepsInv | script.js:164-173 | an armed hide timer always belongs to an uncaught appearance, so its expiry always records a miss; the invariant is kept |
| SessionModel.ClickKeepsInv | script.js:200-219 | a click keeps the session invariant, so a level never counts more than 20 hits |
| SessionModel.KeyDownKeepsInv | script.js:222-244 | a key press keeps the session invariant |
| SessionModel.ContinueKeepsInv | script.js:69-89 | continue keeps the level within 1..70 and the invariant |
| SessionModel.QuitKeepsInv | script.js:91-102 | quit keeps the session invariant, including high score at least score |
| SessionModel.CatchKeepsInv | script.js:202-215 | catching a shown pizza keeps the session invariant, both after the marking steps and after the whole catch |
| SessionModel.CatchIsFinal | script.js:202-215 | after a catch, a second click or key press is a no-op and no hide timer is armed: one appearance gives at most one hit and never also a miss |
| SessionModel.FirstCatchScenario | script.js:247-249 | the first catch of a streak at level 1 scores 11 at multiplier 1.0 |
| SessionModel.LastAppearanceUncatchable | script.js:177-189 | the 20th appearance cannot be clicked or keyed, and leaves no hide timer |
| Runs.Step | script.js:35-244 | each event runs its handler: start, continue, quit, click and keydown in any state, the ticker and hide callbacks only while armed; a timer event whose timer has been cleared (by startLevel, a tick, a catch, the 20th tick or quit) changes nothing |
| Runs.StepKeepsInv | script.js:143-244 | every event keeps the session invariant |
| Runs.RunKeepsInv | script.js:7-32 | every sequence of events keeps the session invariant |
| Runs.HighScoreNeverDrops | script.js:253-256 | the high score never decreases over any run |
| Runs.ReachableBounds | script.js:7-32 | from page load, after any events: level in 1..70, 0 <= score <= high score, high score at least the stored one, at most 20 hits per level, multiplier 1.0 to 3.0 |
| Runs.StartLevelPhase | script.js:117-143 | a level starts at tick 0 with the ticker armed |
| Runs.LevelRunsTwentyTicks | script.js:177-195 | within a level, the tick count is the number of ticker firings capped at 20; the ticker is armed exactly below 20; from the 20th on, the pizza is hidden, no hide timer is armed, and level+1 is pending |
| Runs.QuitSilencesTimers | script.js:91-102 | after quit, no sequence of timer firings changes the state |
| Session.GameSession.constructor | script.js:7-32 | the object starts in the initial state |
| Session.GameSession.Start | script.js:35-42 | the start handler reaches `SessionModel.Start` of the old state and keeps the invariant |
| Session.GameSession.StartLevel | script.js:117-143 | `startLevel` reaches `SessionModel.StartLevel` of the old state |
| Session.GameSession.Tick | script.js:143-196 | the ticker callback reaches `SessionModel.Tick` of the old state |
| Session.GameSession.HideExpire | script.js:164-173 | the hide callback reaches `SessionModel.HideExpire`, and always leaves streak 0 and multiplier 1.0 |
| Session.GameSession.AwardPoints | script.js:247-256 | `awardPoints` reaches `SessionModel.Award` of the old state and keeps the invariant |
| Session.GameSession.CatchTarget | script.js:202-215 | the shared catch steps, run on a shown pizza, reach `SessionModel.Catch` of the old state and keep the invariant |
| Session.GameSession.Click | script.js:200-219 | the click handler reaches `SessionModel.Click` and keeps the invariant |
| Session.GameSession.KeyDown | script.js:222-244 | the keydown handler's five sequential tests reach `SessionModel.KeyDown`, which uses the single matching rule |
| Session.GameSession.Continue | script.js:69-89 | the continue handler reaches `SessionModel.Continue` and keeps the invariant |
| Session.GameSession.Quit | script.js:91-102 | the quit handler reaches `SessionModel.Quit`; afterwards neither timer is armed |

## Left out

- Page elements and styling: element lookup, the pizza's `top`, `left` and `transform` styles, HUD text and `toFixed`, and the results, menu and rules dialogs. They are presentation only. A `visible` flag stands for the pizza's display style.
- What the page's dialogs allow: the menu and the results dialog decide when start, continue and quit can be clicked. The model lets these handlers run in any state, which is more general.
- Audio: `ensureAudio`, `playDropSound`, `playZeroSound`, and the click sound played on every document click. They are Web Audio calls. `hitsThisLevel` at level completion still shows when the zero-hit cue plays.
- `showPointsPop`: it computes floating-point geometry for a floating label and removes the label with its own timer.
- `alert` calls: the every-tenth-level notice and the "finished all levels" message. They do not change the state.
- Reading and writing the high score in `localStorage`. The stored value becomes the constructor's `storedHigh`, and the write has no effect on the state.
- Session.GameSession.constructor: requires the stored high score to be non-negative. The game only ever stores scores, but hand-edited storage could hold a negative number, and then the score could start above the high score.
- SessionModel.Init: requires the stored high score to be non-negative, for the same reason as the constructor.
- Runs.ReachableBounds: requires the stored high score to be non-negative, for the same reason as the constructor.
- `Math.random`: the drawn table index is the `slot` parameter of `Tick`.
- Real time: the model has no clock. The intervals appear only as the `Timing` functions of the level. The event loop's ordering becomes any order of events in which a cleared timer never fires.
