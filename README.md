# Virtual Bingo turn engine, in Dafny

A model of the turn engine of a 90-ball (traditional Spanish) bingo voice
skill, with proofs of what it promises. The engine:

- draws balls that have not been called yet;
- composes the spoken announcement of each ball;
- calls balls in batches of at most 40 per response, with a progress marker
  ("Van N bolas" / "Llevamos N bolas") whenever the cumulative number of
  called balls reaches a multiple of ten;
- keeps one game record (`active`, `paused`, `speed`, `calledNumbers`,
  `lastNumber`, `startTime`) that the two intent handlers update in place.

Modules, one per file:

- `Optional` (`optional.dfy`): the `Option` type; `None` plays the part of
  `null`.
- `Numerals` (`numerals.dfy`): decimal text of integers and the `", "`
  join, with their parsers, so that texts such as "El 7" or "3, 14, 15" can
  be stated to contain exactly the intended numbers.
- `GameLogic` (`game_logic.dfy`): `lambda/utils/gameLogic.js`. It holds the
  draw (`DrawNumber`, proved to compute the function `Draw`), phrases and
  announcements, the queries, and the game record as the class `GameState`
  with the named constructor `CreateNewGame`.
- `Speech` (`speech.dfy`): the SSML string the handlers build with `+=`,
  kept as the list of pieces appended to it. `Render` gives their text.
- `Pacing` (`pacing.dfy`): the pause table and the speed-message table. Both
  handlers declare the pause table; it is defined here once.
- `Batching` (`batching.dfy`): the 40-iteration `while` loop both handlers
  run.
  - `RunBatch` is the loop, over the `GameState` it mutates.
  - It is proved to compute the pure function `Batch`, and the lemmas about
    `Batch` state what a batch does.
  - The loop is the same in both handlers except for the word of the
    progress marker ("Van" in the continue handler, "Llevamos" in the
    new-game handler), which is a parameter. What each handler does after
    the loop stays in the handler: the end of the game when a draw found the
    drum empty (continue) or a plain `break` (new game), the closing prompt,
    and the reprompt.
- `ContinueHandler` (`continue_handler.dfy`): `handle` of
  `ContinueIntentHandler.js`.
- `StartGameHandler` (`start_game_handler.dfy`): `handle` of
  `StartGameIntentHandler.js`.

Randomness becomes input:

- Each `Math.random()` of `drawNumber` becomes a `pick`. The drawn ball is
  position `pick % n` of the `n` unused balls.
- Each `Math.random() < 0.3` test becomes a boolean `coin`.
- Each ambient choice becomes an `ambientPick`.
- In a batch, iteration `k` uses `rolls(k)`.

The clock reading of `createNewGame` becomes a parameter. The slot value
becomes an `Option<string>`.

The new-game handler computes `numbersLeft` at
`StartGameIntentHandler.js:84` but its prompt at :85 never speaks it: the
prompt is "He cantado los primeros números. Di "sigue" para continuar."
(`StartGameHandler.Handle`, `Speech.Segment.FirstBallsCalled`).

A consequence of the code that the proofs make explicit: a continue batch
that starts at exactly 50 balls draws the last 40 balls without ever finding
the drum empty. The game therefore stays active and says that 0 balls are
left; the next "sigue" ends it (`ContinueHandler.ResumeAt50LeavesNone`).

## Model

| member | source | states |
|---|---|---|
| GameLogic.AvailableMeaning | lambda/utils/gameLogic.js:7-13 | the list built before the choice holds every ball of 1..90 not yet used, once each, ascending, and nothing else |
| GameLogic.DrawNumber | lambda/utils/gameLogic.js:6-21 | the loop that collects the unused balls, then picks one, returns exactly `Draw(used, pick)` |
| GameLogic.DrawMeaning | lambda/utils/gameLogic.js:6-21 | the draw is `null` iff every ball 1..90 is already used; otherwise it is a ball in 1..90 that is not used |
| GameLogic.DrawReachesEveryBall | lambda/utils/gameLogic.js:19-20 | every unused ball is returned for some random choice: no ball is out of reach |
| GameLogic.DrawPicksDiffer | lambda/utils/gameLogic.js:19-20 | distinct random positions below the number of unused balls draw distinct balls |
| GameLogic.AvailableCount | lambda/utils/gameLogic.js:7-13 | with `n` distinct called balls in range, exactly `90 - n` balls are left to draw |
| GameLogic.CalledNumbersBounded | lambda/utils/gameLogic.js:8-9 | a list of distinct balls in 1..90 never holds more than 90 balls |
| GameLogic.AppendDrawn | lambda/handlers/ContinueIntentHandler.js:48-63 | pushing a freshly drawn ball keeps the called list distinct and in range |
| GameLogic.NumberPhraseMeaning | lambda/utils/gameLogic.js:26-28 | a ball's phrase is the table's phrase when the table has a non-empty one, else "El " followed by exactly the ball's decimal text (canonical, and it parses back to the ball); never empty |
| GameLogic.AmbientPhrase | lambda/utils/gameLogic.js:33-36 | the ambient phrase is one of the pool, the chosen one when the choice is in range |
| GameLogic.AnnouncementShape | lambda/utils/gameLogic.js:41-53 | an announcement ends with the ball's phrase; before it is nothing or exactly one ambient phrase of the pool and one space; without ambient phrases it is exactly the ball's phrase |
| GameLogic.CreateNumberAnnouncement | lambda/utils/gameLogic.js:41-53 | the `+=` construction yields the announcement `Announcement` describes |
| GameLogic.VerifyWinningCard | lambda/utils/gameLogic.js:58-61 | true iff every player number occurs in the called list (so true for an empty card) |
| GameLogic.GetGameStats | lambda/utils/gameLogic.js:66-76 | `called` is the list length, `called + remaining` is the total, and `progress` is the integer nearest to `100 * called / total`, halves up |
| GameLogic.HalfwayStats | lambda/utils/gameLogic.js:66-76 | 45 of 90 balls gives called 45, remaining 45, progress 50 |
| GameLogic.Recent | lambda/utils/gameLogic.js:88 | the slice is the last ten numbers (all of them when fewer), a suffix of the list |
| GameLogic.FormatCalledNumbers | lambda/utils/gameLogic.js:81-90 | empty gives the "none yet" message; up to five gives a text that splits back into exactly the list; more gives the "Los últimos números son: " prefix and a text that splits back into the last ten (with `JoinSplit`, these texts are the ", " joins) |
| GameLogic.GameState.CreateNewGame | lambda/utils/gameLogic.js:95-104 | a new game is active, not paused, stores the speed as given and the clock reading, has no called balls and no last ball, and is valid |
| Numerals.ParseNatRoundTrip | lambda/utils/gameLogic.js:27 | the decimal text of a natural number parses back to it |
| Numerals.ParseIntRoundTrip | lambda/utils/gameLogic.js:27 | the decimal text of an integer (with a sign when negative) parses back to it |
| Numerals.SplitJoin | lambda/utils/gameLogic.js:84 | joining a non-empty list of numbers with ", " and splitting the text gives back the same numbers |
| Numerals.JoinSplit | lambda/utils/gameLogic.js:84 | a text that splits into a list (canonical integer fields, separators exactly ", ") is exactly the join of that list, so the split fixes the text |
| Speech.CallText | lambda/handlers/ContinueIntentHandler.js:67-70 | a ball's text is its announcement followed by the full stop and the pause of the game's speed |
| Speech.MarkerText | lambda/handlers/ContinueIntentHandler.js:73-75 | a marker's text is the handler's word, a space, exactly the count's decimal text (canonical, and it parses back to the count), and "bolas" with the one-second pause |
| Speech.BallsLeftText | lambda/handlers/ContinueIntentHandler.js:87-89 | the "quedan" prompt holds exactly the decimal text of the number of balls left (canonical, and it parses back to that number), so "0" when none are left |
| Speech.RenderConcat | lambda/handlers/ContinueIntentHandler.js:40-89 | rendering a list of pieces is concatenating their texts in order, so the piece list stands for the string the handlers build with `+=` |
| Pacing.PauseTime | lambda/handlers/ContinueIntentHandler.js:28-34 | a known speed gets its pause from the table; any other speed gets the "normal" pause "3s" |
| Pacing.SpeedMessage | lambda/handlers/StartGameIntentHandler.js:20-26 | a known speed gets its message; any other speed gets the "normal" message |
| Pacing.SpeedFromSlot | lambda/handlers/StartGameIntentHandler.js:14 | a missing or empty slot means "normal"; any other value is kept unchanged |
| Pacing.TablesAgree | lambda/handlers/StartGameIntentHandler.js:20-44 | the pause table and the message table know the same speeds |
| Batching.SpeechConcat | lambda/handlers/ContinueIntentHandler.js:70-74 | the markers and the announcements of consecutive speech are those of the parts, in order |
| Batching.MultiplesMeaning | lambda/handlers/ContinueIntentHandler.js:73-75 | `Multiples(lo, hi)` lists exactly the multiples of ten above `lo` up to `hi`, ascending |
| Batching.MultiplesConcat | lambda/handlers/ContinueIntentHandler.js:73-75 | the multiples passed from `a` to `b` and then from `b` to `c` are those from `a` to `c` |
| Batching.StepsPrefix | lambda/handlers/ContinueIntentHandler.js:47-78 | the loop only appends, at most one ball per remaining iteration; it stops early only when every ball is called, and otherwise runs every iteration |
| Batching.StepsFresh | lambda/handlers/ContinueIntentHandler.js:48-63 | every ball the loop appends is in 1..90 and differs from every ball before it |
| Batching.StepsFromValid | lambda/handlers/ContinueIntentHandler.js:47-78 | from a valid list the loop keeps it valid, appends `min(remaining iterations, balls left)` balls, and runs out iff fewer balls are left than iterations |
| Batching.StepsProgress | lambda/handlers/ContinueIntentHandler.js:63-75 | the markers the loop adds are exactly the multiples of ten the cumulative count passes, once each, ascending |
| Batching.AnnouncedMeaning | lambda/handlers/ContinueIntentHandler.js:67-70 | one announcement per ball in order, the `k`-th built from ball `k`, that iteration's coin and ambient choice, and the pause |
| Batching.StepsCalls | lambda/handlers/ContinueIntentHandler.js:63-70 | the loop adds exactly the announcements of the balls it draws, in draw order, and no others |
| Batching.BatchOnlyAppends | lambda/handlers/ContinueIntentHandler.js:42-78 | a batch only appends: at most 40 balls, each in range and new; the speech only grows; it stops early only when all 90 are called, otherwise it appends exactly 40 |
| Batching.BatchFromValidState | lambda/handlers/ContinueIntentHandler.js:47-60 | from a valid list a batch keeps it valid, ends with `min(n + 40, 90)` balls, and runs out iff it started above 50 |
| Batching.StepsSpeech | lambda/handlers/ContinueIntentHandler.js:63-75 | the loop's speech is the speech before it followed by exactly, for each ball drawn in order, its announcement with the pause and, right after it when the count reaches a multiple of ten, the marker with the handler's word; nothing else |
| Batching.BatchSpeech | lambda/handlers/ContinueIntentHandler.js:63-75 | a batch's speech is the speech before it plus the `Expected` piece of each new ball (announcement from iteration `k`'s roll with the pause, then the marker with the handler's word when due); so one announcement per new ball in draw order and a marker at each multiple of ten passed |
| Batching.CheckpointsAcrossBatches | lambda/handlers/ContinueIntentHandler.js:73-75 | over two consecutive batches, each with its own pause, marker word and marker-free opening speech, every multiple of ten from the start to the end is announced exactly once, in order |
| Batching.CallBall | lambda/handlers/ContinueIntentHandler.js:63-75 | one iteration after a draw pushes the ball, makes it `lastNumber`, and appends its announcement and the marker when due |
| Batching.NextBall | lambda/handlers/ContinueIntentHandler.js:48-75 | one iteration draws with the current list; on `null` nothing changes; otherwise the ball is pushed, becomes `lastNumber`, and is announced |
| Batching.RunBatch | lambda/handlers/ContinueIntentHandler.js:40-78 | the while loop leaves the called list and the speech `Batch` gives, reports whether a draw found no ball, and leaves `lastNumber` the last ball (unchanged when no ball was drawn) |
| ContinueHandler.Handle | lambda/handlers/ContinueIntentHandler.js:11-95 | no game or an inactive game: the fixed reply and no change; otherwise unpaused, the batch applied, the speed kept; if the drum ran empty, the game ends and the completion text replaces the "quedan" prompt; else the prompt states `90 - length`; a valid game stays valid |
| ContinueHandler.ResumeAt85EndsGame | lambda/handlers/ContinueIntentHandler.js:47-60 | resuming a valid game at 85 balls, after any prior speech (the handler's opening tag included), calls the last 5, adds 5 announcements, and ends the game with all 90 called |
| ContinueHandler.ResumeAt50LeavesNone | lambda/handlers/ContinueIntentHandler.js:85-89 | resuming a valid game at 50 balls, after any prior speech, calls all 90 without running out, so the prompt says 0 are left |
| ContinueHandler.ResumeEndsIffAbove50 | lambda/handlers/ContinueIntentHandler.js:47-89 | after any prior speech, a valid game ends in this batch iff more than 50 balls were called before it; otherwise exactly 40 are added and the prompt states `50 - n` balls left |
| ContinueHandler.NewGameThenContinue | lambda/handlers/StartGameIntentHandler.js:49-71 | a new game's batch ("Llevamos", after the welcome) followed by a "sigue" batch ("Van", after the opening tag) calls 80 distinct valid balls without running out and announces the markers 10 to 80 exactly once each, in order |
| StartGameHandler.Handle | lambda/handlers/StartGameIntentHandler.js:10-92 | a fresh valid game at the slot's speed (default "normal"), active and unpaused, whose called list is the first batch; the speech is the welcome with the speed's message, the batch, and the closing prompt iff the game is active with fewer than 90 balls; the game always has exactly 40 balls, so the speech always ends with the closing tag and the "primeros números" prompt |
| StartGameHandler.MarkersUpTo40 | lambda/handlers/StartGameIntentHandler.js:70-72 | counting from 0 to 40 passes the multiples 10, 20, 30 and 40 |
| StartGameHandler.FirstBatchIsFull | lambda/handlers/StartGameIntentHandler.js:46-86 | a new game's batch, whatever speech comes before it, never runs out: it calls exactly 40 distinct balls in range, adds 40 announcements, and adds the markers 10, 20, 30, 40; so the `break` is never taken and the closing prompt is always spoken |

## Left out

- The voice platform's request routing and response builder (`canHandle`,
  `getRequestType`, `getIntentName`, `getSlotValue`, `speak`, `reprompt`,
  `getResponse`) are not modelled. The slot value is an input, and the
  response is the speech pieces plus the reprompt text.
- Loading and saving the game record (`lambda/utils/persistence`, async) is
  not part of this model. The handlers receive the record, and a save
  happens wherever a handler returns after changing it.
- The contents of the phrase tables (`lambda/data/bingoData`) are not part of
  this model. They are the parameter `PhraseBank`: a map of phrases and a
  non-empty ambient pool.
- `Math.random()` and the floating-point test `< 0.3` are not modelled as
  probabilities. The model states what happens for every choice, not how
  often.
- GameLogic.GetGameStats: requires a positive total; the source divides by the total, so for a total of 0 the progress is `NaN` (no balls called) or `Infinity`, and for a negative total it is a negative number (`Math.round` rounds halves toward +∞); neither case is modelled. Rounding is stated on exact rationals, not on floating-point division.
- GameLogic.GetGameStats: the default argument `totalNumbers = 90` is the constant `TOTAL_NUMBERS`, which callers pass explicitly.
- Pacing.PauseTime: a speed that is not one of the four table keys gets "3s", but in the source a speed naming a member inherited from JavaScript's object prototype ("constructor", "toString", "__proto__") finds that member, which is truthy, and the pause text becomes its string form. Prototype keys are not modelled.
- Pacing.SpeedMessage: likewise, a prototype key such as "constructor" gets the normal message here, while the source would speak the inherited member's string form.
- GameLogic.GameState.CreateNewGame: the default argument `speed = 'normal'` of `createNewGame` is not modelled; the only caller passes a speed, already defaulted to "normal" by `Pacing.SpeedFromSlot`.
- GameLogic.CreateNumberAnnouncement: the default argument `includeAmbient = false` is not modelled; callers pass `includeAmbient` explicitly (both handlers pass `true`).
- GameLogic.NumberPhrase: a table entry is "present" when it is in the map and non-empty, following JavaScript truthiness of strings. Keys inherited from JavaScript's object prototype are not modelled.
- Speech.RenderSegment: the welcome, completion, first-batch and no-game texts are given literally and no lemma states their contents; only the texts that carry a ball, a pause or a number have lemmas (`CallText`, `MarkerText`, `BallsLeftText`).
- Speech.Render: the exact whitespace of the template literals (indentation inside the welcome text) is not reproduced. The order and the words of every piece are.
- Batching.RunBatch: states the called list, the speech and `lastNumber`, but not validity; the handlers state that a valid record stays valid.
- The continue handler's early `return` inside the loop is modelled as leaving the loop (`exhausted`) followed by the same actions after it.
- StartGameHandler.Handle: the unused `numbersLeft` local is not modelled, because it is computed and never spoken.
