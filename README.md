# Logic Master: game session and user data service

Logic Master is a browser quiz game about logical reasoning. This project
models its two central components in Dafny and proves properties of them.

- **The game session** (game-logic.js) is one mutable `gameState` record and
  the operations that drive it:
  - start a game over generated questions, or start the daily challenge;
  - show a question;
  - submit an answer, with its score, streak and response time;
  - skip a question;
  - buy a hint for 50 coins;
  - the 30-second countdown;
  - end the game, which builds the results object (accuracy, per-type
    mastery, coins and experience) and hands it to the data service.
- **The data service** (data-service.js) keeps the player's profile and its
  persisted copy. It offers:
  - creating the default profile and loading or saving it;
  - the shallow merge of `updateUserData`;
  - recording a session, which updates the cumulative statistics with the
    50-entry history, the four achievements and the learning profile (the
    five most recent strengths and weaknesses);
  - coins, and experience with the recursive level-up.

The model is split into six modules:

- `JsValues`: JavaScript numbers as `real`, with `Math.round`, NaN and
  truthiness.
- `Sessions`: the answer log, correct counts, streaks and the grouping of
  answers by question type.
- `Questions`: the question types, the bank choice and the generation loop.
- `UserRecords`: the profile as a value, and every update rule as a function
  with lemmas about it.
- `DataServices`: the service as a class.
- `GameLogic`: the session as a class, with a ghost `State()` snapshot and
  pure transition functions.

Every method of the two classes is proved to move the state exactly as its
transition function says. The lemmas prove the following about those
functions:

- the session invariant (`ValidState`) is preserved;
- the counters, streak and score always agree with the answer log;
- the rewards are never negative;
- a consistent profile stays consistent;
- level-ups conserve experience.

Numbers follow JavaScript: `Math.round(x)` is `floor(x + 0.5)`, and `0/0` is
NaN (`Num.NaN`). The clock (`Date.now()`) is an integer parameter in
milliseconds. The countdown tick and the 2-second feedback delay are methods
that the environment calls.

## Model

| member | source | states |
|---|---|---|
| JsValues.Round | game-logic.js:155 | `Math.round`: the integer `r` with `r <= x + 0.5 < r + 1` |
| JsValues.Mean | data-service.js:175-176 | the mean of a list of times is a number exactly when the list is non-empty, NaN otherwise |
| JsValues.FractionBounds | game-logic.js:497 | a count divided by a larger or equal positive count lies in [0, 1], times the whole gives the part back, is 1 for the whole and 0 for nothing |
| Sessions.CorrectCount | data-service.js:165 | the number of correct answers is at most the number of answers, and equal to it exactly when every answer is correct |
| Sessions.TrailingRunIsMaximal | game-logic.js:150-166 | the current streak is a run of correct answers ending the log, and no longer such run exists |
| Sessions.LongestRunIsMaximal | data-service.js:209-227 | the session's longest streak is the length of some run of correct answers, and no run is longer |
| Sessions.TrailingWithinLongest | data-service.js:212-222 | the current streak never exceeds the longest streak |
| Sessions.LongestCorrectStreak | data-service.js:212-222 | the `currentStreak`/`maxStreak` loop returns the longest run of correct answers |
| Sessions.DistinctKeysSound | game-logic.js:505-512 | the type keys in first-appearance order repeat no key, include every answer's key, and include only keys that some answer carries |
| Sessions.AbsentKey | data-service.js:263-269 | a key that no answer carries has an empty tally |
| Sessions.PresentKey | data-service.js:263-269 | a key that some answer carries has at least one answer in its tally |
| Sessions.PerformanceStep | data-service.js:262-279 | one more answer adds to its own type's tally only: one more total, one more correct when it is correct, its time when positive |
| Sessions.FindType | data-service.js:263 | the lookup of a tally finds the first entry with the key, or reports that there is none |
| Sessions.TallyStep | data-service.js:262-279 | the tallies after one more answer: an empty tally appended for a new key, then the answer counted in its key's tally, all others unchanged |
| Sessions.GroupByType | data-service.js:262-279 | the grouping loop yields, per key in first-appearance order, that key's correct count, total and positive response times |
| Sessions.SumCountsStep | game-logic.js:512 | over distinct keys, one more answer adds one to the summed counts exactly when its key is listed |
| Sessions.SumTotalsOfKeys | game-logic.js:512 | the totals of the tallies built for a list of keys add up to the answer counts of those keys |
| Sessions.SumCountsDistinct | game-logic.js:505-516 | the answer counts over the distinct keys add up to the number of answers |
| Sessions.TotalsCoverAnswers | game-logic.js:505-516 | the per-type totals add up to the number of answers: every answer is counted exactly once |
| Sessions.PerformanceWellFormed | game-logic.js:519-521 | every tally is non-empty and counts no more correct answers than answers, so each mastery division is defined |
| Sessions.Mastery | game-logic.js:519-521 | the mastery percentage lies in 0..100, is 100 when every answer of the type is correct and 0 when none is |
| Questions.TypeNamed | game-logic.js:333 | `questionTypes[key]` finds the type whose own property name is `key`, and finds nothing for any other key that is not an inherited property name (see Left out) |
| Questions.BankIndex | game-logic.js:737 | the bank entry picked for a difficulty is one of the three, at most `3d`, and the floor of `3d` when that is below the last index |
| Questions.BankIndexMonotone | game-logic.js:737 | a harder difficulty never picks an earlier bank entry |
| Questions.TargetKey | game-logic.js:332 | the type key is undefined exactly when the target list is empty, and otherwise one of the targets |
| Questions.GeneratorOf | game-logic.js:333 | the generator is the named type's, or deduction when the key names no type or is undefined |
| Questions.Clamp | game-logic.js:337-340 | the clamped difficulty lies in the type's range, and a difficulty already inside it is kept |
| Questions.QuestionAt | game-logic.js:330-348 | the `i`-th question has the rotated type key, a difficulty inside its generator's range, and the right answer of the bank entry that difficulty picks |
| Questions.GenerateQuestions | game-logic.js:307-351 | the loop builds exactly `count` questions, the `i`-th being `QuestionAt(i)` |
| Questions.TypesRotate | game-logic.js:332 | question types repeat with the period of the target list |
| Questions.DifficultyNonDecreasing | game-logic.js:336-340 | for a non-negative starting difficulty, a later question of the same generator is at least as hard |
| Questions.GeneratedDifficultyBounds | game-logic.js:336-340 | every generated difficulty lies within [0.2, 1.0], whatever the starting difficulty |
| UserRecords.Ratio | data-service.js:172 | the cumulative accuracy is NaN exactly when no question was ever answered, and otherwise lies in [0, 1] |
| UserRecords.CreateDefaultUserData | data-service.js:30-104 | the new profile is consistent, at level 1 with 0 experience and 1000 coins, with no games, and with every achievement at progress 0 and not completed |
| UserRecords.TimedResponses | data-service.js:175 | only positive response times are kept, and none are added |
| UserRecords.AppendBounded | data-service.js:189-201 | the history gets the new entry last and keeps the latest `min(n + 1, 50)` entries in order |
| UserRecords.RunningAverage | data-service.js:178-186 | a stored mean of 0 or NaN is replaced by the session mean; otherwise `r·n = old·(n-1) + session`, and a NaN session mean makes it NaN |
| UserRecords.StatsAfterEffect | data-service.js:154-202 | a session keeps the statistics consistent, counts one more game and its questions, never lowers the best score, sets it to the old best or this score, and ends the history with this session's entry |
| UserRecords.FirstSessionAverage | data-service.js:178-186 | on a fresh profile the first session stores its own mean response time |
| UserRecords.UntimedSessionPoisonsAverage | data-service.js:175-186 | a session with no timed answer makes the stored mean NaN, and the next timed session then replaces it with its own mean |
| UserRecords.Apply | data-service.js:224-251 | applying a rule keeps an achievement's id, type and target |
| UserRecords.ApplyProgress | data-service.js:224-235 | streak and accuracy progress never drop and reach the session's value; games progress is `min(totalGames, target)`; for these three, completed exactly when progress reaches the target |
| UserRecords.ApplySpeed | data-service.js:238-245 | speed progress is at most 100, never drops below the old progress (capped at 100), and completed means this session's mean time is at most 5 |
| UserRecords.CompletionSticky | data-service.js:224-251 | a completed streak, accuracy or games achievement stays completed |
| UserRecords.SpeedCompletionCanRevert | data-service.js:244 | a completed speed achievement is cleared by a session averaging 6 seconds, while its progress stays 100 |
| UserRecords.SpeedAtFourSeconds | data-service.js:241-244 | a mean of 4 seconds completes the speed achievement and caps its progress at 100 |
| UserRecords.SpeedAtZeroSeconds | data-service.js:241-244 | a mean of 0 seconds completes the speed achievement with progress 100, because the divisor is raised to 1 |
| UserRecords.FindAchievement | data-service.js:209 | `find` returns the first achievement with the id, or none when no achievement has it |
| UserRecords.UpdateAchievement | data-service.js:230-235 | updating one achievement keeps the list's length, ids and targets |
| UserRecords.FindAfterUpdate | data-service.js:205-253 | the later lookups by id are not disturbed by the earlier updates |
| UserRecords.UpdateAt | data-service.js:230-235 | an update changes only the first achievement with its id |
| UserRecords.AchievementsAfterAt | data-service.js:205-253 | each achievement is changed by at most the one rule its id selects, and only the first with that id is |
| UserRecords.AchievementsMonotone | data-service.js:205-253 | streak, accuracy and games progress never drop over a session; achievements with other ids are unchanged |
| UserRecords.StreakScenario | data-service.js:212-226 | answers running 3 correct, 1 wrong, 2 correct give a longest streak of 3 and streak progress 3 |
| UserRecords.QuotientCompare | data-service.js:294-307 | comparing `correct/total` with a threshold is comparing `correct` with the threshold times `total` |
| UserRecords.Thresholds | data-service.js:294-307 | strength means `100·correct >= 85·total`, weakness means `10·correct < 7·total`, and no type is both |
| UserRecords.StrengthsOfSound | data-service.js:285-299 | a type's entry is among this session's strengths exactly when its accuracy is at least 85%, and no type appears twice |
| UserRecords.WeaknessesOfSound | data-service.js:285-307 | a type's entry is among this session's weaknesses exactly when its accuracy is below 70%, and no type appears twice |
| UserRecords.WithoutTypesOf | data-service.js:316-318 | the filter keeps exactly the earlier entries whose type this session did not produce |
| UserRecords.KeptPositionsSound | data-service.js:316-318 | the positions the filter keeps are strictly increasing, each holds an entry of a type this session did not produce, and every such position is among them |
| UserRecords.WithoutTypesOfInOrder | data-service.js:316-318 | the filter keeps the earlier entries in their stored order: its `k`-th entry is the entry at the `k`-th kept position |
| UserRecords.MergeRecent | data-service.js:315-327 | the merged list holds at most five entries, starts with this session's entries, and continues with the filtered earlier entries in order, from the first on |
| UserRecords.MergeRecentInOrder | data-service.js:315-327 | the merged list is this session's entries followed by the earlier entries at the kept positions, in increasing position order, cut at five |
| UserRecords.TypeOfMember | data-service.js:316-318 | an entry's type is among the types of any list that holds it |
| UserRecords.LastTypeIsNew | data-service.js:316-318 | in a list without repeated types, the last type does not occur earlier |
| UserRecords.AppendNewType | data-service.js:316-318 | appending an entry of a new type keeps a list free of repeated types |
| UserRecords.WithoutTypesOfNoDuplicates | data-service.js:316-318 | filtering keeps a list free of repeated types |
| UserRecords.MergeRecentNoDuplicates | data-service.js:315-327 | the merged list repeats no type when neither input does |
| UserRecords.ProfileAfterOrder | data-service.js:284-327 | after the profile update, each list starts with this session's qualifying entries in key order and continues with the earlier entries of other types in their stored order |
| UserRecords.ProfileAfterConsistent | data-service.js:256-328 | the profile update keeps both lists at most five long and free of repeated types |
| UserRecords.EffectiveLevel | data-service.js:363 | `level \|\| 1` is at least 1 |
| UserRecords.LevelUp | data-service.js:360-384 | after levelling up, the experience is below the cost of the current level, level and coins never drop, and non-negative experience stays non-negative |
| UserRecords.LevelUpConserves | data-service.js:360-384 | level-ups neither create nor destroy experience (`250·L·(L-1) + xp` is invariant), and they pay one fifth of the experience consumed as coins |
| UserRecords.RecordGameConsistent | data-service.js:134-151 | recording a session keeps a profile consistent, appends the session to the history, and counts one more game |
| UserRecords.GamesCountIncludesSession | data-service.js:248-252 | the games achievement reads the game count that includes this session |
| UserRecords.RewardsConsistent | data-service.js:331-357 | non-negative coins and any experience keep a profile consistent, and never lower its level or balance |
| UserRecords.AfterSessionConsistent | game-logic.js:546-550 | recording the session and then adding its coins and experience keeps a profile consistent, appends to its history, and never lowers its level or balance |
| UserRecords.MergeLaws | data-service.js:128-131 | the shallow merge is idempotent, a patch carrying every property replaces the profile, and a profile turned into a patch round-trips |
| DataServices.ClassifyTypes | data-service.js:285-308 | the classification loop yields the strengths and weaknesses of the tallies in key order |
| DataServices.DataService.constructor | data-service.js:4 | the service starts with no profile over the given storage entry |
| DataServices.DataService.Initialize | data-service.js:7-27 | a stored profile is loaded; with none, the default profile is created and saved; an unparsable entry fails and changes nothing |
| DataServices.DataService.SaveUserData | data-service.js:112-120 | storage then holds the current profile, which is unchanged |
| DataServices.DataService.UpdateUserData | data-service.js:128-131 | the profile becomes the shallow merge of the patch (the patch itself without a profile), and is saved |
| DataServices.DataService.SaveGameResults | data-service.js:134-151 | refused without a profile; otherwise the session is recorded and saved, and a consistent profile stays consistent |
| DataServices.DataService.UpdateUserStats | data-service.js:154-202 | only the statistics change, to `StatsAfter` |
| DataServices.DataService.CheckAchievements | data-service.js:205-253 | only the achievements change: the four checks in order, with the game count already updated |
| DataServices.DataService.UpdateLearningProfile | data-service.js:256-328 | only the learning profile changes: each list becomes this session's strengths (weaknesses), followed by the earlier entries of other types in their stored order, cut at five |
| DataServices.DataService.AddCoins | data-service.js:331-336 | refused without a profile; otherwise the balance grows by the amount, and the profile is saved |
| DataServices.DataService.DeductCoins | data-service.js:339-345 | succeeds exactly when there is a profile with at least the amount; then the balance drops by it and stays non-negative; otherwise nothing changes |
| DataServices.DataService.AddExperience | data-service.js:348-357 | refused without a profile; otherwise the experience is added and levelled up, the profile is saved, and a consistent profile stays consistent |
| DataServices.DataService.CheckLevelUp | data-service.js:360-384 | the profile ends at `LevelUp` of its level, experience and coins, and the call reports a level-up exactly when the experience covered the current level |
| GameLogic.QuestionScoreBounds | game-logic.js:150-166 | a correct answer scores 10 to 210 points, and the streak bonus is full from the fifth answer of a run on |
| GameLogic.QuestionScoreNonNegative | game-logic.js:150-159 | a correct answer to a question of non-negative difficulty never costs points, whatever its response time and streak |
| GameLogic.SessionScoreGrows | game-logic.js:150-166 | one more answer never lowers a session's score, and a wrong or skipped one leaves it unchanged |
| GameLogic.SessionScoreNonNegative | game-logic.js:150-166 | a session's score is never negative, and is 0 without a correct answer |
| GameLogic.ScoreNeverDecreases | game-logic.js:150-203 | from a valid open question, submitting never lowers the score and a correct answer raises it; skipping to the next question keeps it |
| GameLogic.UntimedGameCompletesSpeed | game-logic.js:498-500 | a game that recorded no response time reports a mean of 0 seconds, which completes the speed achievement with progress 100 |
| GameLogic.MasteryTable | game-logic.js:503-521 | one mastery entry per type key in first-appearance order, with that type's correct count, total and a percentage in 0..100 |
| GameLogic.CoinReward | game-logic.js:524-526 | the coin reward is the score part plus 0 to 100 for accuracy, and exactly 100 for a perfect session |
| GameLogic.ExperienceReward | game-logic.js:528-530 | the experience is at least the score part, and only the score part once the game took five minutes or more |
| GameLogic.SessionResultsRewards | game-logic.js:495-544 | the results' accuracy is the share of correct answers in [0, 1]; their coins and experience are not negative and are bounded as above |
| GameLogic.GeneratedPlayable | game-logic.js:330-348 | generated questions have non-negative difficulties and real options as right answers |
| GameLogic.ResetState | game-logic.js:281-305 | the reset stops the countdown and the game, empties the questions and answers, zeroes the score and keeps the mode |
| GameLogic.ShowKeepsValid | game-logic.js:360-371 | showing the next question of a game with one answer per earlier question keeps the session invariant, and so does ending it past the last |
| GameLogic.BeginKeepsValid | game-logic.js:82-115 | a game begun over playable questions satisfies the invariant once its first question is shown |
| GameLogic.SubmitKeepsValid | game-logic.js:118-185 | submitting on an open question keeps the invariant: total correct, streak and score follow the new answer, and the countdown stops |
| GameLogic.SkipKeepsValid | game-logic.js:188-217 | recording a skip and moving on keeps the invariant |
| GameLogic.FeedbackKeepsValid | game-logic.js:172-182 | the end of the feedback delay keeps the invariant, whether it shows the next question or ends the game |
| GameLogic.FinishedCounts | game-logic.js:497 | at the end of a full game there is one answer per question, and the correct counter is the number of correct answers |
| GameLogic.AccuracyShare | game-logic.js:497 | the session accuracy times the number of questions is the number of correct answers; it lies in [0, 1] and is 1 exactly for a perfect game |
| GameLogic.ResultsRewardsNonNegative | game-logic.js:524-530 | in a session state that keeps the invariant's counters, the score, coins and experience of the results are not negative |
| GameLogic.EndKeepsProfileConsistent | game-logic.js:546-550 | ending a game keeps a consistent profile consistent, and appends the results to its history |
| GameLogic.GameSession.constructor | game-logic.js:6-25 | the initial `gameState`, which satisfies the invariant |
| GameLogic.GameSession.ResetGameState | game-logic.js:281-305 | every field is back at its initial value except the mode, and the invariant holds |
| GameLogic.GameSession.ResetProgress | game-logic.js:288-301 | difficulty 0.5, and score, index, questions, answers and streak cleared |
| GameLogic.GameSession.ResetAnswer | game-logic.js:298-304 | the answered flag, selection, counters and response times cleared |
| GameLogic.GameSession.ResetClock | game-logic.js:283-297 | countdown stopped, clock readings cleared, 30 seconds left, game inactive |
| GameLogic.GameSession.StartGame | game-logic.js:82-115 | the questions are the generated ones, at the engine's difficulty and types when there is a profile and at 0.5 over all eight types otherwise; the first question is open and the invariant holds |
| GameLogic.GameSession.StartDailyChallenge | game-logic.js:243-261 | a daily game over the three challenge questions begins with its first question open and the countdown at 30 seconds |
| GameLogic.GameSession.Begin | game-logic.js:85-89 | mode, difficulty, questions and their number set, game active, start time recorded |
| GameLogic.GameSession.OpenQuestion | game-logic.js:365-420 | the state moves as `ShowState` says for an index inside the questions |
| GameLogic.GameSession.PresentQuestion | game-logic.js:365-371 | the question index set, answer cleared, question start time recorded |
| GameLogic.GameSession.StartCountdown | game-logic.js:403-420 | 30 seconds left and the countdown running |
| GameLogic.GameSession.ShowQuestion | game-logic.js:360-421 | an index inside the questions opens it without touching the profile; past the last, the game ends and the profile records the session |
| GameLogic.GameSession.SubmitAnswer | game-logic.js:118-185 | accepted exactly when a question is open; then the state moves as `SubmitState` says, otherwise nothing changes; the invariant holds |
| GameLogic.GameSession.AnswerQuestion | game-logic.js:123-166 | the accepted branch moves the state as `SubmitState` says |
| GameLogic.GameSession.RecordAnswer | game-logic.js:133-147 | the question marked answered with its selection, and the response time and answer record appended |
| GameLogic.GameSession.ScoreAnswer | game-logic.js:150-166 | a correct answer adds one to the total correct and the streak, and adds its points scored with the new streak; a wrong one resets the streak |
| GameLogic.GameSession.FeedbackElapsed | game-logic.js:172-182 | after the delay the next question opens, or the game ends after the last and the profile records the session; the invariant holds |
| GameLogic.GameSession.SkipQuestion | game-logic.js:188-217 | accepted exactly when a question is open; then a skip is recorded, the streak broken and the next question shown or the game ended; the invariant holds |
| GameLogic.GameSession.RecordSkip | game-logic.js:196-206 | a skipped answer record appended and the streak reset |
| GameLogic.GameSession.RequestHint | game-logic.js:220-235 | a hint exactly when a question is open and the profile holds at least 50 coins, which are then deducted; the question's own hint when it has one, the generic one otherwise; otherwise nothing changes |
| GameLogic.GameSession.CountdownTick | game-logic.js:411-418 | a stopped countdown does nothing; otherwise one second less, and at zero the countdown stops and the question is skipped; the invariant holds |
| GameLogic.GameSession.Tick | game-logic.js:412-416 | one second less, and the countdown stopped once none is left |
| GameLogic.GameSession.EndGame | game-logic.js:489-554 | the results are computed from the state, the countdown stopped and the game closed, and the profile records the session, then its coins, then its experience |
| GameLogic.GameSession.Summarize | game-logic.js:495-544 | the results object built from the current state, changing nothing |

## Left out

- Screen updates, animations, notifications, the results screen and the charts (DOM work) are not modelled. Of `showResultsScreen`, only its reset of `isGameActive` (game-logic.js:577) is kept, as the last step of `EndGame`.
- Timers are events: the interval tick is `CountdownTick` and the 2-second feedback delay is `FeedbackElapsed`. The model neither schedules them nor delivers callbacks late or twice. The environment calls them only while their preconditions hold.
- The clock is a parameter. A result's `date` is the millisecond reading instead of an ISO string, and so is the history entry's date.
- Floating point is exact `real` arithmetic. Rounding errors of IEEE doubles (`0.1 * 3`, the weighted running mean) are not modelled.
- Storage is an exact round trip. The entry under `logicMasterUserData` is absent, unparsable or a profile. Failures of `localStorage.setItem` are not modelled, so a save always succeeds. JSON does not in fact preserve every profile. `JSON.stringify` writes NaN (`averageResponseTime`, `averageAccuracy`, a profile entry's `avgTime`) as `null`, and drops a `questionType` that is `undefined`. The model keeps NaN and the `"undefined"` key across a save and load. The behaviour is unchanged: `null` and NaN are both falsy at data-service.js:178, and no other read of these fields is part of the model.
- The AI engine (ai-engine.js) is not part of this model. Its difficulty and recommended types are parameters of `StartGame`.
- The random user id and user name of `createDefaultUserData` are parameters.
- Question texts, options and explanations are not modelled. A question keeps only its type key, difficulty, right option and whether it has its own hint.
- The `|| 0` / `|| []` fallbacks for missing profile fields are not modelled. A profile always has every field, as the default profile and every update produce.
- `getUserData`, and the per-date cache of `getDailyChallenge` (data-service.js:386-403), are not modelled. `StartDailyChallenge` takes the fixed challenge of data-service.js:409-453 directly, and the failure branch of the promise is left out.
- `startStoryMode` and `startTeamChallenge` only switch screens and are not modelled.
- DataServices.DataService.UpdateUserData: requires a loaded profile or a patch carrying every property, because the model has no partial profile for `{ ...null, ...patch }`.
- GameLogic.GameSession.StartGame: requires `questionCount > 0`. The callers pass 10 and 15, and an empty game would end with `0 / 0` as accuracy.
- GameLogic.GameSession.EndGame: requires a started game with at least one question, for the same reason. The end-of-game path always meets this.
- GameLogic.GameSession.SubmitAnswer: requires the session invariant between events. The invariant holds from the constructor on and is re-established by every public method.
- GameLogic.GameSession.SkipQuestion: requires the session invariant, as for `SubmitAnswer`.
- GameLogic.GameSession.RequestHint: requires the session invariant, so that the current question exists when a question is open.
- GameLogic.GameSession.CountdownTick: requires the session invariant. Its ensures does not restate the profile update when a timeout skips the last question; that update is the one `SkipQuestion` states.
- Questions.TypeNamed: looks up own property names only. In JavaScript, `questionTypes[key]` is also truthy for inherited names such as `toString`, `constructor` or `__proto__`. For such a key, game-logic.js:333 picks that value instead of the deduction type and the source then throws at game-logic.js:338. The model generates a deduction question instead. Target types come from the AI engine, which never produces these names.
- Object key order is modelled as first-appearance order (`Sessions.DistinctKeys`, hence `Sessions.GroupByType`, `Sessions.DistinctKeysSound` and `GameLogic.MasteryTable`). `Object.keys` (game-logic.js:505-516, data-service.js:285) lists integer-like keys such as `"3"` first, in numeric order. The model's order is the JavaScript order only when no type key is integer-like. The question type keys of game-logic.js are words.
- UserRecords.Ratio: gives NaN whenever the total is zero. JavaScript gives Infinity for a positive count over a zero total. The model has no Infinity, and the statistics reach that case only through a stored profile whose `totalCorrect` exceeds `totalQuestions`, which no update produces.
- The relation between `responseTimes` and the answers is stated only as `|responseTimes| <= |answers|`, because skips record an answer but no response time.

## Behaviour as the code has it

- The speed achievement is not sticky. Its `completed` flag is recomputed from each session's mean time (data-service.js:244), so a slower session clears it again (`UserRecords.SpeedCompletionCanRevert`). The other three achievements stay completed (`UserRecords.CompletionSticky`). The model follows the code.
- `startGame` and `generateQuestions` read `userData.averageResponseTime`, `userData.strengths` and similar top-level fields (game-logic.js:96-100, 316-321). The profile has none of them: its statistics live under `stats` and its lists under `learningProfile`. The AI engine therefore always receives the defaults. The model keeps the engine's answers as parameters, so this does not affect what is proved.
- When the target type list is empty, `i % 0` is NaN and the type key is `undefined`. The question then comes from the deduction generator, and its answers are grouped under the key `"undefined"` (`Questions.TargetKey`, `Sessions.TypeKey`).
- A game in which every question was skipped or timed out records no response time, so `endGame` reports a mean response time of 0 (game-logic.js:498-500). That mean completes the speed achievement with progress 100 (data-service.js:241-244), although no question was answered (`GameLogic.UntimedGameCompletesSpeed`, `UserRecords.SpeedAtZeroSeconds`).
- The cumulative mean response time becomes NaN after a session without a timed answer. The next timed session's mean then replaces it (`UserRecords.UntimedSessionPoisonsAverage`).
