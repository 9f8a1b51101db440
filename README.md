# Synapse study coach: a verified model of its decision procedures

Synapse is a browser study coach. Under its page code sit a handful of small,
sequential procedures. This project models them in Dafny, one module per
source file, and proves what each of them promises:

- **Antigravity** (`js/antigravity.js`): the mentor persona. It diagnoses a
  wrong answer from index arithmetic and fills arena feedback templates by
  first-occurrence `replace`. It scores a Sensei explanation and picks accept,
  probe or resist, builds the comprehension log, and fills the study
  recommendation.
- **Sensei** (`js/sensei.js`): the teach-the-student session `senseiState`, a
  class. It keeps three keyword counters and a follow-up step that only moves
  forward. It ends with a grade and reward table, computed by exact
  cross-multiplication.
- **Arena** (`js/arena.js`): the five-question timed run `arenaState`, a
  class. It covers select, submit, the one-second tick with auto-submit,
  next, the 10-cell hint, the 25-cell wager, the end-of-run rewards and the
  `mm:ss` texts.
- **Progression** (`js/app.js`): the level curve `floor(1000 * 1.15^(L-1))`,
  as an exact rational floor. It covers cumulative levels, the level progress
  bar, the currencies and the Oracle; `state` is the class `App`.
- **Questions** (`js/data/questions.js`): the SAT bank as data, with its
  well-formedness and distinct ids proved. It has three lookups: a shuffled
  sample, a difficulty filter and the first-by-id search.
- **Auth** (`js/auth.js`): the user table keyed by lower-cased email, as the
  class `Store`. It covers the 32-bit string hash (ECMAScript `ToInt32`
  written out over UTF-16 code units), sign-up and sign-in validation, the
  shallow-merge profile update, the residual level-up loop and the
  per-user Oracle.
- **Vault** (`js/weaknessVault.js`): the list of missed questions, as the
  class `Store`. It provides find, save without duplicates, mark mastered,
  remove, attempt counting, the topic filter and the statistics with the
  first-seen weakest topic.
- Shared helpers:
  - `Wrappers` holds `Option` and `Result`.
  - `JsText` models the JavaScript string builtins the code relies on:
    ASCII `toLowerCase`, `includes`, `replace` with a string pattern
    (including its `$` replacement patterns), `trim`, `length` in UTF-16
    units, and `toString(16)` / `padStart`.
  - `Collections` is `Array.prototype.filter`.

Randomness is a parameter. Each `Math.floor(Math.random() * n)` is
`Draw(rnd, n)` with a caller-supplied `rnd` in [0, 1). A
`sort(() => Math.random() - 0.5)` shuffle is a caller-supplied permutation of
indices. `setTimeout` and `setInterval` callbacks are separate method calls
made by the caller. localStorage and sessionStorage are class fields.

Where the code and its comments disagree, the model follows the code:

- `startSensei` ends with the opening AI message already in `messages`
  (js/sensei.js:210). After `Sensei.Session.Start`, `messages` is
  therefore that one message, not empty.
- `diagnoseMistake`'s trap branch is dead code. `Antigravity.DiagnosisIsCarelessOrConceptual`
  proves that only careless and conceptual diagnoses are ever returned.
- The Oracle in `js/auth.js` starts every exam from a base of 1000. For IELTS
  (maximum 9) and other exams (maximum 120), `Auth.PredictionRange` shows the
  prediction lies between the exam's maximum and 1000, and
  `Auth.PredictionFallsWithAccuracy` shows it never rises as accuracy rises. The
  model keeps this as written.

## Model

| member | source | states |
|---|---|---|
| Antigravity.Draw | js/antigravity.js:198-200 | `Math.floor(Math.random() * n)` is always a valid index into a pool of size n |
| Antigravity.MistakeResponses | js/antigravity.js:139-182 | each mistake category has a pool of three responses |
| Antigravity.TrapIndex | js/antigravity.js:301 | the trap index; `Antigravity.TrapIsAdjacent` shows it is always adjacent to the correct index |
| Antigravity.DiagnoseMistake | js/antigravity.js:285-318 | the response comes from the pool of the diagnosed category; the diagnosis is careless exactly when the picked index is adjacent to the correct one |
| Antigravity.TrapIsAdjacent | js/antigravity.js:301 | the trap index (1 when correct is 0, else correct - 1) is always at distance 1 from the correct index |
| Antigravity.DiagnosisIsCarelessOrConceptual | js/antigravity.js:291-317 | the trap branch never fires: the diagnosis is careless when adjacent and conceptual otherwise |
| Antigravity.FillOne | js/antigravity.js:204 | replacing the one placeholder of a well-formed template with an inert value fills exactly that slot |
| Antigravity.FillTwo | js/antigravity.js:227-229 | two chained replaces fill the two slots of a well-formed two-slot template in order, leaving the rest of the text unchanged |
| Antigravity.ArenaCorrectGood | js/antigravity.js:61-67 | every arena-correct template has one `{insight}` slot and no other brace |
| Antigravity.ArenaIncorrectGood | js/antigravity.js:70-76 | every arena-incorrect template has a `{diagnosis}` slot followed by an `{explanation}` slot |
| Antigravity.ArenaTimeoutGood | js/antigravity.js:79-83 | every timeout template has one `{explanation}` slot |
| Antigravity.SenseiAcceptGood | js/antigravity.js:107-113 | every accept template has one `{highlight}` slot |
| Antigravity.StudyRecGood | js/antigravity.js:125-130 | every study template is well formed with no brace after its last slot |
| Antigravity.InsightPool | js/antigravity.js:238-278 | every topic's insight pool, and the default pool, has three entries |
| Antigravity.InsightPoolFromTable | js/antigravity.js:238-278 | a listed topic uses its own pool; any other topic uses the default pool |
| Antigravity.GenerateInsight | js/antigravity.js:238-280 | the insight is drawn from the question topic's pool (or the default pool) and contains no `$` pattern |
| Antigravity.ArenaFeedbackCorrect | js/antigravity.js:196-209 | a correct answer fills a correct template with an insight and appends the speed sentence exactly when more than 60 seconds remain |
| Antigravity.ArenaFeedbackTimeout | js/antigravity.js:211-216 | a wrong answer with index -1 fills a timeout template with the explanation |
| Antigravity.ArenaFeedbackIncorrect | js/antigravity.js:218-229 | any other wrong answer fills an incorrect template with a careless or conceptual diagnosis, then the explanation |
| Antigravity.GenerateArenaFeedback | js/antigravity.js:196-229 | the three feedback branches; `ArenaFeedbackCorrect`, `ArenaFeedbackTimeout` and `ArenaFeedbackIncorrect` give the text each one produces |
| Antigravity.Quality | js/antigravity.js:324-339 | quality is 2·example + 2·reasoning + steps + (length > 100) + (length > 200), at most 7 |
| Antigravity.ReplyKindOf | js/antigravity.js:342-376 | accept iff quality ≥ 4 or (≥ 3 at stage ≥ 2); probe iff not accept and quality ≥ 2; resist iff quality < 2 |
| Antigravity.GenerateSenseiResponse | js/antigravity.js:323-377 | the reply carries the quality and kind above; probe and resist texts come from their pools; accept fills a template with the highlight |
| Antigravity.Highlight | js/antigravity.js:348-351 | the accepting reply's highlight; `HighlightPriority` gives its order of preference and `HighlightPlain` shows it inserts as it is |
| Antigravity.HighlightPlain | js/antigravity.js:348-354 | the highlight holds no `$` pattern, so putting it into the accept template inserts it unchanged |
| Antigravity.HighlightPriority | js/antigravity.js:348-351 | the highlight prefers the example, then the reasoning, then the steps |
| Antigravity.ExampleAndReasonAccepted | js/antigravity.js:335-342 | an explanation with both an example and a reason is always accepted |
| Antigravity.BareShortResisted | js/antigravity.js:335-376 | a short explanation with neither an example nor a reason is always resisted |
| Antigravity.MessageEntries | js/antigravity.js:386-424 | one message never produces the Overall entry |
| Antigravity.MessageEntriesRules | js/antigravity.js:386-424 | a rule's entry is logged for a message iff the message is the user's and the rule's pattern test holds; AI messages log nothing |
| Antigravity.PerMessageLog | js/antigravity.js:385-425 | the `forEach` part of the log; `PerMessageLogSnoc`, `PerMessageLogNoOverall` and `OnlyUserMessagesLogged` specify it |
| Antigravity.ComprehensionLog | js/antigravity.js:382-436 | the whole log; `OverallIffTwoSuccesses` ties its summary entry to the success count, and `GenerateComprehensionLog` computes it by the source's loop |
| Antigravity.PerMessageLogSnoc | js/antigravity.js:385-425 | the `forEach` log of messages plus one is the log so far plus that message's entries |
| Antigravity.PerMessageLogNoOverall | js/antigravity.js:385-425 | the per-message part of the log never holds the Overall entry |
| Antigravity.OnlyUserMessagesLogged | js/antigravity.js:386 | the log depends only on the user's messages |
| Antigravity.OverallIffTwoSuccesses | js/antigravity.js:428-433 | the Overall entry is present iff at least two success entries were produced |
| Antigravity.LogStep | js/antigravity.js:385-425 | one loop step appends exactly that message's entries |
| Antigravity.GenerateComprehensionLog | js/antigravity.js:382-436 | the loop builds the comprehension log of the messages |
| Antigravity.AreaNamesFirst | js/antigravity.js:447-463 | the first weak (or strong) area is the first skill on that side; the list is empty iff there is none |
| Antigravity.StudyFillOne | js/antigravity.js:466-469 | the three chained replaces fill a one-slot study template with the weak area |
| Antigravity.StudyFillTwo | js/antigravity.js:466-469 | the three chained replaces fill a two-slot template with the weak and strong areas |
| Antigravity.NoTopicKey | js/antigravity.js:125-130 | a weak/strong template holds no `{topic}`, so the first replace leaves it alone |
| Antigravity.StudyRecommendation | js/antigravity.js:441-470 | the recommendation text; `StudyRecommendationFill` states what it holds |
| Antigravity.StudyRecommendationFill | js/antigravity.js:441-470 | the recommendation is the drawn template filled with the first weak area (or 'reading comprehension') and the first strong area (or 'problem solving') |
| Antigravity.GenerateStudyRecommendation | js/antigravity.js:441-470 | the `forEach` that splits the skills computes that recommendation |
| Sensei.TopicsWellFormed | js/sensei.js:10-163 | each topic has four follow-up steps and four resistance lines, all well formed |
| Sensei.Hits | js/sensei.js:280-284 | a counter gains at most the number of keywords |
| Sensei.UserTexts | js/sensei.js:238-248 | the scored texts are the user messages' texts, at most one per message |
| Sensei.TotalHitsBound | js/sensei.js:275-298 | over a session a score is at most the number of user messages times its keywords |
| Sensei.TotalHitsAll | js/sensei.js:275-298 | when every user message hits every keyword, the score reaches that bound |
| Sensei.ScoredBy | js/sensei.js:238-298 | the invariant `Session.Scored` keeps: each score is the total keyword hits of the user messages' texts |
| Sensei.UserMessageKeepsScores | js/sensei.js:245-250 | appending a user message and adding its hits to each counter keeps each score the total over all user messages |
| Sensei.AiMessageKeepsScores | js/sensei.js:322-354 | appending a Sensei message, with the counters unchanged, keeps each score the total |
| Sensei.HitsExtremes | js/sensei.js:280-298 | the gain is 0 iff no keyword occurs, and the gain is the full count iff every keyword occurs |
| Sensei.NextFollowUp | js/sensei.js:301-316 | a follow-up is returned iff steps remain and some trigger occurs in the lower-cased text; it is the current step |
| Sensei.MaxPossible | js/sensei.js:366-367 | the `reduce` is the number of keywords times the steps reached plus one; `MaxPossiblePositive`, `MaxPossibleGrows` and `LaterStepNoBetterGrade` state what it means for the grade |
| Sensei.MaxPossiblePositive | js/sensei.js:366-369 | for every topic of the table the maximum is positive at every step, so the percentage never divides by zero |
| Sensei.MaxPossibleGrows | js/sensei.js:366-367 | the maximum never shrinks as the step grows, and grows strictly when the topic has keywords |
| Sensei.LaterStepNoBetterGrade | js/sensei.js:364-397 | the same total, graded after more steps, never earns more XP or dark matter |
| Sensei.RatioAtLeast | js/sensei.js:369 | comparing total/maxPossible·100 with a bound is the same as comparing by cross-multiplication |
| Sensei.Evaluate | js/sensei.js:364-397 | grade A iff satisfied or ≥ 85%; B, C and D on the 70 and 50 thresholds; the rewards are 150/2, 100/1, 50/0 and 25/0 |
| Sensei.Rewarded | js/sensei.js:373-397 | the reward table keeps its grade |
| Sensei.RewardMonotone | js/sensei.js:364-397 | a higher score never earns less XP or dark matter |
| Sensei.Session.constructor | js/sensei.js:169-182 | the initial state: inactive, no topic, no messages, counters and step zero, not satisfied |
| Sensei.Session.AddMessage | js/sensei.js:220-236 | exactly one message is appended |
| Sensei.Session.Start | js/sensei.js:188-214 | topic set, counters and step zeroed, not satisfied, active; a known topic succeeds with its opening message as the only message and the scores matching the (empty) user messages; an unknown one leaves the session active with no messages and fails with the source's TypeError |
| Sensei.Session.AnalyzeResponse | js/sensei.js:275-299 | each counter grows by the number of its keywords found in the lower-cased text |
| Sensei.Session.SendMessage | js/sensei.js:238-256 | nothing changes for blank text or an inactive session; otherwise the trimmed text is appended, messageCount grows by 1 and the counters are analysed; each score stays the reference total over the user messages |
| Sensei.Session.CheckFollowUpTrigger | js/sensei.js:301-316 | the trigger loop returns the follow-up of `NextFollowUp` |
| Sensei.Session.GenerateAIResponse | js/sensei.js:322-354 | on a match the step's response is appended, the step grows by 1, and the session is satisfied and its end is scheduled iff all steps are done; otherwise a resistance line is appended, the step and satisfied are unchanged, and the hint is due after more than 6 messages at step 0; scores stay the totals over the user messages |
| Sensei.Session.EndSensei | js/sensei.js:360-397 | the session is inactive and graded by `Evaluate`; a satisfied session always earns A |
| Sensei.AllKeywordsCount | js/sensei.js:280-298 | a text holding every keyword scores all of them |
| Sensei.FinishedNeverTriggers | js/sensei.js:302-304 | once all steps are done nothing triggers |
| Sensei.TriggerInText | js/sensei.js:309-312 | a text that contains one of the current step's triggers, in any letter case, advances to that step |
| Arena.GenerateFeedback | js/arena.js:205-227 | a right answer shows a praise and the explanation; a wrong one shows the explanation and the dungeon note |
| Arena.FeedbackShowsExplanation | js/arena.js:205-227 | the feedback always contains the question's explanation |
| Arena.AccuracyThresholds | js/arena.js:351-371 | rounded accuracy ≥ 80 and = 100 as integer cross-multiplication conditions |
| Arena.FiveQuestionThresholds | js/arena.js:351-371 | for at most five questions: ≥ 80% iff 5·correct ≥ 4·total, and 100% iff all are correct |
| Arena.Accuracy | js/arena.js:349-351 | rounded accuracy, absent for an empty run; `AccuracyThresholds` and `FiveQuestionThresholds` give its reward thresholds exactly |
| Arena.ElapsedTextRoundTrip | js/arena.js:354-357 | the `m:ss` text reads back as the total seconds |
| Arena.ElapsedText | js/arena.js:354-357 | the results time text; `ElapsedTextRoundTrip` reads it back as the seconds |
| Arena.TimerTextRoundTrip | js/arena.js:279-284 | the `mm:ss` countdown text has five characters and reads back as the seconds left |
| Arena.TimerText | js/arena.js:279-284 | the countdown text; `TimerTextRoundTrip` shows five characters that read back as the seconds left |
| Arena.Outcome | js/arena.js:341-377 | accuracy is absent (NaN) iff there were no questions; the rewards are non-negative |
| Arena.OutcomeRewards | js/arena.js:360-377 | xp = 15·correct (+25 at ≥ 80%, +50 at 100%) and cells = 10·correct (+15, +25), both doubled when wagered |
| Arena.MoreCorrectEarnsMore | js/arena.js:360-377 | one more right answer strictly raises both rewards |
| Arena.PerfectRun | js/arena.js:360-377 | a perfect 5/5 run earns 150 XP and 90 cells, or 300 and 180 when wagered |
| Arena.WrongIndices | js/arena.js:313-318 | the wrong options are, in order, every index except the correct one |
| Arena.Eliminated | js/arena.js:321-322 | the hint removes two wrong options (fewer if there are fewer), with no repeats |
| Arena.DrawnQuestionsWellFormed | js/arena.js:39 | every draw of five questions from a category is well formed |
| Arena.Run.constructor | js/arena.js:9-24 | the initial `arenaState` |
| Arena.Run.EndArena | js/arena.js:341-414 | the run stops; XP and cells grow by the run's rewards and the level is recomputed; the Oracle is updated when there were questions and left alone otherwise; the current question, its selection, hint and countdown are left as they were |
| Arena.Run.LoadQuestion | js/arena.js:77-134 | an index with no question ends the run with its rewards paid, the level recomputed, the Oracle updated from the run when it had questions and untouched when it had none, and the current question's selection, hint and countdown left as they were; otherwise the question is shown with no selection, unanswered, hint available, 90 seconds, and the player's XP, level, cells and Oracle untouched |
| Arena.Run.ShowQuestion | js/arena.js:84-132 | the question at the index is shown afresh: no selection, unanswered, hint available, 90 seconds |
| Arena.Run.Start | js/arena.js:30-71 | counters zeroed, wager on iff asked for and affordable (25 cells paid), first question loaded and timer started, the Oracle untouched; an empty draw ends at once and pays its rewards net of the wager |
| Arena.Run.Reset | js/arena.js:31-42 | topic, questions and counters set up for a new run |
| Arena.Run.PayWager | js/arena.js:45-50 | the wager stays on iff 25 cells could be spent, and exactly those are paid |
| Arena.Run.StartTimer | js/arena.js:257-262 | the interval runs |
| Arena.Run.SelectAnswer | js/arena.js:140-152 | a selection is ignored once answered |
| Arena.Run.SubmitAnswer | js/arena.js:154-203 | no selection or already answered: nothing; otherwise answered, and exactly one of correct/wrong grows by 1 according to the answer |
| Arena.Run.Tick | js/arena.js:262-276 | only while unanswered: one second less and one more elapsed; at zero a missing selection becomes -1 and the answer is submitted: `correct` grows iff the selection is right, otherwise `wrong`, with the submit's feedback text |
| Arena.Run.NextQuestion | js/arena.js:233-239 | moves to the next question with the run, timer and player state untouched, or ends the run after the last: rewards paid, level recomputed, the Oracle updated from the run when it had questions and untouched when it had none, and the selection, hint and countdown left as they were |
| Arena.Run.Restart | js/arena.js:241-251 | the run stops |
| Arena.Run.UseHint | js/arena.js:299-335 | used hint, answered question or fewer than 10 cells: nothing; otherwise 10 cells are paid and up to two distinct wrong options are eliminated, never the correct one |
| Arena.CountdownText | js/arena.js:279-284 | the countdown always displays five characters |
| Progression.XPForLevel | js/app.js:102-104 | a level from 1 up costs at least 1000 XP |
| Progression.DivPowIsFloor | js/app.js:102-104 | dividing by 100 one step at a time rounds the same as the single floor of 1000·115^e / 100^e |
| Progression.XPForLevelExact | js/app.js:102-104 | the cost is exactly floor(1000·115^(L-1) / 100^(L-1)) |
| Progression.FirstCosts | js/app.js:102-104 | the first costs are 1000, 1150, 1322 and 1520 |
| Progression.TotalXP | js/app.js:106-112 | reaching level L needs at least 1000·(L-1) |
| Progression.TotalXPStep | js/app.js:106-112 | TotalXP(1) = 0 and TotalXP(L+1) = TotalXP(L) + cost(L) |
| Progression.TotalXPIncreasing | js/app.js:106-112 | higher levels need strictly more XP |
| Progression.GetTotalXPForLevel | js/app.js:106-112 | the `for` loop computes TotalXP |
| Progression.LevelOfBand | js/app.js:114-122 | the level is ≥ 1 and TotalXP(level) ≤ xp < TotalXP(level + 1) |
| Progression.LevelOf | js/app.js:114-122 | the level of an XP total; `LevelOfBand`, `LevelOfUnique` and `LevelOfMonotone` specify it and `GetLevelFromXP` computes it |
| Progression.LevelOfUnique | js/app.js:114-122 | that band determines the level |
| Progression.LevelOfMonotone | js/app.js:114-122 | more XP never gives a lower level |
| Progression.LevelFromBounds | js/app.js:115-120 | the loop started at a reached level stops at a level whose band holds the XP |
| Progression.GetLevelFromXP | js/app.js:114-122 | the `while` loop computes that level |
| Progression.LevelProgress | js/app.js:124-131 | the progress bar is in [0, 100) for non-negative XP |
| Progression.ProgressBounds | js/app.js:124-131 | a part of a positive whole gives a percentage in [0, 100) |
| Progression.Round | js/app.js:186-188 | `Math.round` is within one half of its argument |
| Progression.PredictedScore | js/app.js:182-188 | a weight in [0, 100] predicts a score in [1000, 1600] |
| Progression.Probability | js/app.js:190-202 | 95 iff the target is met; otherwise clamped to [10, 90], and 10 when no days are left |
| Progression.DefaultLevelMatches | js/app.js:44-45 | 2450 cumulative XP is level 3 |
| Progression.DefaultLevelDropsOnAddXP | js/app.js:133-136 | from the shipped default, any reward under 1000 XP recomputes the level as 3, below the stored 23 |
| Progression.App.constructor | js/app.js:41-61 | the default state, with the level its XP reaches |
| Progression.App.AddXP | js/app.js:133-144 | xp grows by the amount, the level is recomputed, and level-up is reported iff the level rose |
| Progression.App.AddBrainCells | js/app.js:150-155 | the balance grows by the amount |
| Progression.App.SpendBrainCells | js/app.js:157-165 | succeeds iff the balance covers the amount; only then is it debited |
| Progression.App.AddDarkMatter | js/app.js:167-172 | dark matter grows by the amount |
| Progression.App.UpdateOracle | js/app.js:178-206 | the prediction is the weighted score and the probability follows the score gap |
| Progression.AddXPNeverLowersLevel | js/app.js:133-136 | a non-negative reward never lowers the level |
| Progression.PredictionInRange | js/app.js:182-188 | with valid accuracies the prediction lies in [1000, 1600] |
| Questions.CategoryInBank | js/data/questions.js:6-233 | every category's questions are in the bank |
| Questions.Category | js/data/questions.js:239 | a category's bank; `CategoryInBank`, `CategoryNoDuplicates` and `UnknownCategoryEmpty` specify it |
| Questions.BankWellFormed | js/data/questions.js:6-233 | every question's answer index is valid for its options, and difficulties are 1 to 5 |
| Questions.BankIdsDistinct | js/data/questions.js:6-233 | all ids in the bank are distinct |
| Questions.CategoryNoDuplicates | js/data/questions.js:6-233 | no category repeats a question |
| Questions.SliceEnd | js/data/questions.js:241 | the slice end is min(count, n) |
| Questions.GetRandomQuestions | js/data/questions.js:238-242 | exactly min(count, n) questions, all from the category, no repeats |
| Questions.GetQuestionsByDifficulty | js/data/questions.js:244-247 | exactly the category's questions of that difficulty, in their original order |
| Questions.UnknownCategoryEmpty | js/data/questions.js:239-245 | an unknown category gives empty results |
| Questions.FindById | js/data/questions.js:251 | the first question with the id, or none iff there is none |
| Questions.FindByIdConcat | js/data/questions.js:250-253 | searching categories in turn is the first match over their concatenation |
| Questions.GetQuestionById | js/data/questions.js:249-255 | the first match scanning math, reading, writing in order |
| Questions.GetQuestionByIdSpec | js/data/questions.js:249-255 | a found question is in the bank with that id; null iff no question has it |
| Auth.ToInt32 | js/auth.js:52-53 | ToInt32 lands in the signed 32-bit range |
| Auth.ToInt32Residue | js/auth.js:53 | ToInt32 changes its argument by a multiple of 2^32 |
| Auth.ToInt32Unique | js/auth.js:53 | ToInt32 is the one signed 32-bit value congruent to its argument modulo 2^32 |
| Auth.HashStep | js/auth.js:52-53 | `((h << 5) - h) + c` then `& h` equals ToInt32(31·h + c) |
| Auth.CodeUnits | js/auth.js:50-51 | a character is one UTF-16 unit below 0x10000 and two above |
| Auth.Utf16 | js/auth.js:50-51 | the units number `password.length`, each below 0x10000 |
| Auth.HashOf | js/auth.js:49-54 | the hash stays a signed 32-bit value |
| Auth.HashPassword | js/auth.js:48-56 | the loop computes the password hash |
| Auth.EmptyPasswordHash | js/auth.js:49-55 | the empty password hashes to "hash_0" |
| Auth.SingleUnitHash | js/auth.js:49-55 | a one-unit password hashes to its code in hex |
| Auth.PasswordHashReadsBack | js/auth.js:55 | the hash is "hash_" followed by the lower-case hex of \|h\| |
| Auth.PasswordHash | js/auth.js:49-55 | the stored hash text; `PasswordHashReadsBack`, `EmptyPasswordHash` and `SingleUnitHash` specify it and `HashPassword` computes it |
| Auth.OrString | js/auth.js:86-91 | `s \|\| d` is the given string when it is non-empty, and d otherwise |
| Auth.OrNumber | js/auth.js:89-106 | `n \|\| d` is the given number when it is non-zero, and d otherwise |
| Auth.OrNullString | js/auth.js:90 | `s \|\| null` keeps a non-empty string |
| Auth.OrNullNumber | js/auth.js:91 | `n \|\| null` keeps a non-zero number |
| Auth.NewUser | js/auth.js:73-118 | the record has the key and the password hash; the profile takes each given field or its default; stats start at 1/0/100/0 with zero totals; the Oracle predicts the current score or 1200, targets the profile's target, starts at 50 and counts 90 days without an exam date, at least one with |
| Auth.NewUserDefaults | js/auth.js:86-108 | an empty profile gives Scholar, the brain avatar, sat, 1500 and no date or score, with an Oracle of 1200/1500/50/90 |
| Auth.ApplyUpdates | js/auth.js:204-214 | the email and hash are untouched, and a part with no update is kept |
| Auth.MergeStatsComposes | js/auth.js:209 | shallow merges compose, are idempotent and have the empty patch as identity |
| Auth.MergeStats | js/auth.js:209 | the stats spread; `MergeStatsComposes` states its laws |
| Auth.MergeProfileComposes | js/auth.js:205 | profile spreads compose, are idempotent and have the empty patch as identity |
| Auth.MergeProfile | js/auth.js:205 | the profile spread; `MergeProfileComposes` states its laws |
| Auth.MergeOracleComposes | js/auth.js:213 | Oracle spreads compose, are idempotent and have the empty patch as identity |
| Auth.MergeOracle | js/auth.js:213 | the Oracle spread; `MergeOracleComposes` states its laws |
| Auth.CostSumBack | js/auth.js:245-248 | the consumed costs add up one level at a time |
| Auth.CostSumFromOne | js/auth.js:237-239 | the costs consumed from level 1 are the cumulative total |
| Auth.LevelUps | js/auth.js:241-248 | the level never drops, the residual XP is below the new level's cost, and the starting XP is the residual plus the costs consumed |
| Auth.ResidualMatchesCumulative | js/auth.js:241-248 | from level 1 the residual loop reaches the cumulative level, with the XP remainder past it |
| Auth.PredictionRange | js/auth.js:310-319 | SAT predictions are in [1000, 1600]; other exams lie between their maximum and 1000; all correct gives the maximum, none gives 1000 |
| Auth.PredictionFallsWithAccuracy | js/auth.js:313-319 | for IELTS and other non-SAT exams, more correct answers out of the same total never raise the prediction |
| Auth.Prediction | js/auth.js:310-319 | the Oracle's predicted score; `PredictionRange` and `PredictionFallsWithAccuracy` specify it |
| Auth.OracleProbability | js/auth.js:322-339 | 95 iff the target is met; otherwise clamped to [10, 90] with days floored at 1, then rounded |
| Auth.MoreDaysNeverLower | js/auth.js:328-329 | more days left never lowers the probability |
| Auth.Store.constructor | js/auth.js:21-28 | no users and no session |
| Auth.Store.UserExists | js/auth.js:40-43 | true iff some stored record has the lower-cased email, or that email is a name the table inherits (`constructor`, `__proto__`) |
| Auth.Store.CurrentKey | js/auth.js:185-193 | the signed-in key, present iff a session names a stored user |
| Auth.Store.CreateUser | js/auth.js:61-124 | an existing or inherited key fails before a short password does; either failure leaves the table unchanged; success adds exactly the new record |
| Auth.Store.LoginUser | js/auth.js:129-162 | a missing key fails with "No account found"; an inherited key or a wrong hash fails with "Incorrect password"; both keep the session and the table; a matching hash signs in |
| Auth.Store.UpdateUserProfile | js/auth.js:198-218 | "Not logged in" with no user; otherwise only the current record changes, by shallow merge |
| Auth.Store.UpdateUserStats | js/auth.js:223-225 | the stats patch is merged into the current record |
| Auth.Store.AddUserXP | js/auth.js:230-256 | the loop stores the residual level-up of xp + amount; leveled up iff the level rose; no user, no change |
| Auth.Store.AddUserBrainCells | js/auth.js:261-268 | the current balance grows by the amount |
| Auth.Store.SpendUserBrainCells | js/auth.js:273-283 | fails with no change when no user or the balance is short; otherwise debits exactly the amount |
| Auth.Store.AddUserDarkMatter | js/auth.js:288-295 | the current dark matter grows by the amount |
| Auth.Store.UpdateUserOracle | js/auth.js:300-342 | totals accumulate; prediction and probability are recomputed from them |
| Auth.SignUpThenSignIn | js/auth.js:61-162 | signing up a new address, then signing in with any casing of it and the same password, succeeds with the same record |
| Auth.InheritedEmailRefused | js/auth.js:40-162 | "Constructor" counts as an existing user: sign-up fails with "User already exists" and sign-in with "Incorrect password" |
| Vault.NewItem | js/weaknessVault.js:45-58 | a new item copies the question's id, text, topic, difficulty, options, correct index and explanation; its passage is kept when non-empty and null otherwise; it records the answer, one attempt, no correct attempts, not mastered |
| Vault.FindFrom | js/weaknessVault.js:40 | `find` returns the first item with the id, or none iff there is none |
| Vault.ActiveMasteredSplit | js/weaknessVault.js:162-163 | active and mastered items together are all items |
| Vault.Without | js/weaknessVault.js:111-113 | every item with the id is dropped and the rest are kept in order; the length changes iff the id was present |
| Vault.WithoutUnique | js/weaknessVault.js:111-113 | with unique ids, removing a stored id takes out exactly the item at its position |
| Vault.MasteringShrinksActive | js/weaknessVault.js:93-96 | mastering an active item removes exactly one from the active list |
| Vault.Attempted | js/weaknessVault.js:124-129 | one more attempt, one more correct attempt if right, nothing else changed |
| Vault.AttemptedAndMastered | js/weaknessVault.js:124-133 | as above, and mastered once three correct attempts are reached |
| Vault.FindTopic | js/weaknessVault.js:168 | the position of the topic's entry, or none iff absent |
| Vault.BumpFacts | js/weaknessVault.js:168 | one count update keeps the table tidy and adds one to that topic's count and to the sum |
| Vault.TopicCountsFacts | js/weaknessVault.js:166-169 | the table counts each topic's items exactly, and its sum is the number of items |
| Vault.TopicCounts | js/weaknessVault.js:166-169 | the topic counting `forEach`; `TopicCountsFacts` shows it counts each topic exactly |
| Vault.Scan | js/weaknessVault.js:172-179 | the strict `>` scan picks the first entry of maximal count |
| Vault.WeakestTopic | js/weaknessVault.js:172-179 | the maximum loop returns the topic of the first entry with the largest count, none for an empty table |
| Vault.StatsOf | js/weaknessVault.js:160-188 | active + mastered = total; the counts sum to active and count each topic; weakest is null iff no active items, and otherwise the first topic with maximal count |
| Vault.TruncateText | js/weaknessVault.js:241-244 | text within the limit is unchanged; longer text is its first characters plus "..." |
| Vault.TruncateBounded | js/weaknessVault.js:241-244 | the result is at most three longer than the limit, and truncating again changes nothing |
| Vault.Store.constructor | js/weaknessVault.js:12-19 | an empty vault |
| Vault.Store.SaveToVault | js/weaknessVault.js:36-70 | saved iff the id was absent, then appended; ids stay unique |
| Vault.Store.VaultItems | js/weaknessVault.js:75-77 | exactly the non-mastered items, in stored order |
| Vault.Store.VaultCount | js/weaknessVault.js:82-84 | the count plus the mastered items is the total |
| Vault.Store.MarkMastered | js/weaknessVault.js:89-104 | the first item with the id is mastered and true is returned; otherwise false with no change; with unique ids every item under the id is then mastered |
| Vault.Store.RemoveFromVault | js/weaknessVault.js:109-114 | the vault without the id; true iff it was there; with unique ids exactly the one found item goes |
| Vault.Store.RecordAttempt | js/weaknessVault.js:119-137 | as written: the attempt is counted, but the later save discards the mastery written by `markMastered` |
| Vault.Store.RecordAttemptSaved | js/weaknessVault.js:119-137 | corrected: the attempt is counted and mastery sticks at three correct attempts |
| Vault.Store.VaultByTopic | js/weaknessVault.js:142-146 | the active items whose topic contains the query, case-insensitively |
| Vault.Store.GetVaultStats | js/weaknessVault.js:160-188 | the two loops compute `StatsOf` of the vault |
| Vault.EmptyQueryListsAll | js/weaknessVault.js:142-146 | the empty query lists every active item |
| Vault.ThreeCorrectRetries | js/weaknessVault.js:127-135 | three correct retries leave the item unmastered as written, and mastered when corrected |
| JsText.Lower | js/auth.js:63 | `toLowerCase` keeps the length and maps each character |
| JsText.LowerIdempotent | js/auth.js:131 | lower-casing twice is lower-casing once |
| JsText.JsLength | js/auth.js:69 | `length` counts UTF-16 units, between one and two per character |
| JsText.IndexFrom | js/sensei.js:281 | the search finds the first match at or after a position |
| JsText.ContainsIff | js/sensei.js:281 | `includes` holds iff the pattern occurs somewhere |
| JsText.ReplaceAbsent | js/antigravity.js:467 | replacing an absent pattern changes nothing |
| JsText.ReplaceFirst | js/antigravity.js:204 | `replace` with a string substitutes the first occurrence only |
| JsText.Replace | js/antigravity.js:204 | `replace` with a string pattern; `ReplaceFirst` and `ReplaceAbsent` specify it |
| JsText.TrimStart | js/sensei.js:240 | only leading white space is removed, and the result starts with a non-space |
| JsText.TrimEnd | js/sensei.js:240 | only trailing white space is removed, and the result ends with a non-space |
| JsText.TrimEmptyIff | js/sensei.js:240-242 | the trimmed text is empty iff every character is white space |
| JsText.Trim | js/sensei.js:240 | `trim`; `TrimStart`, `TrimEnd` and `TrimEmptyIff` specify it |
| JsText.ToDigits | js/auth.js:55 | `toString(base)` has at least one digit and no leading zero |
| JsText.DigitsRoundTrip | js/auth.js:55 | the digits of `toString(base)` read back as the number |
| JsText.PadZeros | js/arena.js:284 | `padStart` makes the text at least the width, keeping the text as its suffix |
| JsText.PadZerosValue | js/arena.js:284 | `padStart(2, '0')` keeps the value |
| Collections.Filter | js/weaknessVault.js:76 | `filter` keeps only matching elements, every matching value, in order; `FilterMultiset` adds that each is kept as often as it occurs |
| Collections.FilterMultiset | js/weaknessVault.js:76 | a passing value keeps all its copies and a failing value none |
| Collections.FilterFilter | js/weaknessVault.js:143 | filtering twice is filtering by both tests |
| Collections.FilterKeepsAll | js/weaknessVault.js:76 | `filter` keeps the length iff every element passes, and then returns the sequence itself |
| Collections.FilterDropsOne | js/weaknessVault.js:111-113 | when only the element at one position fails the test, `filter` removes exactly that element |
| Collections.Count | js/antigravity.js:428 | `filter(..).length` |

## Left out

- DOM, animation, toasts, particles and URL parameters; `components.js` as a whole.
- localStorage, sessionStorage and JSON serialisation. Each table is a class field, and the try/catch fallbacks have no counterpart.
- The `remember` choice between localStorage and sessionStorage, and the separate current-user key. They are merged into one `session` field.
- `logoutUser`, `isAuthenticated`, `requireAuth`, `initDemoUser`, `seedVaultDemo`, `getRecentVaultItems`, `renderVaultCards`, `trainVaultItem`, `formatRelativeTime`, `restartSensei` and `getEncouragement`. They are session plumbing, date sorting, navigation or display only.
- Dates: `createdAt`, `lastActive`, `savedAt`, `masteredAt` and `lastAttempt` are not stored. The exam-day count of `createUser` is the parameter `daysToExam`, which is honoured only when an exam date is given.
- `achievements` and `skillProgress` of a new user. Nothing in the core reads them.
- `Math.random`. It is a caller-supplied number in [0, 1) or a permutation. Membership and length are proved, not distribution.
- IEEE doubles. Level costs are the exact rational floor, Oracle values are reals, and grades use cross-multiplication. Float rounding drift is not modelled.
- `toLowerCase` beyond ASCII. Non-ASCII letters are left as they are.
- `setTimeout` and `setInterval`. The tick, the delayed AI answer, the delayed end and the hint nudge are explicit calls.
- Arena.Run.Tick: requires a current question. After an empty run the source's interval keeps running, and its ticks reach `submitAnswer` on an undefined question; those ticks are not modelled.
- `endSensei` returns its reward. Paying it through `addXP` and `addDarkMatter` is left to the caller (`Progression.App.AddXP`).
- The prose of the templates, pools and system prompt. They are opaque string constants.
- Arena.Run.Start: receives the drawn questions as a parameter. `Arena.DrawnQuestionsWellFormed` shows every draw meets its precondition.
- Progression.App.UpdateOracle: requires a non-zero number of questions, because 0/0 gives NaN in the source. `Arena.Run.EndArena` calls it only for a non-empty run.
- Auth.Store.UpdateUserOracle: with zero questions in total the source stores NaN. The model leaves the Oracle unchanged in that case.
- Auth.ApplyUpdates: a patch that sets a field to `undefined` is not modelled. Patches say only which fields they set.
- Sensei.Session.Start: after an unknown topic the session is active but fails `Valid()`. The source's later calls on it (`sendMessage` appends, then `analyzeResponse` throws) are not modelled, nor are topic names the topic table inherits, such as `constructor`.
- Questions.Category: only the three bank names are modelled. An inherited name such as `constructor` makes the source's spread throw; that call is not modelled.
- Vault.StatsOf: JavaScript lists integer-like object keys first. The model keeps the first-seen order of all topics.
- Vault.TruncateText: counts characters, not UTF-16 units.

## Findings

| source | as written | input that shows it | evidently intended | confidence | as-written member | corrected member |
|---|---|---|---|---|---|---|
| js/weaknessVault.js:127-135 | `markMastered` saves a freshly read vault with the item mastered; `recordAttempt` then saves its own earlier copy over it | an item retried correctly three times: `correctAttempts` reaches 3 but `mastered` stays false | the comment's "auto-master after 3 correct attempts" | high, not executed | Vault.Store.RecordAttempt, Vault.ThreeCorrectRetries | Vault.Store.RecordAttemptSaved |
| js/app.js:44-45 | the default user is level 23 with 2450 cumulative XP, but 2450 XP is level 3 | the default state plus any reward under 1000 XP: `addXP` recomputes the level as 3 | a default level that matches its XP (3); alternatively the XP is meant as progress within level 23, as the residual scheme of js/auth.js:241-248 (whose demo user js/auth.js:374-375 has the same pair) counts it, and app.js's cumulative level scheme is what is off | high, not executed | Progression.DefaultLevelDropsOnAddXP | Progression.App.constructor |
