# Math adventure lesson: a verified model of its logic

The lesson is a browser app that walks a learner through cylinders:
- a name screen and a question about a dabba (a cylindrical box);
- video explainers;
- a simulator for surface area and volume;
- an adaptive check with remediation;
- a tower problem;
- a beaker experiment;
- a five-question quiz.

Underneath the markup, styling and animation sit small pieces of sequential logic. This project models each of them in Dafny and proves what they promise:

| module | file | models |
|---|---|---|
| `Navigator` | `navigator.dfy` | the screen navigator: current screen, screen count, pager and the table of per-screen behaviour objects (`scripts/main.js`) |
| `QuestionLabel` | `question_label.dfy` | how the quiz reads "Question N of M" off the heading (`scripts/quiz.js`) |
| `Quiz` | `quiz.dfy` | the quiz manager: answer map, input validation, marking, score, strengths and improvements, screen mapping, retake and backup (`scripts/quiz.js`) |
| `AdaptiveCheck` | `adaptive_check.dfy` | screen 6: attempt counters, tiered remediation, the weak-spot log, the call-to-action gate (`scripts/screen6.js`) |
| `TowerCsa` | `tower_csa.dfy` | screen 7: the tower question and its two-tier feedback (`scripts/screen7.js`) |
| `CokeCan` | `coke_can.dfy` | the rotating can: dragging, clamped pitch, auto-rotation (`scripts/coke-can-3d.js`) |
| `CylinderSim` | `cylinder_sim.dfy` | screen 5: the formulas and the toggles (`scripts/screen5.js`) |
| `BeakerSim` | `beaker_sim.dfy` | screen 8: the guess, volumes, fill heights, counter and explanation (`scripts/screen8.js`) |
| `DabbaQuestion` | `dabba_question.dfy` | screen 2: selecting and classifying an answer (`scripts/screen2.js`) |

`Util` holds `Option`, `Abs`, `Min`, `Max` and the value of π.

## How the model is built

- **Objects the scripts mutate** become Dafny classes with the same fields. Their methods carry `modifies` frames and state the whole new state.
- **Specification functions and lemmas.** Beside each class sits a value-level specification (a step function on a state datatype, or a pure formula). Lemmas prove the source's promises about it. Examples: the strengths and improvements partition the five questions; three wrong Q1 answers log `cylinder_csa`; a drag's horizontal rotation telescopes.
- **Loops** stay loops, with invariants tying them to the specification functions: the score, strengths and improvements loops, and the beaker counter.
- **Browser inputs** become parameters:
  - the number `parseFloat` reads is an `Option<real>`, with `None` for NaN;
  - the quiz heading's text is an `Option<string>`, with `None` when the element is missing;
  - whether a screen's class is defined when its script loads is a `bool`.
- **Timers.** Each timer or animation-frame callback runs as an ordinary method call, in the order the timers fire.
- **Storage.** The browser's key-value store becomes a field holding the value last written: the quiz's `Backup`, and screen 6's `storedWeakSpots`.
- **Numbers** are exact reals. π is the decimal value JavaScript prints for `Math.PI`.

Some of what the code does is easy to miss, and the model keeps it:

- `loadScreenDirectly` does no range check. A call to load screen 10 is accepted while the pager counts 4, and the pager then shows both buttons (`Navigator.QuizJumpLeavesRange`). The quiz's navigation would make such calls if `window.app` were set; as written it never is (see Left out).
- `initializeScreen` destroys the object registered under the *current* screen number. The new screen's script loads after that number has been updated, so the object destroyed is the one under the new number, not the screen being left (`Navigator.ReturningToAScreenDestroysItsOwnObject`).
- Screen 1 never gets a behaviour object. Its case in `initializeScreen` tests for `NameIntroScreen`, which no script defines; screen 1's script defines `CanQuestionScreen`.
- The can's constructor starts auto-rotation, whose first step runs at once. A can built in a page that has its container therefore starts at horizontal rotation 1, not 0. Releasing a drag takes one more step at once.
- `selectBeaker` with an unknown string keeps the previous guess but still shows the fill controls.
- Both beakers hold 900π, a little more than the 2827.4 the drawing treats as full, so both fill to the brim whatever was guessed.

## Model

| member | source | states |
|---|---|---|
| `Navigator.ScreenHtml` | scripts/main.js:106-249 | markup exists exactly for screens 1 to 4; every other number gets the "not implemented" placeholder |
| `Navigator.BehaviorMatchesMarkup` | scripts/main.js:299-323 | the switch has a case exactly for the screens that have markup, and each case names the class of that markup |
| `Navigator.PagerFor` | scripts/main.js:354-371 | "Previous" is hidden iff the current screen is 1, "Next" is hidden iff it equals the total, and the indicator shows both numbers |
| `Navigator.AddState` | scripts/main.js:395-398 | the total becomes the larger of the old total and n; the current screen is kept |
| `Navigator.StepsAreGuarded` | scripts/main.js:373-383 | a step forward moves by one iff current < total, a step back iff current > 1; at either end the step changes nothing (no wraparound) |
| `Navigator.RunStaysInRange` | scripts/main.js:373-398 | any sequence of pager steps and added screens keeps 1 <= current <= total |
| `Navigator.RunNeverShrinksTotal` | scripts/main.js:395-398 | no sequence of commands, direct loads included, lowers the total |
| `Navigator.QuizJumpLeavesRange` | scripts/main.js:47-76 | loading screen 10 of 4 is accepted; the pager then shows both buttons, "Next" does nothing and "Previous" goes to 9 |
| `Navigator.MathAdventureApp.constructor` | scripts/main.js:4-23 | a new app shows screen 1 of 4 with an empty instance table, "Previous" hidden and "Next" shown |
| `Navigator.MathAdventureApp.UpdateNavigation` | scripts/main.js:354-371 | the pager is made to reflect the current screen and total |
| `Navigator.MathAdventureApp.LoadScreenDirectly` | scripts/main.js:47-76 | any n becomes the current screen; markup, stylesheet and script follow n; the can script is injected for screen 2; the pager is refreshed; the instance table is untouched |
| `Navigator.MathAdventureApp.PreviousScreen` | scripts/main.js:373-377 | the state moves by the guarded step back; on a move, markup, stylesheet and script follow the new screen, the can script is injected when it is 2, and the pager is refreshed; on screen 1 nothing changes; the instance table is untouched |
| `Navigator.MathAdventureApp.NextScreen` | scripts/main.js:379-383 | the state moves by the guarded step forward; on a move, markup, stylesheet and script follow the new screen, the can script is injected when it is 2, and the pager is refreshed; on the last screen nothing changes; the instance table is untouched |
| `Navigator.MathAdventureApp.AddScreen` | scripts/main.js:395-398 | only the total changes, to max(total, n) |
| `Navigator.MathAdventureApp.InitializeScreen` | scripts/main.js:292-324 | the object under the current screen number, if any, is destroyed first; a new object is registered under n only for n in 1..4 with its class defined; otherwise the table is unchanged |
| `Navigator.ReturningToAScreenDestroysItsOwnObject` | scripts/main.js:292-324 | screen 1 registers no object; going 2, 3 and back to 2 destroys the first screen-2 object and leaves the screen-3 object live, with two objects registered |
| `QuestionLabel.Decimal` | scripts/quiz.js:186-187 | the numeral written for a number is a non-empty string of digits |
| `QuestionLabel.DecimalValue` | scripts/quiz.js:187 | parseInt of the numeral of n is n |
| `QuestionLabel.DigitRun` | scripts/quiz.js:186 | the digit run starting at i is all digits, stays inside the text and is maximal |
| `QuestionLabel.DigitRunExact` | scripts/quiz.js:186 | a maximal run of k digits is exactly what the `\d+` group captures |
| `QuestionLabel.FindMatch` | scripts/quiz.js:186 | the search reports the leftmost position where the pattern matches, and nothing iff it matches nowhere |
| `QuestionLabel.LabelRoundTrip` | scripts/quiz.js:182-193 | the heading "Question N of M" is read back as N |
| `QuestionLabel.NoMatchMeansFirst` | scripts/quiz.js:186-187 | a heading the pattern does not match is read as question 1 |
| `QuestionLabel.ShortTextMeansFirst` | scripts/quiz.js:182-193 | a heading too short for the pattern, the empty one included, is read as question 1 |
| `Quiz.TitlesDistinct` | scripts/quiz.js:16-22 | the five question titles are pairwise different |
| `Quiz.MarkingRule` | scripts/quiz.js:283-305 | an unanswered question is wrong; questions 1 to 3 need the exact letter (case matters, a number never matches); questions 4 and 5 accept a number within 0.1, the bound included (439.55 and 439.65 accepted, 439.45 and 439.75 rejected for question 4) |
| `Quiz.CorrectCount` | scripts/quiz.js:276-309 | the count of correct answers among questions 1..n is at most n |
| `Quiz.ScoreInRange` | scripts/quiz.js:271-310 | the score lies in 0..5 |
| `Quiz.RecordChangesOnlyThatQuestion` | scripts/quiz.js:132 | recording an answer for q changes the score only through q's old and new verdicts |
| `Quiz.RecordOutsideQuestionsKeepsScore` | scripts/quiz.js:132 | an answer recorded under a number outside 1..5 (a heading read as question 7, say) leaves the score unchanged |
| `Quiz.ScoreExample` | scripts/quiz.js:271-310 | three right (one of them a number within tolerance), one wrong and one unanswered score 3 |
| `Quiz.StrengthsCountIsScore` | scripts/quiz.js:356-408 | there are as many strengths as the score, and strengths plus improvements number exactly the questions |
| `Quiz.StrengthsMembership` | scripts/quiz.js:356-381 | a question's title is among the strengths iff the question is correct |
| `Quiz.ImprovementsMembership` | scripts/quiz.js:383-408 | a question's title is among the improvements iff the question is not correct |
| `Quiz.StrengthsPartition` | scripts/quiz.js:356-408 | each question's title is among the strengths iff it is correct and among the improvements iff it is not |
| `Quiz.CheckInput` | scripts/quiz.js:147-156 | a typed answer is accepted iff the field exists, is not blank and parses to a non-negative number, and the accepted value is the parsed one; a missing or blank field is reported apart from a bad number |
| `Quiz.NextStepFollowsQuestions` | scripts/quiz.js:200-253 | from question q < 5 the next screen is the one mapped to question q + 1; from 5 on, the results screen (mapped to 6) follows |
| `Quiz.HeadingLeadsToNextScreen` | scripts/quiz.js:195-220 | reading the heading "Question q of 5" and moving on targets screen 10 + q, whose question number is q + 1 |
| `Quiz.Restore` | scripts/quiz.js:444-455 | stored entries are merged over the current answers, stored ones winning; a missing or unparseable backup changes nothing |
| `Quiz.SaveThenRestore` | scripts/quiz.js:444-461 | a fresh manager restoring what another saved has exactly the saved answers |
| `Quiz.ScoreMessage` | scripts/quiz.js:312-319 | each message starts with the score's emoji; every score outside 1..5 gets the "review" message |
| `Quiz.ScoreMessagesDistinct` | scripts/quiz.js:312-319 | the six scores 0..5 get six different messages |
| `Quiz.QuizManager.constructor` | scripts/quiz.js:4-33 | a new manager is at question 1 with the stored backup merged into an empty answer map |
| `Quiz.QuizManager.RestoreAnswersFromStorage` | scripts/quiz.js:444-455 | the answers become the backup merged over them |
| `Quiz.QuizManager.SaveAnswersToStorage` | scripts/quiz.js:458-461 | the backup becomes the current answers |
| `Quiz.QuizManager.GetCurrentQuestionNumber` | scripts/quiz.js:182-193 | the number read off the heading, 1 when the heading is missing |
| `Quiz.QuizManager.HandleAnswerClick` | scripts/quiz.js:115-141 | the choice overwrites the answer of the question on show, every other entry is untouched, the backup is saved and the next screen chosen |
| `Quiz.QuizManager.HandleInputAnswer` | scripts/quiz.js:143-180 | invalid input stores and saves nothing; a valid number overwrites question q's answer, is saved, and the next screen is chosen |
| `Quiz.QuizManager.NextQuestion` | scripts/quiz.js:195-254 | from question q < 5 screen 9 + q + 1 is targeted, otherwise the results |
| `Quiz.QuizManager.CalculateScore` | scripts/quiz.js:271-310 | the loop returns the score of the answers, at most 5 |
| `Quiz.QuizManager.GenerateStrengths` | scripts/quiz.js:356-381 | the loop returns the correct questions' titles in order, as many as the score |
| `Quiz.QuizManager.GenerateImprovements` | scripts/quiz.js:383-408 | the loop returns the other titles in order, 5 minus the score of them |
| `Quiz.QuizManager.ShowResults` | scripts/quiz.js:256-269 | the results show the score, its message and the two lists |
| `Quiz.QuizManager.RetakeQuiz` | scripts/quiz.js:415-423 | answers are emptied, the question is 1 and the intro screen 9 is targeted; the backup is untouched |
| `Quiz.InitializeQuizForScreen` | scripts/quiz.js:476-503 | on screens 9..15 a missing manager is created, an existing one gets question 0, screen − 9 or 6; any other screen changes nothing |
| `Quiz.RetakeKeepsBackup` | scripts/quiz.js:415-461 | after a retake the answers are empty, yet a manager built from the store gets the earlier answers back |
| `AdaptiveCheck.Q1Window` | scripts/screen6.js:59-74 | Q1 accepts exactly the open interval of half-width 0.5 around 2π·7·10 |
| `AdaptiveCheck.WithWeakSpot` | scripts/screen6.js:167-172 | logging keeps the old list as a prefix, adds at most the key, ends with the key present, leaves the list as it was when the key is already there, and keeps a duplicate-free list duplicate-free |
| `AdaptiveCheck.LogIdempotent` | scripts/screen6.js:167-172 | logging a key twice is logging it once |
| `AdaptiveCheck.Q1Tier` | scripts/screen6.js:76-92 | the first wrong answer gets the hint, the second the popup, every later one the "revisit later" tier |
| `AdaptiveCheck.TiersEscalate` | scripts/screen6.js:77-92 | a later wrong answer never gets a milder tier; the first three are strictly increasing |
| `AdaptiveCheck.Q1Step` | scripts/screen6.js:59-93 | NaN changes nothing; a right answer sets Q1 done and keeps the counter; a wrong one adds exactly 1 and, from the third on, logs `cylinder_csa` |
| `AdaptiveCheck.Q2Reaction` | scripts/screen6.js:95-125 | no selection asks for one; only `side-top-bottom` is right; the two partial choices show the missing parts |
| `AdaptiveCheck.Q2Step` | scripts/screen6.js:95-125 | no selection changes nothing; the right choice sets Q2 done; any other choice logs `cylinder_tsa_concept`; Q1's state is untouched |
| `AdaptiveCheck.Q1RunEffect` | scripts/screen6.js:59-93 | over any sequence of Q1 submissions the counter grows by the number of wrong answers, Q1 is done iff some answer was right, and `cylinder_csa` is logged iff it already was or a wrong answer took the counter to 3 or more |
| `AdaptiveCheck.ThreeWrongAnswersLogCsa` | scripts/screen6.js:76-92 | three wrong answers on a fresh screen log `cylinder_csa` |
| `AdaptiveCheck.DoneIsStable` | scripts/screen6.js:59-125 | no submission undoes a finished question, so once due the call to action stays due |
| `AdaptiveCheck.CylinderAdaptiveCheckScreen.constructor` | scripts/screen6.js:4-12 | counters at 0, nothing done, the log read from the store (empty when absent), nothing shown |
| `AdaptiveCheck.CylinderAdaptiveCheckScreen.LogWeakSpot` | scripts/screen6.js:167-172 | a missing key is appended and the list written back; a present key changes nothing, the store included |
| `AdaptiveCheck.CylinderAdaptiveCheckScreen.OfferNextOrDeeper` | scripts/screen6.js:147-154 | the row is revealed once both questions are done, and never hidden |
| `AdaptiveCheck.CylinderAdaptiveCheckScreen.HandleQ1` | scripts/screen6.js:59-93 | the state moves by the Q1 step; the hint shows on the first wrong answer and hides on the second, which opens the popup; the row stays shown iff both are done; the store matches the log |
| `AdaptiveCheck.CylinderAdaptiveCheckScreen.HandleQ2` | scripts/screen6.js:95-125 | the state moves by the Q2 step; the help blocks show only for the two partial choices; the row and store invariant is kept |
| `TowerCsa.TowerReaction` | scripts/screen7.js:42-61 | NaN asks for a number; right iff within 0.5 of 2π·7·72; a wrong answer gets the hint iff no earlier wrong answer, the worked value otherwise |
| `TowerCsa.TowerAttempts` | scripts/screen7.js:46-54 | the counter grows by 1 exactly on a wrong answer and is otherwise unchanged |
| `TowerCsa.NoHintAfterFirstWrong` | scripts/screen7.js:54-60 | once an answer was wrong the hint message never appears again |
| `TowerCsa.HintAtMostOnce` | scripts/screen7.js:54-60 | in any sequence of submissions the hint message appears at most once (there is no third tier) |
| `TowerCsa.TowerCSAScreen.constructor` | scripts/screen7.js:4-11 | the counter starts at 0 with the hint hidden |
| `TowerCsa.TowerCSAScreen.Check` | scripts/screen7.js:42-61 | the feedback and counter follow the reaction and counter functions; the hint opens on the first wrong answer |
| `CokeCan.ClampPitch` | scripts/coke-can-3d.js:326 | the pitch is kept in [-45, 45]: unchanged inside, the nearer bound outside |
| `CokeCan.MoveStep` | scripts/coke-can-3d.js:316-332 | a move while not dragging changes nothing; during a drag the pitch stays in range and the last position is the event's |
| `CokeCan.DragYawTelescopes` | scripts/coke-can-3d.js:316-332 | over a whole drag the horizontal rotation changes by half the distance from the press to the last position, and the pitch stays in [-45, 45] |
| `CokeCan.IdleMovesIgnored` | scripts/coke-can-3d.js:317 | any number of moves without a drag leave the state as it was |
| `CokeCan.CokeCan3D.constructor` | scripts/coke-can-3d.js:3-23 | rest position, not dragging, auto-rotating at speed 1; with a container the first rotation step has been taken |
| `CokeCan.CokeCan3D.AutoRotate` | scripts/coke-can-3d.js:398-405 | a step adds the speed to the horizontal rotation while auto-rotating and does nothing otherwise |
| `CokeCan.CokeCan3D.StartAutoRotation` | scripts/coke-can-3d.js:414-417 | auto-rotation is on and its first step taken |
| `CokeCan.CokeCan3D.StopAutoRotation` | scripts/coke-can-3d.js:419-421 | auto-rotation is off |
| `CokeCan.CokeCan3D.PauseAutoRotation` | scripts/coke-can-3d.js:388-390 | auto-rotation is off |
| `CokeCan.CokeCan3D.ResumeAutoRotation` | scripts/coke-can-3d.js:392-396 | during a drag nothing changes; otherwise rotation restarts with one step |
| `CokeCan.CokeCan3D.OnMouseDown` | scripts/coke-can-3d.js:308-314 | a drag starts at the pointer and auto-rotation stops |
| `CokeCan.CokeCan3D.OnMouseMove` | scripts/coke-can-3d.js:316-332 | the state moves by the drag step, and the pitch stays in [-45, 45] |
| `CokeCan.CokeCan3D.OnMouseUp` | scripts/coke-can-3d.js:334-337 | the drag ends and auto-rotation resumes with one step |
| `CokeCan.CokeCan3D.OnTouchStart` | scripts/coke-can-3d.js:339-347 | one finger starts a drag like a mouse press; any other count changes nothing |
| `CokeCan.CokeCan3D.OnTouchMove` | scripts/coke-can-3d.js:349-366 | one finger during a drag moves like the mouse; otherwise nothing changes; the pitch stays in range |
| `CokeCan.CokeCan3D.OnTouchEnd` | scripts/coke-can-3d.js:368-371 | as a mouse release |
| `CokeCan.CokeCan3D.ResetView` | scripts/coke-can-3d.js:407-411 | the view is reset to pitch 10, rotation 0, within range |
| `CokeCan.CokeCan3D.Destroy` | scripts/coke-can-3d.js:424-440 | auto-rotation is off and no drag remains |
| `CokeCan.DragGesture` | scripts/coke-can-3d.js:308-337 | a press, any moves and a release on a new can leave the pitch in range, the rotation at its start plus half the horizontal distance plus the release's step, and auto-rotation on; without moves the pitch stays 0 and the rotation gains only the release's step |
| `CylinderSim.Csa` | scripts/screen5.js:89 | the curved area of a real cylinder is non-negative |
| `CylinderSim.Tsa` | scripts/screen5.js:90 | the total area is at least the curved area |
| `CylinderSim.Volume` | scripts/screen5.js:91 | the volume of a real cylinder is non-negative |
| `CylinderSim.Litres` | scripts/screen5.js:92 | the capacity times 1000 is the volume in cm³ |
| `CylinderSim.TsaIsCsaPlusEnds` | scripts/screen5.js:89-90 | total minus curved area is exactly 2πr² |
| `CylinderSim.UnwrapIsCurvedSurface` | scripts/screen5.js:107-111 | the unwrapped rectangle's area is 100 times the curved area and its width 10 times the circumference |
| `CylinderSim.DoublingRadius` | scripts/screen5.js:46-50 | doubling r doubles the curved area and quadruples the volume; doubling h doubles both |
| `CylinderSim.ReadoutFor` | scripts/screen5.js:80-97 | the panel's total minus curved area is 2πr² and its litres are the volume over 1000 |
| `CylinderSim.FillPercent` | scripts/screen5.js:124-132 | the fill is 0% exactly when water is off |
| `CylinderSim.CylinderSimScreen.constructor` | scripts/screen5.js:4-12 | r = 4, h = 10, ends shown, label and water off, and everything drawn agrees |
| `CylinderSim.CylinderSimScreen.UpdateEnds` | scripts/screen5.js:119-122 | top and bottom visibility equal the ends flag |
| `CylinderSim.CylinderSimScreen.UpdateFill` | scripts/screen5.js:124-132 | the fill is 0% without water and 70% with |
| `CylinderSim.CylinderSimScreen.UpdateUnwrap` | scripts/screen5.js:134-136 | the unwrapped side shows iff the label flag is on |
| `CylinderSim.CylinderSimScreen.UpdateAll` | scripts/screen5.js:80-117 | every figure and drawing agrees with the current radius, height and flags |
| `CylinderSim.CylinderSimScreen.SetRadius` | scripts/screen5.js:54-57 | the radius takes the slider's value and everything is redrawn; flags and height untouched |
| `CylinderSim.CylinderSimScreen.SetHeight` | scripts/screen5.js:58-61 | the height takes the slider's value and everything is redrawn; flags and radius untouched |
| `CylinderSim.CylinderSimScreen.ToggleLabel` | scripts/screen5.js:63-67 | flips only the label flag and keeps the display consistent |
| `CylinderSim.CylinderSimScreen.ToggleFill` | scripts/screen5.js:68-72 | flips only the water flag and keeps the display consistent |
| `CylinderSim.CylinderSimScreen.ToggleTopBottom` | scripts/screen5.js:73-77 | flips only the ends flag and keeps the display consistent |
| `CylinderSim.ToggleTwiceRestores` | scripts/screen5.js:63-77 | on any screen whose display agrees with its state, pressing each toggle twice restores every field: radius, height, flags, figures and what is shown |
| `BeakerSim.Capacity` | scripts/screen8.js:92-94 | a beaker's volume πr²h is non-negative |
| `BeakerSim.BeakersHoldTheSame` | scripts/screen8.js:92-107 | both beakers hold 900π and the 0.01 comparison reports them equal |
| `BeakerSim.FillHeight` | scripts/screen8.js:133-140 | the water height is at most 160 (A) or 60 (B), proportional below the full volume and at the cap above it |
| `BeakerSim.WaterTop` | scripts/screen8.js:143-152 | the water's top edge plus its height is the beaker's fixed bottom, 180 for A and 70 for B |
| `BeakerSim.BothFillToTheBrim` | scripts/screen8.js:133-140 | both beakers fill to 160 and 60 |
| `BeakerSim.Explain` | scripts/screen8.js:176-217 | "same volume" iff equal; otherwise A is the larger iff vA > vB, larger and smaller differ, and the difference is the absolute gap |
| `BeakerSim.OutcomeIgnoresGuess` | scripts/screen8.js:103-125 | the explanation, computed from the volumes alone, is "same volume" |
| `BeakerSim.CountUp` | scripts/screen8.js:158-172 | the counter's displays never exceed the target, never decrease and end with exactly the target; a positive target takes 50 steps of target/50 and then the target |
| `BeakerSim.BeakerSimScreen.constructor` | scripts/screen8.js:2-26 | no guess, controls hidden, both beakers empty at their bottom edges |
| `BeakerSim.BeakerSimScreen.SelectBeaker` | scripts/screen8.js:64-90 | "A", "B" and "equal" record that guess; any other string keeps the previous guess; the controls show either way |
| `BeakerSim.BeakerSimScreen.CalculateVolumes` | scripts/screen8.js:92-101 | the two volumes, equal to each other |
| `BeakerSim.BeakerSimScreen.AnimateWaterFill` | scripts/screen8.js:128-174 | the beaker's water takes the capped height with its bottom fixed, the other beaker is untouched, and its counter's displays never exceed the volume, never decrease, end at the volume and number 51 for a positive volume |
| `BeakerSim.BeakerSimScreen.ShowExplanation` | scripts/screen8.js:176-221 | the explanation is computed from the recomputed volumes |
| `BeakerSim.BeakerSimScreen.StartWaterFill` | scripts/screen8.js:103-126 | without a guess nothing changes; with one, both beakers fill to the brim, both counters count up to their beaker's volume and are shown, the explanation is "same volume", and the guess and the fill controls are kept |
| `DabbaQuestion.Classify` | scripts/screen2.js:306-333 | right iff the answer is exactly "rectangle"; "square", "circle", "something-else" each get their hint; anything else, a missing attribute included, asks to select |
| `DabbaQuestion.FirstRectangle` | scripts/screen2.js:345-349 | the first option carrying "rectangle", or none when no option does |
| `DabbaQuestion.DabbaQuestionScreen.constructor` | scripts/screen2.js:4-14 | no option selected and nothing marked |
| `DabbaQuestion.DabbaQuestionScreen.SelectOption` | scripts/screen2.js:270-362 | the clicked option's answer is recorded and classified; only it is selected; after a right answer only the rectangle option is marked correct, after a wrong one only the selected option is marked incorrect |
| `DabbaQuestion.FourOptions` | scripts/screen2.js:270-362 | with the screen's four options, "rectangle" is marked correct and "circle" incorrect |

## Left out

- Markup, styles and scrolling:
  - the contents of every `innerHTML`;
  - `<link>`/`<script>` element handling;
  - class toggling done only for styling;
  - scrolling;
  - the text of feedback messages. Messages are modelled as which message is chosen.
- Timing:
  - the order in which `setTimeout`, `requestAnimationFrame` and script `onload`/`onerror` callbacks run against user events;
  - the 300 ms and 1 s navigation delays of the quiz.
  Each callback runs as a method call at the point its timer fires.
- The Three.js scene of screen 2, the CSS geometry of the can, speech synthesis, and the bot's fly-in animations. These are rendering only.
- Screens 1, 3 and 4. Screen 1 repeats screen 2's classifier; screens 3 and 4 play videos. They are not part of this model.
- Particles placed with `Math.random`.
- `alert` and `console` output, and placeholder actions: `reviewAnswers`, `continueLearning`, `goDeeper`, `debugQuizState`, quiz countdown and start.
- Host wiring. `NextStep` and `RetakeQuiz` return the screen to load rather than calling the navigator, and screen 6's "move ahead" to screen 7 is not modelled. The model takes the screen returned as the one the navigator loads, which assumes a working `window.app`. `scripts/main.js:402-408` does not provide one. It copies `app` into `window.app` when the script loads, before the `DOMContentLoaded` handler assigns `app`, and a top-level `let` makes no window property. As written, `window.app` stays undefined, so every guarded call takes its no-app branch: `scripts/quiz.js:107`, `203`, `229`, `420` and `scripts/screen6.js:162`. The quiz then logs that the app was not found and does not navigate.
- `generateQuestionResults` (per-question HTML rows) and the HTML wrapping of the strengths and improvements lists. The lists themselves are modelled.
- The `DOMContentLoaded` listener that creates a quiz manager from the active screen's id.
- IEEE-754 doubles: rounding, `toFixed`, infinities. All arithmetic is exact over the reals with π = 3.141592653589793.
- `Quiz.IsCorrect`: a choice token recorded for question 4 or 5 is marked wrong. JavaScript would first convert a numeric-looking token to a number; no answer button on those screens carries one. The model compares over the reals; the program compares doubles, so an answer 0.1 away, or within rounding of 0.1 away, is decided by double rounding. For question 4, 439.5 is rejected and 439.7 accepted.
- `Quiz.QuizManager.HandleInputAnswer`: the question number is passed in already parsed. A `data-question` attribute that `parseInt` reads as NaN is not modelled.
- `Quiz.Restore`: the stored JSON is taken as already decoded into answers. Malformed JSON is the `Unparseable` backup; JSON's own value conversions are not modelled.
- `AdaptiveCheck.CylinderAdaptiveCheckScreen.constructor`: a corrupt `weakSpots` entry makes the constructor throw, which is not modelled. The stored list is taken as decoded.
- `AdaptiveCheck.CylinderAdaptiveCheckScreen.HandleQ1`: assumes the bot element is present. Without it the solve-together popup never opens.
- Screen 6's "try again" buttons (focus, and hiding the Q2 help), `hideSolveTogetherPopup` and the empty `destroy`. Screen 7's `startQ` and `nudge`, which only show and hide blocks.
- `CokeCan.CokeCan3D.StartAutoRotation`: models one step of the rotation loop. Each call also starts a fresh animation-frame loop, so a second start while a loop runs makes the can turn once per running loop per frame. Screen 1 calls it again one second after construction. The number of running loops is not modelled.
- `CokeCan.CokeCan3D.Destroy`: removing listeners is not modelled. The source removes handlers it never registered under those references, so it has no effect.
- `BeakerSim.CountUp`: the 50 increments of target/50 add up to the target exactly over the reals. With doubles they may fall short, and the counter then takes one more capped step before the final display.
- Screen 2's `stopAutoRotation` call on a correct answer: the screen never assigns the can it would stop, so the call never runs.
- Screen 5's hint text set by a timer after the first render.
- The navigator's `showErrorScreen` path, and `updateNavigation`'s early return when the pager does not exist yet. The model builds the pager in the constructor, where the source's `setupNavigation` builds it.
