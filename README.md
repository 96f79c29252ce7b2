# Tutoring readiness quiz: a Dafny model

This app is a "Could You Score That Tutoring Gig?" questionnaire. A welcome screen leads into six
fixed questions: a multiple-choice list of subjects, a confidence slider from 1 to 10, and four
single-choice questions. They end on a results screen that turns the answers into a readiness
score from 0 to 100, one of three levels and a two-item action plan. This project models the
decision logic behind those screens:

- `answers.dfy` (module `Answers`): the stored answer values (`Multi` list, `Single` option value,
  `Num` slider position; absence is a missing key) and the JavaScript rules the code relies on:
  truthiness for `x || default`, and lists without repeats.
- `catalog.dfy` (module `Catalog`): the six questions with their ids, kinds, option values and
  slider bounds. It also defines which answer fits which question (`Fits`, `WellTyped`).
- `question_card.dfy` (module `QuestionCard`): the option-click rule. A multiple-choice click
  toggles the value in the list (filter it out, or append it). Any other click replaces the
  answer. `IsSelected` is the selected-option predicate.
- `quiz.dfy` (module `Quiz`, class `QuizScreen`): the cursor `currentQuestion`, the `answers` map,
  the handlers `HandleAnswer`, `HandleNext` and `HandlePrevious`, the `IsAnswered` guard, and the
  Next and Back buttons. `ChooseOption` and `MoveSlider` model a card event reaching `handleAnswer`.
- `results.dfy` (module `Results`): the five score terms, the clamp at 100, the level ladder
  (80 / 60) and the action plan, in two forms: as functions and as the source's step-by-step methods.
- `app.dfy` (module `Shell`, class `App`): the screen state `currentScreen` and the stored
  `quizData`, the three transition handlers, and a full session run through the quiz into the score.

Three details of the code shape the model:

- The slider shows 5 before it is moved (`QuestionCard.jsx`:51, 63). That 5 is never recorded,
  so question 2 stays unanswered and Next stays disabled until the slider moves.
- Question 1's answer is an ordered list (appended to and filtered).
- `handleNext` has no guard of its own. Only the `disabled={!isAnswered}` attribute of the
  Next button keeps an unanswered question from being passed, and the model assumes, as in
  "## Left out", that each press's deferred cursor update lands before the next press.

## Model

| member | source | states |
|---|---|---|
| Catalog.Questions | src/components/QuizScreen.jsx:10-76 | definition: the six questions with their ids, kinds, option values and slider bounds; specified by Catalog.CatalogShape |
| Catalog.IsMultiple | src/components/QuestionCard.jsx:22 | definition of `question.type === 'multiple'`; used by QuestionCard.OptionClick and QuestionCard.IsSelected, and pinned to question 1 alone by Catalog.CatalogShape |
| Catalog.CatalogShape | src/components/QuizScreen.jsx:10-76 | six questions whose ids are their positions plus one; question 2 is the 1..10 slider; question 1 is the only multiple-choice question and offers "none" |
| QuestionCard.RemoveAll | src/components/QuestionCard.jsx:25 | the filtered list holds exactly the elements of the input other than the value, is no longer than the input, and is the input itself when the value is absent |
| QuestionCard.RemoveAllAppend | src/components/QuestionCard.jsx:25 | filtering distributes over concatenation, so the kept elements keep their relative order |
| QuestionCard.RemoveAllCounts | src/components/QuestionCard.jsx:25 | every occurrence of the value is removed and every other element keeps its multiplicity |
| QuestionCard.RemoveAllNoDuplicates | src/components/QuestionCard.jsx:25 | filtering a duplicate-free list leaves it duplicate-free |
| QuestionCard.Toggle | src/components/QuestionCard.jsx:24-26 | the clicked value is in the result exactly when it was not in the list; membership of every other value is unchanged |
| QuestionCard.ToggleTwice | src/components/QuestionCard.jsx:22-27 | clicking a value twice, starting from a list without it, restores the original list |
| QuestionCard.ToggleNoDuplicates | src/components/QuestionCard.jsx:24-26 | a click on a duplicate-free list leaves it duplicate-free |
| QuestionCard.CurrentList | src/components/QuestionCard.jsx:23 | definition of `Array.isArray(answer) ? answer : []`; specified by QuestionCard.ClickMultiple |
| QuestionCard.OptionClick | src/components/QuestionCard.jsx:21-31 | a multiple-choice click yields a list in which the clicked value's membership is flipped and every other value's is kept; any other click yields the clicked value |
| QuestionCard.IsSelected | src/components/QuestionCard.jsx:72-74 | definition: list membership for a multiple-choice question, equality otherwise; specified by QuestionCard.ClickSelection |
| QuestionCard.ClickMultiple | src/components/QuestionCard.jsx:22-27 | for a multiple-choice question an absent value is appended at the end, a present one is removed everywhere, and a non-list answer acts as the empty list, giving exactly `[value]` |
| QuestionCard.ClickReplaces | src/components/QuestionCard.jsx:28-30 | for any other question the click's answer is the clicked value, and repeating the click changes nothing |
| QuestionCard.ClickSelection | src/components/QuestionCard.jsx:72-74 | on a multiple-choice question a click flips the clicked option's selection and keeps every other option's; elsewhere exactly the clicked option becomes selected |
| QuestionCard.ClickFits | src/components/QuestionCard.jsx:21-31 | clicking one of the question's own options yields an answer of the shape the catalog admits (a duplicate-free list of its options, or one option) |
| Quiz.Answered | src/components/QuizScreen.jsx:113-114 | definition of the `isAnswered` test on one answer; specified by Quiz.AnsweredExactly |
| Quiz.AnsweredExactly | src/components/QuizScreen.jsx:113-114 | an emptied list and the number 0 count as answered (the strict `!==` tests); only a missing answer or '' is unanswered. Option clicks and slider moves always leave the question answered (`ensures IsAnswered()` on Quiz.QuizScreen.ChooseOption and Quiz.QuizScreen.MoveSlider) |
| Quiz.UnmovedSliderUnanswered | src/components/QuizScreen.jsx:112-114 | a missing question-2 entry is unanswered; the quiz starts with none, and only Quiz.QuizScreen.MoveSlider creates one (Quiz.QuizScreen.ChooseOption keeps key 2 and navigation keeps all answers) |
| Quiz.QuizScreen.CurrentQuestionData | src/components/QuizScreen.jsx:112 | definition of `questions[currentQuestion]`; used by Quiz.QuizScreen.ChooseOption and Quiz.QuizScreen.MoveSlider |
| Quiz.QuizScreen.CurrentAnswer | src/components/QuizScreen.jsx:113 | definition of `answers[currentQuestionData.id]`; used by Quiz.QuizScreen.IsAnswered and Quiz.QuizScreen.ChooseOption |
| Quiz.QuizScreen.IsAnswered | src/components/QuizScreen.jsx:112-114 | definition: `Answered` of the current question's entry |
| Quiz.QuizScreen.NextEnabled | src/components/QuizScreen.jsx:161 | definition: the Next button is enabled exactly when the current question is answered; used by Quiz.QuizScreen.ClickNext |
| Quiz.QuizScreen.BackEnabled | src/components/QuizScreen.jsx:148 | definition: Back is enabled everywhere but index 0; Quiz.QuizScreen.HandlePrevious moves the cursor exactly when it holds |
| Quiz.QuizScreen.constructor | src/components/QuizScreen.jsx:79-80 | a fresh quiz is on question index 0 with no answers |
| Quiz.QuizScreen.HandleAnswer | src/components/QuizScreen.jsx:83-88 | the given id now maps to the given answer, every other key is unchanged, and the cursor does not move |
| Quiz.QuizScreen.HandleNext | src/components/QuizScreen.jsx:90-100 | below the last index the cursor advances by one and nothing is reported; at the last index the cursor stays and completion reports the current answers; answers never change and the cursor stays in 0..5 |
| Quiz.QuizScreen.HandlePrevious | src/components/QuizScreen.jsx:102-110 | at index 0 nothing changes; otherwise the cursor goes back by one; answers never change; the cursor moves exactly when Back is enabled |
| Quiz.QuizScreen.ClickNext | src/components/QuizScreen.jsx:159-161 | a press while the current question is unanswered changes nothing; otherwise it does what `handleNext` does |
| Quiz.QuizScreen.ChooseOption | src/components/QuestionCard.jsx:21-31 | the current question's entry becomes the click's answer, every other entry (question 2's among them) is unchanged, the question is then answered, the cursor stays, and a well-shaped answer map stays well-shaped |
| Quiz.QuizScreen.MoveSlider | src/components/QuestionCard.jsx:17-19 | the current question's entry becomes the slider's integer, every other entry is unchanged, the question is then answered, and a well-shaped answer map stays well-shaped |
| Quiz.NextThenPrevious | src/components/QuizScreen.jsx:90-110 | from any index but the last, Next followed by Back returns to the same index with the same answers |
| Answers.Get | src/components/QuizScreen.jsx:113 | definition of `answers[id]` / `data[id]`, a missing key read as `undefined`; used by Quiz.QuizScreen.HandleAnswer and the Results score terms |
| Answers.Truthy | src/components/ResultsScreen.jsx:13 | definition of JavaScript truthiness for stored answers (every list truthy, '' and 0 falsy); specified through Results.SubjectCases and Results.ConfidenceCases |
| Answers.GetOr | src/components/ResultsScreen.jsx:22 | definition of `data[id] \|\| fallback`; specified through Results.SubjectCases and Results.ConfidenceCases |
| Results.Min | src/components/ResultsScreen.jsx:16 | definition of `Math.min`; used by Results.SubjectPoints and Results.ReadinessScore |
| Results.SubjectPoints | src/components/ResultsScreen.jsx:12-19 | the question-1 term lies in 0..25 |
| Results.SubjectCases | src/components/ResultsScreen.jsx:13-19 | a missing answer, "none", '' or 0 gives 0; a list without "none" gives min(15 x length, 25); a non-list truthy answer other than "none" gives 20 |
| Results.NoneDominates | src/components/ResultsScreen.jsx:15 | a list holding "none" scores 0 whatever else it holds |
| Results.ConfidencePoints | src/components/ResultsScreen.jsx:22-23 | definition of `(data[2] \|\| 5) * 2`; specified by Results.ConfidenceCases |
| Results.ConfidenceCases | src/components/ResultsScreen.jsx:22-23 | a missing or falsy confidence ('' or 0) counts as 5 (10 points); any other number n gives 2n |
| Results.ConfidenceDomain | src/components/ResultsScreen.jsx:22-23 | `* 2` is plain arithmetic exactly when question 2 is absent, falsy or a number; '' scores 10 |
| Results.ExperiencePoints | src/components/ResultsScreen.jsx:26-29 | 25 exactly for "often", 15 exactly for "sometimes", otherwise 5 (missing answers included) |
| Results.TimePoints | src/components/ResultsScreen.jsx:32-36 | 15 exactly for "10+", 12 exactly for "7-10", 8 exactly for "4-6", otherwise 5 |
| Results.MotivationPoints | src/components/ResultsScreen.jsx:39-41 | 15 exactly for "all-above", otherwise 10 |
| Results.RawTotal | src/components/ResultsScreen.jsx:10-41 | definition: the sum of the five terms, with nothing for question 4; specified by Results.ScoreInRange and Results.WellTypedTotal |
| Results.ReadinessScore | src/components/ResultsScreen.jsx:10-43 | definition: the raw total clamped at 100; specified by Results.ScoreInRange, Results.Question4Ignored and Results.EmptyMapScore |
| Results.CalculateReadinessScore | src/components/ResultsScreen.jsx:9-44 | the step-by-step accumulation equals the sum of the five terms clamped at 100 |
| Results.ScoreInRange | src/components/ResultsScreen.jsx:10-43 | with a non-negative confidence the score is in 0..100, never above the raw total, and exactly 100 when the raw total reaches 100 |
| Results.WellTypedConfidence | src/components/QuizScreen.jsx:24-30 | an answer map of the catalog's shape has a numeric confidence within the slider's 1..10 |
| Results.WellTypedTotal | src/components/ResultsScreen.jsx:10-43 | every answer map the quiz can build has a raw total in 22..100, so the clamp leaves it unchanged |
| Results.ClampExample | src/components/ResultsScreen.jsx:43 | a confidence of 50 gives a raw total of 120, which the clamp turns into 100 |
| Results.ScoreReadsScoredIdsOnly | src/components/ResultsScreen.jsx:9-44 | two maps that agree on ids 1, 2, 3, 5 and 6 score the same |
| Results.Question4Ignored | src/components/ResultsScreen.jsx:9-44 | adding, changing or removing question 4's answer leaves the score unchanged |
| Results.EmptyMapScore | src/components/ResultsScreen.jsx:13-43 | the empty map scores 0 + 10 + 5 + 5 + 10 = 30, which is "Getting Started" |
| Results.ScenarioScore | src/components/ResultsScreen.jsx:9-95 | the answers math+science, 8, often, setting-rates, 7-10, all-above fit the catalog and score 93; that score's level is "Ready to Launch!" and its plan is "Start Marketing Yourself" then "Set Your Rates" |
| Results.ReadinessLevel | src/components/ResultsScreen.jsx:46-50 | "Ready to Launch!" iff score >= 80, "Almost There!" iff 60 <= score < 80, "Getting Started" iff score < 60 |
| Results.LevelName | src/components/ResultsScreen.jsx:47-49 | definition: the level texts; specified by Results.LevelBoundaries |
| Results.LevelMonotone | src/components/ResultsScreen.jsx:46-50 | a higher score never gives a lower level |
| Results.LevelBoundaries | src/components/ResultsScreen.jsx:46-50 | 80 is "Ready to Launch!", 79 and 60 are "Almost There!", 59 is "Getting Started" |
| Results.Plan | src/components/ResultsScreen.jsx:52-90 | every tier's plan has exactly two recommendations |
| Results.GetActionPlan | src/components/ResultsScreen.jsx:52-91 | the pushed list has two entries and is the fixed plan of the score's level; the answer map plays no part |
| Results.PlanIdentifiesLevel | src/components/ResultsScreen.jsx:55-88 | two levels share a plan only if they are the same level, so the plan shown always matches the level shown |
| Results.Evaluate | src/components/ResultsScreen.jsx:93-95 | the score, the level of that score, and the plan of that level are computed from one map |
| Shell.Wired | src/App.jsx:28-62 | definition: Start only on the welcome screen, Complete only on the quiz, Restart only on the results, once any exit animation has finished; specified by Shell.App.Dispatch |
| Shell.App.constructor | src/App.jsx:8-9 | the app starts on the welcome screen with an empty stored map |
| Shell.App.HandleStartQuiz | src/App.jsx:11-13 | start moves to the quiz screen and leaves the stored map unchanged |
| Shell.App.HandleQuizComplete | src/App.jsx:15-18 | completion stores exactly the given map and moves to the results screen |
| Shell.App.HandleRestart | src/App.jsx:20-23 | restart empties the stored map and moves to the welcome screen |
| Shell.App.Dispatch | src/App.jsx:28-62 | the callback of the screen `currentScreen` names runs its handler, with that handler's effect; a callback of any other screen changes nothing (assuming no screen is still animating out, see "## Left out") |
| Shell.App.ShownScore | src/App.jsx:60 | the results screen scores the stored map, which is always in 22..100 and equals its unclamped total |
| Shell.RestartThenComplete | src/App.jsx:15-23 | after restart, start and a new completion, the score shown is that of the new answers alone |
| Shell.ScenarioRun | src/App.jsx:7-62 | a session driven through the welcome, quiz and results handlers with the sample answers shows score 93 and "Ready to Launch!" |

## Left out

- Rendering, Tailwind classes, the level colours, the tier message text and the recommendation icons: presentation with no logic.
- framer-motion animations, `AnimatePresence`, `SafeIcon` and the icon map: foreign UI libraries.
- Shell.App.Dispatch: assumes no callback fires from a screen or card while it animates out. `<AnimatePresence mode="wait">` (`App.jsx`:27) keeps the outgoing screen mounted for its 0.3 s exit while `currentScreen` already holds the new value, and the outgoing question card stays for 0.2 s (`QuizScreen.jsx`:125-131). Reading the code, a second Finish press during the quiz's exit would call `handleQuizComplete` again and overwrite `quizData`, though the results screen is already current. A click on the outgoing card would go to the previous question's id with that card's frozen `answer`, so two clicks on one value would not restore the list. States reached in that window are not modelled.
- `isAnimating` and the 150 ms `setTimeout` in Next and Back are not modelled. `isAnimating` is set but never read. The guards test the cursor of the current render, while the update `prev => prev ± 1` lands 150 ms later, so presses faster than the delay are not blocked. Reading the code, two quick Next presses at index 4 would leave the cursor at 6, and `questions[6]` is undefined. Two quick presses at index 0 would skip the slider question's guard, and two quick Back presses at index 1 would reach -1. The model assumes each press's deferred update lands before the next press.
- Quiz.QuizScreen.HandleNext: its `ensures Valid()` (cursor in 0..5) holds only under that assumption.
- Quiz.QuizScreen.HandlePrevious: its `ensures Valid()` holds only under that assumption.
- Quiz.QuizScreen.ClickNext: its guard reads the cursor the update has already reached, which the source does only under that assumption.
- `ProgressBar.jsx` (floating-point percentage, `Math.round`) and `WelcomeScreen.jsx` (one callback): display only.
- `parseInt` in `handleSliderChange`: the slider value is taken as an already-parsed integer.
- Question prompts and option labels: text only; the option values are modelled.
- React remounting: a fresh quiz starting at index 0 with no answers is stated by the constructor; the App does not own a quiz object.
- JavaScript `null`: no handler stores it, so `Answer` has no null value and `isAnswered`'s `null` test is vacuous here.
- JavaScript numbers are doubles; every quantity here is a small integer, so exact integers are used.
- Results.CalculateReadinessScore: requires `data[2] || 5` to be a number, which excludes only a truthy non-number answer to question 2. For that, `confidence * 2` would be JavaScript coercion (usually `NaN`), which is not modelled. Every map the quiz builds meets this requirement (`Results.WellTypedConfidence`).
- Shell.App.HandleQuizComplete: requires the map to fit the catalog; the source accepts any object, but its only caller is the quiz's completion, whose answers have that shape.
- Quiz.QuizScreen.ChooseOption: requires the value to be one of the current question's options; only those are rendered as buttons.
- Quiz.QuizScreen.MoveSlider: requires the value to be within the slider's bounds that the range input enforces.
