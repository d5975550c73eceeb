# Mzalendo Lens — a Dafny model of the screen flow, the quiz engine and the request builder

Mzalendo Lens is a single-page civic-education app. A user pastes the text of a bill or uploads a scan or PDF.
A language model returns a `BillAnalysis`: a summary, a detailed summary, impact cards and a quiz.
The app then walks the user through four screens: intake, breakdown, quiz and summary.

This project models the logic around that model call:

- `Types.dfy` holds the records and the enumeration of `types.ts` as datatypes. `WellFormed` is the relation between `correctIndex` and `options` that the type does not enforce.
- `JsString.dfy` models JavaScript's `trim` (the full ECMAScript white-space set) and `split(",")`. Trim is proved to strip only surrounding white space. Split and join are proved to be inverses.
- `GeminiService.dfy` holds `BuildParts`, which assembles the request's `parts` list with conditional appends. It also holds the schema's category enumeration and the trim-then-parse step. `JSON.parse` is passed in as a parameter.
- `StartScreen.dfy` holds the submit-enable guard and the extraction of the base64 payload from a data URL.
- `Quiz.dfy` holds class `QuizScreen`, with the four state cells of the quiz component. A ghost history of the answers given lets every method be proved against `CorrectCount`: the score always equals the number of answers that match their question's `correctIndex`.
- `SummaryScreen.dfy` holds the pass verdict `score / total >= 0.6`, stated on integers and proved equal to the exact ratio test.
- `Screens.dfy` holds class `App` with the five state cells of the top-level component. It also holds the mounted quiz screen, so the score handed to the summary is tied to the quiz run. `Valid()` holds in every reachable state:
  - an analysis is held exactly off the start screen;
  - loading happens only on the start screen;
  - the error banner shows only on an idle start screen;
  - the summary's score counts the correct answers of a complete run.

The analysis call does not suspend anything in the model. `BeginAnalyze` and `ResolveAnalyze` are two separate events, and the outcome is an input. A reset while a call is in flight leaves `loading` set. The call then still settles: on success the breakdown is shown with the late result, because the source has no cancellation.

## Model

| member | source | states |
|---|---|---|
| `JsString.Trim` | services/geminiService.ts:89 | the result does not start or end with white space, and it is empty exactly when the input is all white space |
| `JsString.TrimPadded` | services/geminiService.ts:89 | white space around a text without white space at its ends is all that `trim` removes |
| `JsString.TrimIdempotent` | services/geminiService.ts:89 | trimming twice equals trimming once |
| `JsString.SplitOnComma` | App.tsx:23 | `split(',')` yields at least one piece and no piece contains a comma |
| `JsString.JoinSplit` | App.tsx:23 | joining the pieces of a split with "," gives back the original string |
| `JsString.SplitJoin` | App.tsx:23 | splitting comma-free pieces joined with "," gives back exactly those pieces |
| `JsString.SplitSingle` | App.tsx:23 | a string splits into one piece iff it contains no comma |
| `Types.ParseCategory` | types.ts:6 | a string maps to a category only if it is that category's name |
| `Types.CategoryRoundTrip` | types.ts:6 | each of the six categories is read back from its name, so the names are distinct |
| `Types.IllFormedNeverScores` | types.ts:9-14 | an option index inside `options` never matches an out-of-range `correctIndex` |
| `GeminiService.HasText` | services/geminiService.ts:13 | text is used only when present; text of white space alone still counts, since nothing is trimmed |
| `GeminiService.BuildParts` | services/geminiService.ts:11-25 | the number of parts is 1 for truthy text plus 2 for a file; the untrimmed prefixed text comes first; the inline data copies the file's payload and MIME type and is followed by the fixed instruction; no input gives an empty list |
| `GeminiService.SchemaCategoriesMatch` | services/geminiService.ts:60-63 | the schema's `category` enumeration holds exactly the six names of `ImpactCard.category` |
| `GeminiService.ResponseResult` | services/geminiService.ts:89 | a response made only of white space reaches `JSON.parse` as the empty string |
| `GeminiService.ResponsePaddingIgnored` | services/geminiService.ts:89 | white space around the response payload does not change what is parsed |
| `GeminiService.CodeFenceKept` | services/geminiService.ts:89 | a payload wrapped in a markdown code fence reaches `JSON.parse` with the fence still on |
| `StartScreen.SubmitDisabled` | App.tsx:89 | the button is disabled iff loading, or the text is all white space and no file is loaded |
| `StartScreen.SubmitEnabledIff` | App.tsx:89 | the button is enabled iff not loading and either some character of the text is not white space or a file is loaded |
| `StartScreen.EnabledHasInput` | App.tsx:87-89 | an enabled button always submits a non-empty text or a file |
| `StartScreen.DataUrlPayload` | App.tsx:23 | `split(',')[1]` is undefined iff the URL has no comma, and otherwise it is comma-free |
| `StartScreen.DataUrlRoundTrip` | App.tsx:23 | the payload of `header,payload` is `payload` |
| `StartScreen.FileFromDataUrl` | App.tsx:22-27 | the file record keeps the declared MIME type and takes the data URL's payload |
| `Quiz.CorrectCount` | App.tsx:171-176 | each answered question contributes at most one point |
| `Quiz.PerfectScoreIff` | App.tsx:174-175 | a full score is reached iff every answer matches its `correctIndex` |
| `Quiz.ScoreAtMostWellFormed` | App.tsx:219-220 | picking among the shown options, the score is at most the number of answered questions whose `correctIndex` is in range, so out-of-range questions never add a point in any quiz |
| `Quiz.CorrectCountAppend` | App.tsx:174-176 | one more answer adds exactly one point iff it is correct |
| `Quiz.QuizScreen.Progress` | App.tsx:162 | in every valid state the numerator equals the number of answers given and is at most the quiz length |
| `Quiz.QuizScreen.constructor` | App.tsx:156-159 | a mounted quiz starts at question 0 with nothing selected, score 0 and no explanation |
| `Quiz.QuizScreen.ScoreBounded` | App.tsx:156-188 | `score <= currentIdx + (selectedIdx != null ? 1 : 0) <= quiz.length` |
| `Quiz.QuizScreen.ProgressFullIff` | App.tsx:162 | the progress numerator equals `quiz.length` iff the last question has been answered |
| `Quiz.QuizScreen.HandleSelect` | App.tsx:171-178 | a no-op once an answer is selected; otherwise records the index, adds one point iff it equals `correctIndex` and shows the explanation; progress never decreases |
| `Quiz.QuizScreen.HandleNext` | App.tsx:180-187 | before the last question: moves on, clears selection and explanation, keeps the score; on the last: emits the score, which counts the correct answers of the whole quiz; progress never decreases |
| `SummaryScreen.IsWinner` | App.tsx:310 | no pass without a positive score, and a positive score equal to the total always passes (also for a total of 0, where the quotient is +Infinity) |
| `SummaryScreen.IsWinnerIffRatio` | App.tsx:310 | for a non-empty quiz the verdict holds iff `score / total >= 3/5` exactly |
| `SummaryScreen.ThresholdExamples` | App.tsx:310 | 2/3 and 3/3 pass, 1/3 fails, and 0/0 (NaN) fails |
| `SummaryScreen.IsWinnerMonotone` | App.tsx:310 | a higher score never turns a pass into a fail |
| `Screens.StepName` | App.tsx:412-420 | the label is "" exactly for `ANALYZING`, so every screen shown has a non-empty label |
| `Screens.StepNamesDistinct` | App.tsx:412-420 | the four screens get four different labels |
| `Screens.App.constructor` | App.tsx:384-388 | the app starts on START with no analysis, not loading, no error and score 0 |
| `Screens.App.BeginAnalyze` | App.tsx:390-392 | sets loading and clears the error, with nothing else changed; the request issued is never empty and has the parts of the given input |
| `Screens.App.ResolveAnalyze` | App.tsx:393-402 | success stores the analysis and shows BREAKDOWN with the label "PHASE 02: DECODE"; failure sets the fixed message and keeps screen and analysis; loading ends either way |
| `Screens.App.HandleBreakdownNext` | App.tsx:435-439 | BREAKDOWN → QUIZ with a freshly mounted quiz at question 0 and score 0 |
| `Screens.App.QuizSelect` | App.tsx:242-246 | an option click on the mounted quiz acts as `handleSelect`: same question, the click recorded and the explanation shown, one point iff correct; a no-op once an answer is selected |
| `Screens.App.QuizNext` | App.tsx:443-449 | after the last question, QUIZ → SUMMARY with `finalScore` equal to the quiz's score; before it, the quiz moves to the next question with nothing selected, the explanation hidden and the score kept, and the screen stays |
| `Screens.App.HandleReset` | App.tsx:405-410 | from any screen: START with the label "PHASE 01: INTEL", no analysis, no error, score 0, quiz unmounted, loading untouched |
| `Screens.App.SummaryVerdict` | App.tsx:452-458 | on the summary the score is at most the number of questions, and it passes iff the quiz is non-empty and `5*score >= 3*total` |

## Left out

- The model call itself (`generateContent`) is not modelled. Nor are the client built from `API_KEY`, the model name, the system instruction and the response schema beyond its category enumeration. They are a foreign library and network I/O. Its outcome is the input `AnalyzeOutcome`, and `JSON.parse` is the parameter `parse`.
- A response whose `text` is undefined makes `.trim()` throw. The model folds this into the rejected outcome.
- The schema's `minItems`/`maxItems` of 3 and its `required` lists are requests to the model only. Nothing checks them locally, and the model accepts any `BillAnalysis`, as the source does.
- Typed configuration, empty-response and malformed-response errors, code-fence stripping and a zero-question guard are not in the code, so they are not in the model. Every failure gives the one fixed message. `CodeFenceKept` shows that fences are not stripped.
- `Quiz.QuizScreen.constructor` requires 1 to 3 questions. The quiz screen reads `quiz[0]` and `levels[currentIdx]`, and the source fails at render outside that range, so `HandleBreakdownNext` carries the same requirement.
- `StartScreen.FileFromDataUrl` returns no file for a data URL without a comma. The source would store the payload `undefined` there. `readAsDataURL` always produces a comma.
- The `FileReader` read, the file-name display and `removeFile` are not modelled. Neither are the start screen's own text and file cells. The submitted text and file are parameters of `BeginAnalyze`.
- The 350 ms explanation timer is folded into the selection: `HandleSelect` shows the explanation at once, and `HandleNext` requires it to show, because its button exists only then.
- The quiz's close button (`window.location.reload()`) reloads the page. That amounts to a new `App`, which is not modelled as an event.
- `correctIndex` is a JSON number and could be fractional. It is modelled as an integer.
- `score / total >= 0.6` in floating point is modelled as `5 * score >= 3 * total`. The two agree for every total far below 2^50. The progress bar's percentage is modelled by its integer numerator.
- The text and colours of the stage banners (`levels`) are presentation. Only their number is modelled, as the bound on the quiz length.
- `console.error`, the detailed-summary modal (`showDetailed`), the layout component and all styling are left out.
