# Trivia quiz core in Dafny

This project models the client-side core of a browser trivia quiz. The rest of the
application is 3D and UI presentation. The core has two parts:

- **The question pipeline** (`client/src/lib/hooks/useTrivia.ts`), module `Trivia`. It builds
  the Open Trivia DB query parameters and maps the reply's `response_code` to an error message.
  It also normalises raw questions (`processQuestions`): each question gets its decoded texts,
  the id `index`, and a Fisher–Yates shuffled answer list (`shuffleArray`).
- **The quiz session store** (`client/src/lib/stores/useQuiz.ts`), module `QuizStore`. It is
  one session record with nine actions. Some actions also write the player record and the
  history into local storage. Each action is a pure function of a `Session` (the state plus
  the two storage slots). Most return the next `Session`. `SelectAnswer` returns a
  `Result<Session, string>`, because the lookup can throw. `LoadSavedProgress` returns a
  `(Session, bool)` pair, because the action also answers whether a resume point exists.

`InitialState` is the store's starting record (empty name, no questions, index 0, no
selection, no answers, every flag false, no timestamps, empty history), and `EmptyStorage` is
local storage with neither key written.

Module `QuizSession` adds an action type and a runner over action sequences. It proves the
invariants the actions keep, and it replays end-to-end scenarios of a quiz run.
Module `Types` holds the records of `client/src/lib/types.ts`. Module `Basics` holds
`Option` and `Result`.

How the model treats the environment:

- **Local storage** is `Storage(playerData, history)`: the two keys the store writes by hand,
  `trivia_player_data` and `trivia_quiz_history`. A key that was never written is `None`. The
  third key, `quiz-storage`, is rewritten by the persistence middleware after every state
  change; its content is always `Partialize(state)`, so the model leaves it implicit.
  This distinction matters: `loadSavedProgress` replaces the in-memory history only when the
  history key exists, while `submitQuiz` reads a missing key as the empty list.
- **`Math.random`** is a caller-supplied sequence of reals in [0, 1). Draw `k` of one shuffle
  serves loop index `i = n-1-k`, and the index is `floor(r * (i+1))`. `processQuestions` takes
  one such sequence per question.
- **`decodeHtmlEntities`** depends on the browser DOM. It is the parameter
  `decode: string -> string`, and nothing is assumed about it.
- **The clock** (`Date.now()`, `new Date().toISOString()`) is a set of parameters to
  `StartQuiz` and `SubmitQuiz`.
- **A thrown exception** becomes `Failure(message)`. `selectAnswer` has no current question
  when the index is past the end (for example right after a resume and before any questions
  are loaded). In that case `questions[i].id` throws, and the model returns a failure with the
  state unchanged.

Behaviour of the code a reader might not expect, which the model keeps as written:

- `processQuestions` spreads the raw question, so `category`, `type` and `difficulty` stay
  undecoded. Only the question text and the answers are decoded.
- `startQuiz` does not clear `selectedAnswer`.
- `loadSavedProgress` restores the name only when the stored name is non-empty.
- The error messages are the code's wording, for example
  "No results found. Try different parameters." for code 1.
- No action checks the quiz phase. For example, submitting is possible in any state.
- `submitQuiz` creates the history key when it is missing.
- `timeTaken` is 0 when `startTime` is 0 as well as when it is null, because JavaScript
  treats 0 as false.

## Model

| member | source | states |
|---|---|---|
| Trivia.BuildQuery | client/src/lib/hooks/useTrivia.ts:16-29 | `amount` is always the first parameter. `category` is sent iff it is present and positive, with its decimal value. `difficulty` and `type` are each sent iff present and non-empty, with their value. Parameters appear in the fixed order amount, category, difficulty, type, with no repeats and no other names. |
| Trivia.DefaultParamsSendOnlyAmount | client/src/lib/hooks/useTrivia.ts:19-29 | The "any" defaults (category 0, empty difficulty and type) send nothing but the amount. |
| Trivia.ResponseErrorMessage | client/src/lib/hooks/useTrivia.ts:50-65 | The generic "Unknown error occurred" is chosen exactly for codes outside 1..4. |
| Trivia.ResponseErrorMessagesDistinct | client/src/lib/hooks/useTrivia.ts:52-65 | Codes 1..4 each get their own message. |
| Trivia.FetchQuestions | client/src/lib/hooks/useTrivia.ts:34-71 | The request succeeds iff the transport reply is ok and `response_code` is 0. A non-ok reply fails with the transport message. A non-zero code fails with its mapped message. On success the value is exactly the normalisation of the reply's results (`processQuestions` applied to them, with the same decoder and draws), so there is one question per result, with ids 0..N-1. |
| Trivia.TransportFailureIgnoresBody | client/src/lib/hooks/useTrivia.ts:34-36 | A non-ok reply fails before the body matters: any two bodies give the same failure. |
| Trivia.NoResultsScenario | client/src/lib/hooks/useTrivia.ts:42-68 | A reply with code 1 rejects with the no-results message and yields no questions. |
| Trivia.Pick | client/src/lib/hooks/useTrivia.ts:114 | `floor(random * (i+1))` is an index in 0..i. |
| Trivia.Swap | client/src/lib/hooks/useTrivia.ts:115 | The destructuring swap exchanges positions i and j and leaves every other position alone. |
| Trivia.SwapPermutes | client/src/lib/hooks/useTrivia.ts:115 | A swap neither adds nor drops elements (equal multisets). |
| Trivia.ShuffleSteps | client/src/lib/hooks/useTrivia.ts:113-116 | The reference definition of the loop's iterations i down to 1, each drawing from the next random value. Its contract states only that the length is kept; `ShuffleStepsPermutes` and `ShuffleStepsKeepsSuffix` state the rest. |
| Trivia.ShuffleStepsPermutes | client/src/lib/hooks/useTrivia.ts:113-116 | Any number of loop iterations yields a permutation of the copy. |
| Trivia.ShuffleStepsKeepsSuffix | client/src/lib/hooks/useTrivia.ts:113-116 | Once iteration i has run, positions above i are never written again. |
| Trivia.Shuffle | client/src/lib/hooks/useTrivia.ts:111-118 | The shuffled list has the input's length and the same multiset of elements. |
| Trivia.ShuffleArray | client/src/lib/hooks/useTrivia.ts:111-118 | The in-place loop on a fresh array copy returns exactly the reference shuffle for the same draws, so the result is a permutation of the input. |
| Trivia.ProcessQuestion | client/src/lib/hooks/useTrivia.ts:87-104 | The record has id `index`, keeps category, type and difficulty undecoded, and holds the decoded question, correct answer and incorrect answers. `all_answers` has one more element than the incorrect answers and is a permutation of the decoded raw correct answer followed by the raw incorrect answers decoded by `MapDecode`. |
| Trivia.ProcessQuestions | client/src/lib/hooks/useTrivia.ts:85-106 | One processed question per raw question, in order. Element k has id k and keeps category, type and difficulty undecoded. Its question, correct answer and each incorrect answer are the decoded raw texts. Its `all_answers` has one more element than the incorrect answers and is a permutation of the decoded correct answer followed by the decoded incorrect answers. |
| Trivia.ProcessedIdsAreIndices | client/src/lib/hooks/useTrivia.ts:86-99 | The ids of a batch of N are exactly 0..N-1, and no two questions share one. |
| QuizStore.SetPlayerName | client/src/lib/stores/useQuiz.ts:57-67 | The name is set and `isNameSet` is true. The stored player record becomes `{name, -1, 0}`. Nothing else in state or storage changes. |
| QuizSession.SetPlayerNameIdempotent | client/src/lib/stores/useQuiz.ts:57-67 | Setting the same name twice gives the same state and storage as setting it once. |
| QuizStore.SetQuestions | client/src/lib/stores/useQuiz.ts:70-72 | The question list is replaced and loading is cleared. Nothing else changes. |
| QuizStore.StartQuiz | client/src/lib/stores/useQuiz.ts:75-84 | The quiz is started, not completed, at index 0, with no answers, start time `now` and no end time. Questions, name, history, selected answer and storage are unchanged. |
| QuizStore.GoToNextQuestion | client/src/lib/stores/useQuiz.ts:87-103 | Below the last index: the index rises by exactly 1 and stays in range, and the selection is cleared. An existing player record gets the old index as resume marker, with name and score kept. A missing record stays missing. At or past the last index, state and storage are unchanged. |
| QuizSession.ResumeMarkerBehindIndex | client/src/lib/stores/useQuiz.ts:87-103 | After an advance, the stored marker is one behind the new index. |
| QuizSession.ResumeMarkerScenario | client/src/lib/stores/useQuiz.ts:87-103 | With five questions, three advances from 0 reach index 3 and leave resume marker 2. |
| QuizStore.GoToPreviousQuestion | client/src/lib/stores/useQuiz.ts:106-114 | Above 0: the index drops by exactly 1 and the selection is cleared. At 0 nothing changes. The index never becomes negative, and storage is never written. |
| QuizStore.SelectAnswer | client/src/lib/stores/useQuiz.ts:117-128 | Succeeds iff the index names a question. It sets the selection and `answers[id]` for that question's id, adds only that key, and keeps every other entry and the storage. Otherwise it throws and nothing changes. |
| QuizStore.Score | client/src/lib/stores/useQuiz.ts:136-141 | The score counts one point per question and so is at most the number of questions. `ScoreCountsCorrect` ties it to the set of correctly answered positions. |
| QuizStore.ScoreCountsCorrect | client/src/lib/stores/useQuiz.ts:135-141 | The score equals the number of positions whose question's stored answer equals its correct answer. |
| QuizStore.ScoreWithoutAnswers | client/src/lib/stores/useQuiz.ts:135-141 | Unanswered questions never count: with no answers the score is 0. |
| QuizStore.ScoreAllCorrect | client/src/lib/stores/useQuiz.ts:135-141 | When every question is answered correctly, the score is the number of questions. |
| QuizStore.CountScore | client/src/lib/stores/useQuiz.ts:136-141 | The counting loop returns the recursive score, which is the number of correctly answered positions. |
| QuizStore.SubmitQuiz | client/src/lib/stores/useQuiz.ts:131-173 | The quiz is completed with end time `now`. In-memory history grows by one entry at the end and earlier entries are kept. That entry has the player's name, a score equal to the correct count (between 0 and the number of questions), `totalQuestions` = number of questions, the elapsed seconds given by `TimeTaken`, and the given date. The stored history is the old one (empty if missing) plus the same entry. An existing player record gets marker -1 and this score. Nothing else in the state changes. |
| QuizStore.TimeTaken | client/src/lib/stores/useQuiz.ts:148 | With a truthy start time, the result times 1000 is the elapsed milliseconds, and it is non-negative when the end is not before the start. With no start time, or a start time of 0, it is 0. |
| QuizSession.SubmitScenario | client/src/lib/stores/useQuiz.ts:131-173 | Three questions with answers correct, incorrect, correct give score 2 of 3, and that result is appended to the stored history too. |
| QuizStore.ResetQuiz | client/src/lib/stores/useQuiz.ts:176-186 | Index 0, no selection, no answers, both flags false and both timestamps cleared. Name, name flag, questions, history and storage are unchanged. |
| QuizStore.LoadSavedProgress | client/src/lib/stores/useQuiz.ts:189-218 | Returns true iff a stored record has a marker >= 0, and then the index is marker + 1. A non-empty stored name is restored with `isNameSet`; otherwise name and flag stay. History is replaced from storage only on the false path and only if the key exists. Neither hand-written storage key is written. |
| QuizSession.FreshNameScenario | client/src/lib/stores/useQuiz.ts:189-218 | On a first visit, naming the player and then loading progress answers false and keeps that name. |
| QuizSession.ResumeBeforeQuestionsThrows | client/src/lib/stores/useQuiz.ts:203-206 | A resume before any questions are loaded leaves the index past the end, and answering then throws. |
| QuizSession.IndexStaysNonNegative | client/src/lib/stores/useQuiz.ts:106-114 | No action makes a non-negative index negative. |
| QuizSession.RunKeepsIndexNonNegative | client/src/lib/stores/useQuiz.ts:105-114 | Over any sequence of actions in which no answer throws, the index stays non-negative. |
| QuizSession.InBoundsPreserved | client/src/lib/stores/useQuiz.ts:87-128 | Every action except replacing questions and loading progress keeps the index inside the question list (or at 0 for an empty list). |
| QuizSession.SelectSucceedsInBounds | client/src/lib/stores/useQuiz.ts:117-128 | With the index in bounds and at least one question, answering never throws. |
| QuizSession.StoredHistoryAppendOnly | client/src/lib/stores/useQuiz.ts:168-172 | Each action keeps the stored history as a prefix. Only submit lengthens it, by exactly one. |
| QuizSession.RunKeepsStoredHistory | client/src/lib/stores/useQuiz.ts:168-172 | Over any sequence of actions in which no answer throws, the stored history at the start is a prefix of the stored history at the end. |
| QuizSession.RunCountsSubmissions | client/src/lib/stores/useQuiz.ts:168-172 | Over any sequence of actions in which no answer throws, the stored history grows by exactly the number of submissions. |
| QuizSession.HistoryAppendOnlyExceptLoad | client/src/lib/stores/useQuiz.ts:153-157 | Every action except loading progress keeps the in-memory history as a prefix. |
| QuizSession.PlayerRecordWriters | client/src/lib/stores/useQuiz.ts:56-218 | Only set-name, next and submit write the two hand-written storage keys (player record and history). |
| QuizSession.PersistedSliceWriters | client/src/lib/stores/useQuiz.ts:222-226 | `Partialize`, the projection of lines 222-226 onto name, name flag and history, changes only through set-name, submit and load-progress. |

## Left out

- `decodeHtmlEntities` depends on the browser DOM. It is an opaque parameter, so nothing is
  proved about decoding itself, such as decoding being idempotent on text without entities.
- `fetch`, `URL` string assembly, JSON parsing of the reply, and react-query caching, staleness
  and retry are not modelled. The query is the list of name/value pairs appended; the reply is
  an ok flag, a status text and an already parsed body.
- Real `localStorage`, `JSON.parse` and malformed stored data are not modelled: storage holds
  well-typed optional values.
- The zustand `create`/`persist` machinery is not modelled, including the write of the
  `quiz-storage` key after every action and rehydration of it on reload. Only the `partialize`
  projection is.
- Trivia.Pick: computes `floor(r * (i+1))` on exact reals. The IEEE-754 rounding of the product
  is not modelled.
- QuizStore.TimeTaken: divides by 1000 over exact reals, not IEEE-754 doubles, so its
  `seconds * 1000.0 == elapsed` clause holds only in the model. Clock values are plain integers
  supplied by the caller.
- QuizStore.SubmitQuiz: the date string is an opaque parameter.
- The `isLoading` flag is modelled as a field, but the store never sets it to true.
- Numbers are unbounded integers. The JavaScript double range for indices, scores and the
  amount does not matter at quiz sizes.
- Cross-tab storage races and concurrent requests: every action runs to completion and there is
  one writer.
- All rendering, animation, audio, routing and page logic (`Quiz.tsx`, `Welcome.tsx`,
  `QuizResults.tsx`, `ProgressBar.tsx`, the `three/` scene) and the static tables of
  `constants.ts` are not modelled.
