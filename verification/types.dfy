/** The records exchanged between the trivia source, the question pipeline and the quiz store. */
module Types {
  import opened Basics

  /** One raw entry of the trivia source; every text may still contain HTML entities. */
  datatype TriviaQuestion = TriviaQuestion(
    category: string,
    questionType: string,
    difficulty: string,
    question: string,
    correctAnswer: string,
    incorrectAnswers: seq<string>)

  /** A question ready for play: decoded texts, a batch-local id and the shuffled answer list. */
  datatype ProcessedQuestion = ProcessedQuestion(
    category: string,
    questionType: string,
    difficulty: string,
    question: string,
    correctAnswer: string,
    incorrectAnswers: seq<string>,
    id: int,
    allAnswers: seq<string>)

  /** The request parameters; the optional ones are left out of the request when absent or empty. */
  datatype QuizParams = QuizParams(
    amount: int,
    category: Option<int>,
    difficulty: Option<string>,
    questionType: Option<string>)

  /** The parsed body of the trivia source's reply. */
  datatype TriviaResponse = TriviaResponse(responseCode: int, results: seq<TriviaQuestion>)

  /** The player/resume record kept in local storage; lastCompletedQuestion -1 means "nothing to resume". */
  datatype PlayerData = PlayerData(name: string, lastCompletedQuestion: int, score: int)

  /** One entry of the quiz history. */
  datatype QuizResults = QuizResults(
    playerName: string,
    score: int,
    totalQuestions: int,
    timeTaken: real,
    date: string)
}
