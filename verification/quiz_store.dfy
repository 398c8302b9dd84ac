/** The quiz session store: one record of session state plus the two local-storage slots it
    writes, and the pure transitions that replace the store's actions. */
module QuizStore {
  import opened Basics
  import opened Types

  /** The in-memory session record. Timestamps are milliseconds supplied by the caller. */
  datatype QuizState = QuizState(
    playerName: string,
    isNameSet: bool,
    questions: seq<ProcessedQuestion>,
    currentQuestionIndex: int,
    selectedAnswer: Option<string>,
    answers: map<int, string>,
    isLoading: bool,
    isQuizStarted: bool,
    isQuizCompleted: bool,
    startTime: Option<int>,
    endTime: Option<int>,
    quizHistory: seq<QuizResults>)

  /** The two local-storage keys the actions read and write; None is a key that was never set. */
  datatype Storage = Storage(playerData: Option<PlayerData>, history: Option<seq<QuizResults>>)

  /** The state together with the storage it sees. */
  datatype Session = Session(state: QuizState, storage: Storage)

  /** The slice the persistence middleware writes: name, name flag and history. */
  datatype PersistedSlice = PersistedSlice(playerName: string, isNameSet: bool, quizHistory: seq<QuizResults>)

  /** The store's starting record, field for field as created. */
  const InitialState := QuizState("", false, [], 0, None, map[], false, false, false, None, None, [])

  /** Local storage with neither key written. */
  const EmptyStorage := Storage(None, None)

  /** The history as `submitQuiz` reads it back: a missing key reads as the empty list. */
  function StoredHistory(ls: Storage): seq<QuizResults> {
    ls.history.GetOr([])
  }

  /** The resume marker, when a player record exists. */
  function ResumeMarker(ls: Storage): Option<int> {
    match ls.playerData
    case Some(d) => Some(d.lastCompletedQuestion)
    case None => None
  }

  /** The `partialize` projection. */
  function Partialize(s: QuizState): PersistedSlice {
    PersistedSlice(s.playerName, s.isNameSet, s.quizHistory)
  }

  // ---------------------------------------------------------------------------
  // Actions
  // ---------------------------------------------------------------------------

  /** `setPlayerName`: records the name and overwrites the player record with a fresh one. */
  function SetPlayerName(m: Session, name: string): (r: Session)
    ensures r.state.playerName == name && r.state.isNameSet
    ensures r.state.(playerName := m.state.playerName, isNameSet := m.state.isNameSet) == m.state
    ensures r.storage.playerData == Some(PlayerData(name, -1, 0))
    ensures r.storage.history == m.storage.history
  {
    Session(m.state.(playerName := name, isNameSet := true),
            m.storage.(playerData := Some(PlayerData(name, -1, 0))))
  }

  /** `setQuestions`: replaces the question list and clears the loading flag. */
  function SetQuestions(m: Session, questions: seq<ProcessedQuestion>): (r: Session)
    ensures r.state.questions == questions && !r.state.isLoading
    ensures r.state.(questions := m.state.questions, isLoading := m.state.isLoading) == m.state
    ensures r.storage == m.storage
  {
    Session(m.state.(questions := questions, isLoading := false), m.storage)
  }

  /** `startQuiz`: begins a run at question 0 with no answers; `now` is the clock reading. */
  function StartQuiz(m: Session, now: int): (r: Session)
    ensures r.state.isQuizStarted && !r.state.isQuizCompleted
    ensures r.state.currentQuestionIndex == 0 && r.state.answers == map[]
    ensures r.state.startTime == Some(now) && r.state.endTime == None
    ensures r.state.questions == m.state.questions
    ensures r.state.playerName == m.state.playerName && r.state.isNameSet == m.state.isNameSet
    ensures r.state.quizHistory == m.state.quizHistory
    ensures r.state.selectedAnswer == m.state.selectedAnswer && r.state.isLoading == m.state.isLoading
    ensures r.storage == m.storage
  {
    Session(m.state.(isQuizStarted := true, startTime := Some(now), currentQuestionIndex := 0,
                     answers := map[], isQuizCompleted := false, endTime := None),
            m.storage)
  }

  /** There is a question after the current one. */
  predicate CanAdvance(s: QuizState) {
    s.currentQuestionIndex < |s.questions| - 1
  }

  /** `goToNextQuestion`: moves one question forward when there is one, and then records the
      question just left as the resume marker of an existing player record. */
  function GoToNextQuestion(m: Session): (r: Session)
    ensures CanAdvance(m.state) ==>
      && r.state.currentQuestionIndex == m.state.currentQuestionIndex + 1
      && r.state.currentQuestionIndex < |r.state.questions|
      && r.state.selectedAnswer == None
      && r.state.(currentQuestionIndex := m.state.currentQuestionIndex,
                  selectedAnswer := m.state.selectedAnswer) == m.state
      && (r.storage.playerData.Some? <==> m.storage.playerData.Some?)
      && ResumeMarker(r.storage) == (if m.storage.playerData.Some? then Some(m.state.currentQuestionIndex) else None)
      && (m.storage.playerData.Some? ==>
            r.storage.playerData.value.name == m.storage.playerData.value.name
            && r.storage.playerData.value.score == m.storage.playerData.value.score)
      && r.storage.history == m.storage.history
    ensures !CanAdvance(m.state) ==> r == m
  {
    var s := m.state;
    if s.currentQuestionIndex < |s.questions| - 1 then
      var s' := s.(currentQuestionIndex := s.currentQuestionIndex + 1, selectedAnswer := None);
      var ls := match m.storage.playerData
        case Some(d) => m.storage.(playerData := Some(d.(lastCompletedQuestion := s.currentQuestionIndex)))
        case None => m.storage;
      Session(s', ls)
    else
      m
  }

  /** `goToPreviousQuestion`: moves one question back when not at the first; never writes storage. */
  function GoToPreviousQuestion(m: Session): (r: Session)
    ensures m.state.currentQuestionIndex > 0 ==>
      && r.state.currentQuestionIndex == m.state.currentQuestionIndex - 1
      && r.state.selectedAnswer == None
      && r.state.(currentQuestionIndex := m.state.currentQuestionIndex,
                  selectedAnswer := m.state.selectedAnswer) == m.state
    ensures m.state.currentQuestionIndex <= 0 ==> r == m
    ensures m.state.currentQuestionIndex >= 0 ==> r.state.currentQuestionIndex >= 0
    ensures r.storage == m.storage
  {
    var s := m.state;
    if s.currentQuestionIndex > 0 then
      Session(s.(currentQuestionIndex := s.currentQuestionIndex - 1, selectedAnswer := None), m.storage)
    else
      m
  }

  /** A stand-in for the TypeError thrown when `questions[currentQuestionIndex]` is undefined and
      its `id` is read; the text is V8's, and other engines word it differently. */
  const NoCurrentQuestionError := "TypeError: Cannot read properties of undefined (reading 'id')"

  /** The index names an existing question. */
  predicate HasCurrentQuestion(s: QuizState) {
    0 <= s.currentQuestionIndex < |s.questions|
  }

  /** `selectAnswer`: records the answer for the current question's id, overwriting an earlier
      choice; with no current question the lookup throws and nothing changes. */
  function SelectAnswer(m: Session, answer: string): (r: Result<Session, string>)
    ensures r.Success? <==> HasCurrentQuestion(m.state)
    ensures r.Failure? ==> r.error == NoCurrentQuestionError
    ensures r.Success? ==>
      var id := m.state.questions[m.state.currentQuestionIndex].id;
      && r.value.state.selectedAnswer == Some(answer)
      && id in r.value.state.answers && r.value.state.answers[id] == answer
      && r.value.state.answers.Keys == m.state.answers.Keys + {id}
      && (forall k :: k in m.state.answers && k != id ==> r.value.state.answers[k] == m.state.answers[k])
      && r.value.state.(selectedAnswer := m.state.selectedAnswer, answers := m.state.answers) == m.state
      && r.value.storage == m.storage
  {
    var s := m.state;
    if 0 <= s.currentQuestionIndex < |s.questions| then
      var q := s.questions[s.currentQuestionIndex];
      Success(Session(s.(selectedAnswer := Some(answer), answers := s.answers[q.id := answer]), m.storage))
    else
      Failure(NoCurrentQuestionError)
  }

  // ---------------------------------------------------------------------------
  // Scoring and submission
  // ---------------------------------------------------------------------------

  /** The stored answer for `q` is its correct answer; an unanswered question is never correct. */
  predicate IsCorrect(q: ProcessedQuestion, answers: map<int, string>) {
    q.id in answers && answers[q.id] == q.correctAnswer
  }

  /** The score: one point per question of the list answered correctly. */
  function Score(qs: seq<ProcessedQuestion>, answers: map<int, string>): (n: nat)
    ensures n <= |qs|
  {
    if |qs| == 0 then 0
    else Score(qs[..|qs| - 1], answers) + (if IsCorrect(qs[|qs| - 1], answers) then 1 else 0)
  }

  /** The positions of the correctly answered questions. */
  function CorrectIndices(qs: seq<ProcessedQuestion>, answers: map<int, string>): set<int> {
    set k | 0 <= k < |qs| && IsCorrect(qs[k], answers)
  }

  /** The score counts exactly the correctly answered positions. */
  lemma {:induction false} ScoreCountsCorrect(qs: seq<ProcessedQuestion>, answers: map<int, string>)
    ensures Score(qs, answers) == |CorrectIndices(qs, answers)|
  {
    if |qs| == 0 {
      assert CorrectIndices(qs, answers) == {};
    } else {
      var last := |qs| - 1;
      var init := qs[..last];
      ScoreCountsCorrect(init, answers);
      var extra: set<int> := if IsCorrect(qs[last], answers) then {last} else {};
      assert CorrectIndices(qs, answers) == CorrectIndices(init, answers) + extra;
      assert last !in CorrectIndices(init, answers);
    }
  }

  /** Without answers the score is 0. */
  lemma {:induction false} ScoreWithoutAnswers(qs: seq<ProcessedQuestion>)
    ensures Score(qs, map[]) == 0
  {
    if |qs| > 0 {
      ScoreWithoutAnswers(qs[..|qs| - 1]);
    }
  }

  /** A run with every question answered correctly scores the full length. */
  lemma {:induction false} ScoreAllCorrect(qs: seq<ProcessedQuestion>, answers: map<int, string>)
    requires forall k :: 0 <= k < |qs| ==> IsCorrect(qs[k], answers)
    ensures Score(qs, answers) == |qs|
  {
    if |qs| > 0 {
      ScoreAllCorrect(qs[..|qs| - 1], answers);
    }
  }

  /** The `forEach` loop of `submitQuiz`, counting as it walks the list. */
  method CountScore(qs: seq<ProcessedQuestion>, answers: map<int, string>) returns (score: nat)
    ensures score == Score(qs, answers)
    ensures score == |CorrectIndices(qs, answers)|
  {
    score := 0;
    var k := 0;
    while k < |qs|
      invariant 0 <= k <= |qs|
      invariant score == Score(qs[..k], answers)
    {
      assert qs[..k + 1][..k] == qs[..k];
      if IsCorrect(qs[k], answers) {
        score := score + 1;
      }
      k := k + 1;
    }
    assert qs[..|qs|] == qs;
    ScoreCountsCorrect(qs, answers);
  }

  /** Seconds between start and end; a missing (or zero, hence falsy) start gives 0. */
  function TimeTaken(startTime: Option<int>, endTime: int): (seconds: real)
    ensures startTime.Some? && startTime.value != 0 ==>
              seconds * 1000.0 == (endTime - startTime.value) as real
    ensures startTime.Some? && startTime.value != 0 && startTime.value <= endTime ==> seconds >= 0.0
    ensures startTime.None? || startTime.value == 0 ==> seconds == 0.0
  {
    if startTime.Some? && startTime.value != 0 then (endTime - startTime.value) as real / 1000.0 else 0.0
  }

  /** `submitQuiz`: scores the run, marks it completed, appends one result to the in-memory and
      the stored history, and clears the resume marker of an existing player record. `now` and
      `date` are the clock readings. */
  function SubmitQuiz(m: Session, now: int, date: string): (r: Session)
    ensures var h := m.state.quizHistory;
      && |r.state.quizHistory| == |h| + 1
      && r.state.quizHistory[..|h|] == h
    ensures var res := r.state.quizHistory[|r.state.quizHistory| - 1];
      && res.playerName == m.state.playerName
      && res.score == |CorrectIndices(m.state.questions, m.state.answers)|
      && 0 <= res.score <= |m.state.questions|
      && res.totalQuestions == |m.state.questions|
      && res.date == date
      && res.timeTaken == TimeTaken(m.state.startTime, now)
      && StoredHistory(r.storage) == StoredHistory(m.storage) + [res]
      && (r.storage.playerData.Some? <==> m.storage.playerData.Some?)
      && (m.storage.playerData.Some? ==>
            r.storage.playerData.value == m.storage.playerData.value.(lastCompletedQuestion := -1, score := res.score))
    ensures r.state.isQuizCompleted && r.state.endTime == Some(now)
    ensures r.state.(isQuizCompleted := m.state.isQuizCompleted, endTime := m.state.endTime,
                     quizHistory := m.state.quizHistory) == m.state
  {
    var s := m.state;
    ScoreCountsCorrect(s.questions, s.answers);
    var score := Score(s.questions, s.answers);
    var result := QuizResults(s.playerName, score, |s.questions|, TimeTaken(s.startTime, now), date);
    var player := match m.storage.playerData
      case Some(d) => Some(d.(lastCompletedQuestion := -1, score := score))
      case None => None;
    Session(s.(isQuizCompleted := true, endTime := Some(now), quizHistory := s.quizHistory + [result]),
            Storage(player, Some(StoredHistory(m.storage) + [result])))
  }

  /** `resetQuiz`: back to the shape before a run; identity, questions and history stay. */
  function ResetQuiz(m: Session): (r: Session)
    ensures r.state.currentQuestionIndex == 0 && r.state.selectedAnswer == None && r.state.answers == map[]
    ensures !r.state.isQuizStarted && !r.state.isQuizCompleted
    ensures r.state.startTime == None && r.state.endTime == None
    ensures r.state.playerName == m.state.playerName && r.state.isNameSet == m.state.isNameSet
    ensures r.state.questions == m.state.questions && r.state.quizHistory == m.state.quizHistory
    ensures r.state.isLoading == m.state.isLoading
    ensures r.storage == m.storage
  {
    Session(m.state.(currentQuestionIndex := 0, selectedAnswer := None, answers := map[],
                     isQuizStarted := false, isQuizCompleted := false, startTime := None, endTime := None),
            m.storage)
  }

  /** The player record marks a run to resume. */
  predicate HasResumePoint(ls: Storage) {
    ls.playerData.Some? && ls.playerData.value.lastCompletedQuestion >= 0
  }

  /** `loadSavedProgress`: restores a stored non-empty name; with a resume point, moves to the
      question after it and answers true; otherwise loads a stored history and answers false.
      It never writes storage. */
  function LoadSavedProgress(m: Session): (r: (Session, bool))
    ensures r.1 <==> HasResumePoint(m.storage)
    ensures r.0.storage == m.storage
    ensures r.1 ==> r.0.state.currentQuestionIndex == m.storage.playerData.value.lastCompletedQuestion + 1
    ensures !r.1 ==> r.0.state.currentQuestionIndex == m.state.currentQuestionIndex
    ensures m.storage.playerData.Some? && m.storage.playerData.value.name != "" ==>
              r.0.state.playerName == m.storage.playerData.value.name && r.0.state.isNameSet
    ensures !(m.storage.playerData.Some? && m.storage.playerData.value.name != "") ==>
              r.0.state.playerName == m.state.playerName && r.0.state.isNameSet == m.state.isNameSet
    ensures r.0.state.quizHistory == (if !r.1 && m.storage.history.Some? then m.storage.history.value
                                      else m.state.quizHistory)
    ensures r.0.state.(playerName := m.state.playerName, isNameSet := m.state.isNameSet,
                       currentQuestionIndex := m.state.currentQuestionIndex,
                       quizHistory := m.state.quizHistory) == m.state
  {
    var s := m.state;
    var named := match m.storage.playerData
      case Some(d) => if d.name != "" then s.(playerName := d.name, isNameSet := true) else s
      case None => s;
    if m.storage.playerData.Some? && m.storage.playerData.value.lastCompletedQuestion >= 0 then
      (Session(named.(currentQuestionIndex := m.storage.playerData.value.lastCompletedQuestion + 1), m.storage), true)
    else
      var loaded := match m.storage.history
        case Some(h) => named.(quizHistory := h)
        case None => named;
      (Session(loaded, m.storage), false)
  }
}
