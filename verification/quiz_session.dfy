/** Sequences of store actions, the invariants they keep, and the end-to-end scenarios the
    store is expected to satisfy. */
module QuizSession {
  import opened Basics
  import opened Types
  import opened QuizStore

  /** One call the UI makes on the store, with the clock readings it needs. */
  datatype Action =
    | SetName(name: string)
    | LoadQuestions(questions: seq<ProcessedQuestion>)
    | Start(now: int)
    | Next
    | Previous
    | Select(answer: string)
    | Submit(now: int, date: string)
    | Reset
    | LoadSaved

  /** The store after one action; the only action that can throw is Select. */
  function Apply(m: Session, a: Action): Result<Session, string> {
    match a
    case SetName(name) => Success(SetPlayerName(m, name))
    case LoadQuestions(qs) => Success(SetQuestions(m, qs))
    case Start(now) => Success(StartQuiz(m, now))
    case Next => Success(GoToNextQuestion(m))
    case Previous => Success(GoToPreviousQuestion(m))
    case Select(answer) => SelectAnswer(m, answer)
    case Submit(now, date) => Success(SubmitQuiz(m, now, date))
    case Reset => Success(ResetQuiz(m))
    case LoadSaved => Success(LoadSavedProgress(m).0)
  }

  /** The store after a run of actions, or the first error thrown. */
  function Run(m: Session, actions: seq<Action>): Result<Session, string>
    decreases |actions|
  {
    if |actions| == 0 then Success(m)
    else match Apply(m, actions[0])
      case Success(m') => Run(m', actions[1..])
      case Failure(e) => Failure(e)
  }

  // ---------------------------------------------------------------------------
  // One-step invariants
  // ---------------------------------------------------------------------------

  /** The current index never becomes negative: only Previous decrements, and only above 0. */
  lemma IndexStaysNonNegative(m: Session, a: Action)
    requires m.state.currentQuestionIndex >= 0
    ensures Apply(m, a).Success? ==> Apply(m, a).value.state.currentQuestionIndex >= 0
  {
  }

  /** The stored history only ever grows at the end; only Submit writes it, by one entry. */
  lemma StoredHistoryAppendOnly(m: Session, a: Action)
    requires Apply(m, a).Success?
    ensures var h := StoredHistory(m.storage);
      var h' := StoredHistory(Apply(m, a).value.storage);
      && h <= h'
      && |h'| == |h| + (if a.Submit? then 1 else 0)
  {
  }

  /** The in-memory history only grows, except when loading progress replaces it from storage. */
  lemma HistoryAppendOnlyExceptLoad(m: Session, a: Action)
    requires Apply(m, a).Success? && !a.LoadSaved?
    ensures m.state.quizHistory <= Apply(m, a).value.state.quizHistory
  {
  }

  /** Only SetName, Next and Submit write the player record. */
  lemma PlayerRecordWriters(m: Session, a: Action)
    requires Apply(m, a).Success? && !a.SetName? && !a.Next? && !a.Submit?
    ensures Apply(m, a).value.storage == m.storage
  {
  }

  /** The persisted slice changes only through SetName, Submit and LoadSaved. */
  lemma PersistedSliceWriters(m: Session, a: Action)
    requires Apply(m, a).Success? && !a.SetName? && !a.Submit? && !a.LoadSaved?
    ensures Partialize(Apply(m, a).value.state) == Partialize(m.state)
  {
  }

  /** The resume marker written by Next is the index being left, so it never exceeds the new index. */
  lemma ResumeMarkerBehindIndex(m: Session)
    requires m.storage.playerData.Some? && CanAdvance(m.state)
    ensures var r := GoToNextQuestion(m);
      ResumeMarker(r.storage) == Some(r.state.currentQuestionIndex - 1)
  {
  }

  /** Setting the same name twice is the same as setting it once. */
  lemma SetPlayerNameIdempotent(m: Session, name: string)
    ensures SetPlayerName(SetPlayerName(m, name), name) == SetPlayerName(m, name)
  {
  }

  /** The index points at a question, or is 0 for an empty list. */
  predicate InBounds(s: QuizState) {
    if |s.questions| == 0 then s.currentQuestionIndex == 0 else HasCurrentQuestion(s)
  }

  /** Navigation, answering, starting, submitting and resetting keep the index in bounds;
      replacing the questions or loading progress are the two actions that can break it. */
  lemma InBoundsPreserved(m: Session, a: Action)
    requires InBounds(m.state) && Apply(m, a).Success?
    requires !a.LoadQuestions? && !a.LoadSaved?
    ensures InBounds(Apply(m, a).value.state)
  {
  }

  /** With the index in bounds and a question present, answering never throws. */
  lemma SelectSucceedsInBounds(m: Session, answer: string)
    requires InBounds(m.state) && |m.state.questions| > 0
    ensures SelectAnswer(m, answer).Success?
  {
  }

  // ---------------------------------------------------------------------------
  // Invariants over runs
  // ---------------------------------------------------------------------------

  /** Over any run, the stored history of the start is a prefix of the stored history at the end. */
  lemma {:induction false} RunKeepsStoredHistory(m: Session, actions: seq<Action>)
    requires Run(m, actions).Success?
    ensures StoredHistory(m.storage) <= StoredHistory(Run(m, actions).value.storage)
    decreases |actions|
  {
    if |actions| > 0 {
      var m' := Apply(m, actions[0]).value;
      StoredHistoryAppendOnly(m, actions[0]);
      RunKeepsStoredHistory(m', actions[1..]);
      var h, h', h'' := StoredHistory(m.storage), StoredHistory(m'.storage), StoredHistory(Run(m, actions).value.storage);
      assert h''[..|h|] == h''[..|h'|][..|h|];
    }
  }

  /** Over any run, the number of stored results grows by exactly the number of submissions. */
  lemma {:induction false} RunCountsSubmissions(m: Session, actions: seq<Action>)
    requires Run(m, actions).Success?
    ensures |StoredHistory(Run(m, actions).value.storage)| == |StoredHistory(m.storage)| + Submissions(actions)
    decreases |actions|
  {
    if |actions| > 0 {
      StoredHistoryAppendOnly(m, actions[0]);
      RunCountsSubmissions(Apply(m, actions[0]).value, actions[1..]);
    }
  }

  /** The number of Submit actions in a run. */
  function Submissions(actions: seq<Action>): nat {
    if |actions| == 0 then 0 else (if actions[0].Submit? then 1 else 0) + Submissions(actions[1..])
  }

  /** Over any run, the current index never becomes negative. */
  lemma {:induction false} RunKeepsIndexNonNegative(m: Session, actions: seq<Action>)
    requires m.state.currentQuestionIndex >= 0 && Run(m, actions).Success?
    ensures Run(m, actions).value.state.currentQuestionIndex >= 0
    decreases |actions|
  {
    if |actions| > 0 {
      IndexStaysNonNegative(m, actions[0]);
      RunKeepsIndexNonNegative(Apply(m, actions[0]).value, actions[1..]);
    }
  }

  // ---------------------------------------------------------------------------
  // Scenarios
  // ---------------------------------------------------------------------------

  function Question(id: int, correct: string): ProcessedQuestion {
    ProcessedQuestion("General", "multiple", "easy", "?", correct, ["x"], id, [correct, "x"])
  }

  /** Three questions, two answered correctly: the submitted result scores 2 out of 3. */
  lemma SubmitScenario()
    ensures var qs := [Question(0, "a"), Question(1, "b"), Question(2, "c")];
      var m := Session(InitialState.(questions := qs, answers := map[0 := "a", 1 := "x", 2 := "c"]), EmptyStorage);
      var r := SubmitQuiz(m, 5000, "2024-01-01T00:00:00.000Z");
      && r.state.quizHistory[0].score == 2
      && r.state.quizHistory[0].totalQuestions == 3
      && StoredHistory(r.storage) == r.state.quizHistory
  {
    var qs := [Question(0, "a"), Question(1, "b"), Question(2, "c")];
    var answers := map[0 := "a", 1 := "x", 2 := "c"];
    assert CorrectIndices(qs, answers) == {0, 2} by {
      assert !IsCorrect(qs[1], answers);
    }
  }

  /** A first visit: after naming the player there is nothing to resume. */
  lemma FreshNameScenario()
    ensures var m := SetPlayerName(Session(InitialState, EmptyStorage), "Ana");
      var r := LoadSavedProgress(m);
      && !r.1 && r.0.state.playerName == "Ana" && r.0.state.isNameSet
  {
  }

  /** Five questions, three advances: the index is 3 and the resume marker is 2. */
  lemma ResumeMarkerScenario(qs: seq<ProcessedQuestion>)
    requires |qs| == 5
    ensures var m := StartQuiz(SetQuestions(SetPlayerName(Session(InitialState, EmptyStorage), "Ana"), qs), 1);
      var r := Run(m, [Next, Next, Next]);
      && r.Success?
      && r.value.state.currentQuestionIndex == 3
      && ResumeMarker(r.value.storage) == Some(2)
  {
    var m := StartQuiz(SetQuestions(SetPlayerName(Session(InitialState, EmptyStorage), "Ana"), qs), 1);
    var m1 := GoToNextQuestion(m);
    var m2 := GoToNextQuestion(m1);
    var m3 := GoToNextQuestion(m2);
    assert [Next, Next, Next][1..] == [Next, Next];
    assert [Next, Next][1..] == [Next];
    assert Run(m, [Next, Next, Next]) == Run(m1, [Next, Next]) == Run(m2, [Next]) == Success(m3);
  }

  /** Loading progress before any question list exists leaves the index past the end, and
      answering then throws: the resumed index is never reconciled with the list. */
  lemma ResumeBeforeQuestionsThrows(name: string, last: int, answer: string)
    requires last >= 0
    ensures var m := Session(InitialState, Storage(Some(PlayerData(name, last, 0)), None));
      var r := LoadSavedProgress(m);
      && r.1
      && r.0.state.currentQuestionIndex == last + 1
      && !InBounds(r.0.state)
      && SelectAnswer(r.0, answer).Failure?
  {
  }
}
