/** The question pipeline of the trivia hook: request parameters, the reply's status mapping,
    and the normalisation of raw questions (decoding, ids, Fisher-Yates shuffled answers). */
module Trivia {
  import opened Basics
  import opened Types

  // ---------------------------------------------------------------------------
  // Request parameters
  // ---------------------------------------------------------------------------

  /** One `name=value` pair appended to the request URL. */
  type QueryParam = (string, string)

  function DigitChar(d: nat): char
    requires d < 10
  {
    "0123456789"[d]
  }

  /** Decimal rendering of a natural number, as `Number.prototype.toString` prints it. */
  function NatToString(n: nat): (r: string)
    ensures |r| > 0
    decreases n
  {
    if n < 10 then [DigitChar(n)] else NatToString(n / 10) + [DigitChar(n % 10)]
  }

  function IntToString(n: int): (r: string)
    ensures |r| > 0
  {
    if n < 0 then "-" + NatToString(-n) else NatToString(n)
  }

  /** The position of each parameter name in the request; names are appended in this order. */
  function Rank(key: string): int {
    if key == "amount" then 0
    else if key == "category" then 1
    else if key == "difficulty" then 2
    else if key == "type" then 3
    else 4
  }

  /** The value of the first pair named `key`, if any. */
  function Lookup(q: seq<QueryParam>, key: string): Option<string> {
    if |q| == 0 then None
    else if q[0].0 == key then Some(q[0].1)
    else Lookup(q[1..], key)
  }

  /** The category is sent when it is present and positive (0 stands for "any category"). */
  predicate SendsCategory(p: QuizParams) {
    p.category.Some? && p.category.value > 0
  }

  /** A text filter is sent when it is present and not the empty string. */
  predicate SendsText(o: Option<string>) {
    o.Some? && o.value != ""
  }

  function Optional(send: bool, key: string, value: string): seq<QueryParam> {
    if send then [(key, value)] else []
  }

  /** The parameters appended to the trivia URL: `amount` always, then the optional filters. */
  function BuildQuery(p: QuizParams): (r: seq<QueryParam>)
    ensures |r| >= 1 && r[0] == ("amount", IntToString(p.amount))
    ensures forall i, j :: 0 <= i < j < |r| ==> Rank(r[i].0) < Rank(r[j].0)
    ensures forall i :: 0 <= i < |r| ==> Rank(r[i].0) < 4
    ensures Lookup(r, "amount") == Some(IntToString(p.amount))
    ensures Lookup(r, "category").Some? <==> SendsCategory(p)
    ensures SendsCategory(p) ==> Lookup(r, "category") == Some(IntToString(p.category.value))
    ensures Lookup(r, "difficulty").Some? <==> SendsText(p.difficulty)
    ensures SendsText(p.difficulty) ==> Lookup(r, "difficulty") == Some(p.difficulty.value)
    ensures Lookup(r, "type").Some? <==> SendsText(p.questionType)
    ensures SendsText(p.questionType) ==> Lookup(r, "type") == Some(p.questionType.value)
  {
    var tv := if SendsText(p.questionType) then p.questionType.value else "";
    var dv := if SendsText(p.difficulty) then p.difficulty.value else "";
    var cv := if SendsCategory(p) then IntToString(p.category.value) else "";
    var t := Optional(SendsText(p.questionType), "type", tv);
    var d := Optional(SendsText(p.difficulty), "difficulty", dv);
    var c := Optional(SendsCategory(p), "category", cv);
    var dt := d + t;
    LookupOptional(SendsText(p.questionType), "type", tv, "amount");
    LookupOptional(SendsText(p.questionType), "type", tv, "category");
    LookupOptional(SendsText(p.questionType), "type", tv, "difficulty");
    LookupAppend(d, t, "amount");
    LookupAppend(d, t, "category");
    LookupAppend(d, t, "difficulty");
    LookupAppend(d, t, "type");
    var cdt := c + dt;
    LookupAppend(c, dt, "amount");
    LookupAppend(c, dt, "category");
    LookupAppend(c, dt, "difficulty");
    LookupAppend(c, dt, "type");
    [("amount", IntToString(p.amount))] + cdt
  }

  /** A pair that is appended only when `send` holds is found exactly under its own name. */
  lemma LookupOptional(send: bool, key: string, value: string, k: string)
    ensures Lookup(Optional(send, key, value), k) == if send && key == k then Some(value) else None
  {
    if send {
      assert Optional(send, key, value)[1..] == [];
    }
  }

  /** Looking a key up in a concatenation finds it in the first part when it is there. */
  lemma {:induction false} LookupAppend(a: seq<QueryParam>, b: seq<QueryParam>, key: string)
    ensures Lookup(a + b, key) == if Lookup(a, key).Some? then Lookup(a, key) else Lookup(b, key)
    decreases |a|
  {
    if |a| > 0 {
      assert (a + b)[1..] == a[1..] + b;
      LookupAppend(a[1..], b, key);
    } else {
      assert a + b == b;
    }
  }

  // ---------------------------------------------------------------------------
  // The reply's status code
  // ---------------------------------------------------------------------------

  const NoResultsMessage := "No results found. Try different parameters."
  const InvalidParameterMessage := "Invalid parameters. Please check your query."
  const TokenNotFoundMessage := "Session token not found."
  const TokenEmptyMessage := "No questions available for the specified criteria."
  const UnknownErrorMessage := "Unknown error occurred"

  /** The message thrown for a non-zero `response_code` of the trivia source. */
  function ResponseErrorMessage(code: int): (msg: string)
    ensures msg == UnknownErrorMessage <==> !(1 <= code <= 4)
  {
    match code
    case 1 => NoResultsMessage
    case 2 => InvalidParameterMessage
    case 3 => TokenNotFoundMessage
    case 4 => TokenEmptyMessage
    case _ => UnknownErrorMessage
  }

  /** Each documented status code gets its own message: the mapping is injective on 1..4. */
  lemma ResponseErrorMessagesDistinct(c1: int, c2: int)
    requires 1 <= c1 <= 4 && 1 <= c2 <= 4 && c1 != c2
    ensures ResponseErrorMessage(c1) != ResponseErrorMessage(c2)
  {
  }

  const TransportErrorPrefix := "Failed to fetch trivia questions: "

  /** The outcome of one request: a transport failure (non-ok reply, body never read), a source
      failure (non-zero status code), or the normalised questions. `decode` stands for the
      browser's entity decoder and `rolls` for the values `Math.random` returns. */
  function FetchQuestions(ok: bool, statusText: string, body: TriviaResponse,
                          decode: string -> string, rolls: seq<seq<real>>)
    : (r: Result<seq<ProcessedQuestion>, string>)
    requires ok && body.responseCode == 0 ==> RollsForAll(body.results, rolls)
    ensures r.Success? <==> ok && body.responseCode == 0
    ensures !ok ==> r.error == TransportErrorPrefix + statusText
    ensures ok && body.responseCode != 0 ==> r.error == ResponseErrorMessage(body.responseCode)
    ensures r.Success? ==> |r.value| == |body.results|
                           && forall k :: 0 <= k < |r.value| ==> r.value[k].id == k
    ensures r.Success? ==> r.value == ProcessQuestions(body.results, decode, rolls)
  {
    if !ok then Failure(TransportErrorPrefix + statusText)
    else if body.responseCode != 0 then Failure(ResponseErrorMessage(body.responseCode))
    else Success(ProcessQuestions(body.results, decode, rolls))
  }

  /** A non-ok transport reply fails the same way whatever the body would have held. */
  lemma TransportFailureIgnoresBody(statusText: string, b1: TriviaResponse, b2: TriviaResponse,
                                    decode: string -> string, rolls: seq<seq<real>>)
    ensures FetchQuestions(false, statusText, b1, decode, rolls)
         == FetchQuestions(false, statusText, b2, decode, rolls)
         == Failure(TransportErrorPrefix + statusText)
  {
  }

  /** A reply with status 1 rejects with the "no results" message and yields no questions. */
  lemma NoResultsScenario(decode: string -> string, results: seq<TriviaQuestion>, rolls: seq<seq<real>>)
    ensures FetchQuestions(true, "OK", TriviaResponse(1, results), decode, rolls)
         == Failure("No results found. Try different parameters.")
  {
  }

  /** The default parameters (category 0, empty difficulty and type) send only the amount. */
  lemma DefaultParamsSendOnlyAmount(amount: int)
    ensures BuildQuery(QuizParams(amount, Some(0), Some(""), Some(""))) == [("amount", IntToString(amount))]
  {
  }

  // ---------------------------------------------------------------------------
  // Fisher-Yates shuffle
  // ---------------------------------------------------------------------------

  /** A value `Math.random` can return. */
  predicate IsRandom(x: real) {
    0.0 <= x < 1.0
  }

  /** `rolls` supplies every draw a shuffle of `n` elements makes: one per index n-1 down to 1. */
  predicate RollsFor(rolls: seq<real>, n: int) {
    |rolls| >= n - 1 && forall k :: 0 <= k < |rolls| ==> IsRandom(rolls[k])
  }

  lemma FloorBelow(x: real, n: nat)
    requires IsRandom(x) && n > 0
    ensures 0 <= (x * n as real).Floor < n
  {
    var y := x * n as real;
    assert 0.0 <= y by {
      assert 0.0 <= x && 0.0 < n as real;
    }
    assert y < n as real by {
      assert (n as real) - y == (1.0 - x) * (n as real);
      assert 0.0 < (1.0 - x) * (n as real);
    }
  }

  /** `Math.floor(Math.random() * (i + 1))`: an index in 0..i. */
  function Pick(x: real, i: nat): (j: nat)
    requires IsRandom(x)
    ensures j <= i
  {
    FloorBelow(x, i + 1);
    (x * (i + 1) as real).Floor
  }

  /** Exchange positions `i` and `j`. */
  function Swap<T>(s: seq<T>, i: nat, j: nat): (r: seq<T>)
    requires i < |s| && j < |s|
    ensures |r| == |s|
    ensures r[i] == s[j] && r[j] == s[i]
    ensures forall k :: 0 <= k < |s| && k != i && k != j ==> r[k] == s[k]
  {
    s[i := s[j]][j := s[i]]
  }

  /** The iterations i, i-1, ..., 1 of the shuffle loop applied to `s`; the iteration for index
      i consumes draw number |s|-1-i. */
  function ShuffleSteps<T>(s: seq<T>, i: int, rolls: seq<real>): (r: seq<T>)
    requires i < |s| && RollsFor(rolls, |s|)
    ensures |r| == |s|
    decreases i
  {
    if i <= 0 then s
    else ShuffleSteps(Swap(s, i, Pick(rolls[|s| - 1 - i], i)), i - 1, rolls)
  }

  /** An exchange rearranges the elements and neither adds nor drops any. */
  lemma SwapPermutes<T>(s: seq<T>, i: nat, j: nat)
    requires i < |s| && j < |s|
    ensures multiset(Swap(s, i, j)) == multiset(s)
  {
  }

  /** Every prefix of the loop's iterations yields a permutation of its input. */
  lemma {:induction false} ShuffleStepsPermutes<T>(s: seq<T>, i: int, rolls: seq<real>)
    requires i < |s| && RollsFor(rolls, |s|)
    ensures multiset(ShuffleSteps(s, i, rolls)) == multiset(s)
    decreases i
  {
    if i > 0 {
      var s' := Swap(s, i, Pick(rolls[|s| - 1 - i], i));
      SwapPermutes(s, i, Pick(rolls[|s| - 1 - i], i));
      ShuffleStepsPermutes(s', i - 1, rolls);
    }
  }

  /** One iteration of the loop, stated on its own so that callers need not unfold the recursion. */
  lemma ShuffleStepUnfold<T>(s: seq<T>, i: int, rolls: seq<real>)
    requires 0 < i < |s| && RollsFor(rolls, |s|)
    ensures ShuffleSteps(s, i, rolls) == ShuffleSteps(Swap(s, i, Pick(rolls[|s| - 1 - i], i)), i - 1, rolls)
  {
  }

  /** The loop only ever writes positions at or below the current index: once iteration i has
      run, position i keeps its value. */
  lemma {:induction false} ShuffleStepsKeepsSuffix<T>(s: seq<T>, i: int, rolls: seq<real>, k: int)
    requires i < |s| && RollsFor(rolls, |s|)
    requires 0 <= k < |s| && i < k
    ensures ShuffleSteps(s, i, rolls)[k] == s[k]
    decreases i
  {
    if i > 0 {
      var s' := Swap(s, i, Pick(rolls[|s| - 1 - i], i));
      ShuffleStepsKeepsSuffix(s', i - 1, rolls, k);
    }
  }

  /** The shuffled copy `shuffleArray` returns for the given draws. */
  function Shuffle<T>(s: seq<T>, rolls: seq<real>): (r: seq<T>)
    requires RollsFor(rolls, |s|)
    ensures |r| == |s| && multiset(r) == multiset(s)
  {
    ShuffleStepsPermutes(s, |s| - 1, rolls);
    ShuffleSteps(s, |s| - 1, rolls)
  }

  /** `shuffleArray`: copies the input into a fresh array and swaps, for i from the last index
      down to 1, position i with a drawn position j in 0..i. The input itself is a value and
      cannot change. */
  method ShuffleArray<T>(input: seq<T>, rolls: seq<real>) returns (r: seq<T>)
    requires RollsFor(rolls, |input|)
    ensures r == Shuffle(input, rolls)
    ensures |r| == |input| && multiset(r) == multiset(input)
  {
    var a := new T[|input|](k requires 0 <= k < |input| => input[k]);
    ghost var target := Shuffle(input, rolls);
    var i := |input| - 1;
    assert a[..] == input;
    while i > 0
      invariant -1 <= i < a.Length == |input|
      invariant ShuffleSteps(a[..], i, rolls) == target
      decreases i
    {
      var j := Pick(rolls[|input| - 1 - i], i);
      ghost var before := a[..];
      a[i], a[j] := a[j], a[i];
      assert a[..] == Swap(before, i, j);
      ShuffleStepUnfold(before, i, rolls);
      assert ShuffleSteps(a[..], i - 1, rolls) == target;
      i := i - 1;
    }
    r := a[..];
  }

  // ---------------------------------------------------------------------------
  // Normalisation
  // ---------------------------------------------------------------------------

  /** One roll sequence per question, each long enough for that question's answer list. */
  predicate RollsForAll(qs: seq<TriviaQuestion>, rolls: seq<seq<real>>) {
    |rolls| == |qs|
    && forall k :: 0 <= k < |qs| ==> RollsFor(rolls[k], |qs[k].incorrectAnswers| + 1)
  }

  /** Every string of the list decoded, in place. */
  function MapDecode(decode: string -> string, xs: seq<string>): seq<string> {
    seq(|xs|, k requires 0 <= k < |xs| => decode(xs[k]))
  }

  /** The normalisation of the raw question at position `index`. Category, type and difficulty
      are copied undecoded. */
  function ProcessQuestion(q: TriviaQuestion, index: int, decode: string -> string, rolls: seq<real>)
    : (p: ProcessedQuestion)
    requires RollsFor(rolls, |q.incorrectAnswers| + 1)
    ensures p.id == index
    ensures p.category == q.category && p.questionType == q.questionType && p.difficulty == q.difficulty
    ensures p.question == decode(q.question) && p.correctAnswer == decode(q.correctAnswer)
    ensures |p.incorrectAnswers| == |q.incorrectAnswers|
    ensures forall m :: 0 <= m < |q.incorrectAnswers| ==> p.incorrectAnswers[m] == decode(q.incorrectAnswers[m])
    ensures |p.allAnswers| == |q.incorrectAnswers| + 1
    ensures multiset(p.allAnswers) == multiset([decode(q.correctAnswer)] + MapDecode(decode, q.incorrectAnswers))
  {
    var correct := decode(q.correctAnswer);
    var incorrect := MapDecode(decode, q.incorrectAnswers);
    ProcessedQuestion(q.category, q.questionType, q.difficulty, decode(q.question),
                      correct, incorrect, index, Shuffle([correct] + incorrect, rolls))
  }

  /** `processQuestions`: every raw question normalised, in order, with id = its position. Question
      k of the batch comes from raw entry k with its texts decoded, and its answers are a
      rearrangement of the decoded correct and incorrect answers. */
  function ProcessQuestions(qs: seq<TriviaQuestion>, decode: string -> string, rolls: seq<seq<real>>)
    : (r: seq<ProcessedQuestion>)
    requires RollsForAll(qs, rolls)
    ensures |r| == |qs|
    ensures forall k :: 0 <= k < |qs| ==>
      && r[k].id == k
      && r[k].category == qs[k].category
      && r[k].questionType == qs[k].questionType
      && r[k].difficulty == qs[k].difficulty
      && r[k].question == decode(qs[k].question)
      && r[k].correctAnswer == decode(qs[k].correctAnswer)
      && |r[k].incorrectAnswers| == |qs[k].incorrectAnswers|
      && (forall m :: 0 <= m < |qs[k].incorrectAnswers| ==>
            r[k].incorrectAnswers[m] == decode(qs[k].incorrectAnswers[m]))
      && |r[k].allAnswers| == |qs[k].incorrectAnswers| + 1
      && multiset(r[k].allAnswers) == multiset([r[k].correctAnswer] + r[k].incorrectAnswers)
  {
    seq(|qs|, k requires 0 <= k < |qs| => ProcessQuestion(qs[k], k, decode, rolls[k]))
  }

  /** The set of ids carried by a question list. */
  function Ids(r: seq<ProcessedQuestion>): set<int> {
    set p | p in r :: p.id
  }

  /** The ids of one batch are exactly 0..N-1, each used once. */
  lemma ProcessedIdsAreIndices(qs: seq<TriviaQuestion>, decode: string -> string, rolls: seq<seq<real>>)
    requires RollsForAll(qs, rolls)
    ensures var r := ProcessQuestions(qs, decode, rolls);
      && (forall id :: id in Ids(r) <==> 0 <= id < |qs|)
      && forall a, b :: 0 <= a < b < |r| ==> r[a].id != r[b].id
  {
    var r := ProcessQuestions(qs, decode, rolls);
    forall id | 0 <= id < |qs|
      ensures id in Ids(r)
    {
      assert r[id] in r;
    }
  }
}
