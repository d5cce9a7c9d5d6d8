/**
 * Quiz validation (`validateQuiz`) and the part of a validated quiz that the
 * session engine reads: each question's text and options, in order.
 */
module QuizFormat {
  import opened Wrappers
  import opened Js

  datatype Question = Question(text: string, options: seq<string>)

  /** A loaded quiz; `title` and `correctIndex` are never read by the engine. */
  datatype Quiz = Quiz(questions: seq<Question>)

  /** Why a quiz is rejected; a question-level error names the question's index. */
  datatype QuizError =
    | NotAnObject
    | NoQuestions
    | QuestionNotObject(index: nat)
    | BlankText(index: nat)
    | TooFewOptions(index: nat)
    | BadOptions(index: nat)
  {
    predicate AboutQuestion()
    {
      !NotAnObject? && !NoQuestions?
    }
  }

  /** The character of a decimal digit. */
  predicate IsDigit(c: char)
  {
    '0' <= c <= '9'
  }

  /** The number a string of decimal digits spells, most significant digit first. */
  function DigitsValue(r: string): nat
  {
    if r == [] then 0
    else
      var c := r[|r| - 1];
      DigitsValue(r[..|r| - 1]) * 10 + (if IsDigit(c) then c as int - '0' as int else 0)
  }

  /**
   * `String(n)` for a natural number: the canonical decimal digits that spell
   * `n`, with no leading zero except for zero itself.
   */
  function Decimal(n: nat): (r: string)
    ensures r != [] && forall i :: 0 <= i < |r| ==> IsDigit(r[i])
    ensures DigitsValue(r) == n
    ensures r[0] == '0' ==> r == "0"
  {
    var d := ['0', '1', '2', '3', '4', '5', '6', '7', '8', '9'];
    if n < 10 then
      assert DigitsValue([d[n]]) == DigitsValue([]) * 10 + n;
      [d[n]]
    else
      var r := Decimal(n / 10) + [d[n % 10]];
      assert r[..|r| - 1] == Decimal(n / 10);
      assert r[0] == Decimal(n / 10)[0];
      r
  }

  /** The message text `validateQuiz` returns for each error. */
  function Message(e: QuizError): (r: string)
    ensures e.AboutQuestion() <==> |r| >= 9 && r[..9] == "Question "
  {
    match e
    case NotAnObject =>
      var r := "Quiz must be an object.";
      assert r[2] != "Question "[2];
      r
    case NoQuestions =>
      var r := "Quiz must include a non-empty questions array.";
      assert r[2] != "Question "[2];
      r
    case QuestionNotObject(i) => "Question " + Decimal(i) + " must be an object."
    case BlankText(i) => "Question " + Decimal(i) + " must include non-empty text."
    case TooFewOptions(i) => "Question " + Decimal(i) + " must include at least 2 options."
    case BadOptions(i) => "Question " + Decimal(i) + " has invalid option(s)."
  }

  /** The wording after the index in a question-level message. */
  function Tail(e: QuizError): string
    requires e.AboutQuestion()
  {
    match e
    case QuestionNotObject(_) => " must be an object."
    case BlankText(_) => " must include non-empty text."
    case TooFewOptions(_) => " must include at least 2 options."
    case BadOptions(_) => " has invalid option(s)."
  }

  /** Two digit strings each followed by a text starting with a non-digit split the same way. */
  lemma DigitsSplit(a: string, s1: string, b: string, s2: string)
    requires forall i :: 0 <= i < |a| ==> IsDigit(a[i])
    requires forall i :: 0 <= i < |b| ==> IsDigit(b[i])
    requires s1 != [] && !IsDigit(s1[0]) && s2 != [] && !IsDigit(s2[0])
    requires a + s1 == b + s2
    ensures a == b && s1 == s2
  {
    assert a == (a + s1)[..|a|] && b == (b + s2)[..|b|];
    assert s1 == (a + s1)[|a|..] && s2 == (b + s2)[|b|..];
  }

  /** Different errors give different messages: a message names its error and index. */
  lemma MessageInjective(e1: QuizError, e2: QuizError)
    ensures Message(e1) == Message(e2) ==> e1 == e2
  {
    if Message(e1) == Message(e2) {
      if e1.AboutQuestion() && e2.AboutQuestion() {
        QuestionMessageInjective(e1, e2);
      } else if !e1.AboutQuestion() && !e2.AboutQuestion() {
        assert |Message(e1)| == |Message(e2)|;
      }
    }
  }

  /** Two question-level messages agree only for the same check on the same index. */
  lemma QuestionMessageInjective(e1: QuizError, e2: QuizError)
    requires e1.AboutQuestion() && e2.AboutQuestion()
    ensures Message(e1) == Message(e2) ==> e1 == e2
  {
    if Message(e1) != Message(e2) {
      return;
    }
    var p := "Question ";
    var x1, x2 := Decimal(e1.index) + Tail(e1), Decimal(e2.index) + Tail(e2);
    QuestionMessageShape(e1);
    QuestionMessageShape(e2);
    assert x1 == (p + x1)[|p|..] == (p + x2)[|p|..] == x2;
    DigitsSplit(Decimal(e1.index), Tail(e1), Decimal(e2.index), Tail(e2));
    TailInjective(e1, e2);
  }

  /** A question-level message is the prefix, the index's digits, then the wording of the check. */
  lemma QuestionMessageShape(e: QuizError)
    requires e.AboutQuestion()
    ensures Message(e) == "Question " + (Decimal(e.index) + Tail(e))
  {
  }

  /** The wording and the digits together name the check and the index. */
  lemma TailInjective(e1: QuizError, e2: QuizError)
    requires e1.AboutQuestion() && e2.AboutQuestion()
    requires Tail(e1) == Tail(e2) && Decimal(e1.index) == Decimal(e2.index)
    ensures e1 == e2
  {
    assert e1.index == e2.index;
    assert |Tail(e1)| == |Tail(e2)|;
  }

  /** A string whose trimmed form is not empty. */
  predicate IsNonBlankString(v: Json)
  {
    v.JStr? && !IsBlank(v.s)
  }

  /** `typeof q.text === "string" && q.text.trim() !== ""` */
  predicate HasText(q: Json)
  {
    StringField(q, "text").Some? && !IsBlank(StringField(q, "text").value)
  }

  /** `Array.isArray(q.options) && q.options.length >= 2` */
  predicate HasOptionList(q: Json)
  {
    match Get(q, "options")
    case Some(JArr(items)) => |items| >= 2
    case _ => false
  }

  function OptionsOf(q: Json): seq<Json>
    requires HasOptionList(q)
  {
    q.fields["options"].items
  }

  /** No option fails the `some` test: each is a non-blank string. */
  predicate AllNonBlank(options: seq<Json>)
  {
    forall k :: 0 <= k < |options| ==> IsNonBlankString(options[k])
  }

  /** Everything a question must satisfy, stated as one conjunction. */
  predicate WellFormedQuestion(q: Json)
  {
    IsObject(q) && HasText(q) && HasOptionList(q) && AllNonBlank(OptionsOf(q))
  }

  /** `Array.isArray(quiz.questions) && quiz.questions.length !== 0` */
  predicate HasQuestions(quiz: Json)
  {
    match Get(quiz, "questions")
    case Some(JArr(items)) => |items| > 0
    case _ => false
  }

  function QuestionsOf(quiz: Json): (qs: seq<Json>)
    requires HasQuestions(quiz)
    ensures |qs| > 0
  {
    quiz.fields["questions"].items
  }

  /** Everything a quiz must satisfy, stated as one conjunction. */
  predicate WellFormedQuiz(quiz: Json)
  {
    && IsObject(quiz)
    && HasQuestions(quiz)
    && forall i :: 0 <= i < |QuestionsOf(quiz)| ==> WellFormedQuestion(QuestionsOf(quiz)[i])
  }

  /**
   * The checks on question `i`, in the order `validateQuiz` applies them; the
   * first that fails decides the error.
   */
  function CheckQuestion(q: Json, i: nat): (r: Option<QuizError>)
    ensures r.None? <==> WellFormedQuestion(q)
    ensures r.Some? ==> r.value.AboutQuestion() && r.value.index == i
    ensures r == Some(QuestionNotObject(i)) <==> !IsObject(q)
    ensures r == Some(BlankText(i)) <==> IsObject(q) && !HasText(q)
    ensures r == Some(TooFewOptions(i)) <==> IsObject(q) && HasText(q) && !HasOptionList(q)
  {
    if !IsObject(q) then Some(QuestionNotObject(i))
    else if !HasText(q) then Some(BlankText(i))
    else if !HasOptionList(q) then Some(TooFewOptions(i))
    else if !AllNonBlank(OptionsOf(q)) then Some(BadOptions(i))
    else None
  }

  /**
   * `validateQuiz`: `None` exactly for a well-formed quiz; otherwise the
   * error of the first check that fails, and for a question-level error every
   * earlier question is well formed and no later question was consulted.
   */
  method ValidateQuiz(quiz: Json) returns (err: Option<QuizError>)
    ensures err.None? <==> WellFormedQuiz(quiz)
    ensures err == Some(NotAnObject) <==> !IsObject(quiz)
    ensures err == Some(NoQuestions) <==> IsObject(quiz) && !HasQuestions(quiz)
    ensures err.Some? && err.value.AboutQuestion() ==>
              && HasQuestions(quiz)
              && err.value.index < |QuestionsOf(quiz)|
              && (forall j :: 0 <= j < err.value.index ==> WellFormedQuestion(QuestionsOf(quiz)[j]))
              && err == CheckQuestion(QuestionsOf(quiz)[err.value.index], err.value.index)
  {
    if !IsObject(quiz) {
      return Some(NotAnObject);
    }
    if !HasQuestions(quiz) {
      return Some(NoQuestions);
    }
    var questions := QuestionsOf(quiz);
    var i := 0;
    while i < |questions|
      invariant 0 <= i <= |questions|
      invariant forall j :: 0 <= j < i ==> WellFormedQuestion(questions[j])
    {
      var e := CheckQuestion(questions[i], i);
      if e.Some? {
        return e;
      }
      i := i + 1;
    }
    return None;
  }

  /** The typed counterpart of `WellFormedQuestion`. */
  predicate ValidQuestion(q: Question)
  {
    !IsBlank(q.text) && |q.options| >= 2 && forall k :: 0 <= k < |q.options| ==> !IsBlank(q.options[k])
  }

  /** The typed counterpart of `WellFormedQuiz`. */
  predicate ValidQuiz(quiz: Quiz)
  {
    |quiz.questions| > 0 && forall i :: 0 <= i < |quiz.questions| ==> ValidQuestion(quiz.questions[i])
  }

  /** The validated quiz as the engine sees it: each question's text and options, in order. */
  function ToQuiz(quiz: Json): (r: Quiz)
    requires WellFormedQuiz(quiz)
    ensures ValidQuiz(r)
    ensures |r.questions| == |QuestionsOf(quiz)|
    ensures forall i :: 0 <= i < |r.questions| ==> r.questions[i] == ToQuestion(QuestionsOf(quiz)[i])
  {
    var qs := QuestionsOf(quiz);
    Quiz(seq(|qs|, i requires 0 <= i < |qs| => ToQuestion(qs[i])))
  }

  /** A well-formed question's text and option strings, unchanged (not trimmed). */
  function ToQuestion(q: Json): (r: Question)
    requires WellFormedQuestion(q)
    ensures ValidQuestion(r)
    ensures JStr(r.text) == q.fields["text"]
    ensures |r.options| == |OptionsOf(q)| && forall k :: 0 <= k < |r.options| ==> JStr(r.options[k]) == OptionsOf(q)[k]
  {
    var opts := OptionsOf(q);
    Question(q.fields["text"].s, seq(|opts|, k requires 0 <= k < |opts| => opts[k].s))
  }
}
