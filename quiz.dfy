/** The five-question cylinder quiz (class QuizManager and function
    initializeQuizForScreen in scripts/quiz.js).

    The manager keeps the learner's answers by question number, a backup
    copy of them in the browser's key-value store, and a fixed table of
    correct answers. Questions 1 to 3 are multiple choice and are marked by
    exact equality; questions 4 and 5 take a number and are marked correct
    within an absolute tolerance of 0.1. */
module Quiz {
  import opened Util
  import opened QuestionLabel

  /** A recorded answer: the token of a choice button, or a parsed number. */
  datatype Answer = Choice(token: string) | Number(value: real)

  /** The "quizAnswers" entry of the key-value store. */
  datatype Backup = NoBackup | Unparseable | Saved(entries: map<int, Answer>)

  /** Where nextQuestion sends the learner: the screen of another question,
      or screen 15 followed by the results. */
  datatype QuizStep = ToQuestionScreen(screen: int) | ToResults

  /** What validating a typed answer decides. */
  datatype InputCheck = MissingAnswer | InvalidNumber | Valid(value: real)

  /** What submitting a typed answer does. */
  datatype InputOutcome = AskForAnswer | AskForPositiveNumber | Recorded(step: QuizStep)

  /** What showResults puts on screen. */
  datatype Results = Results(score: nat, message: string, strengths: seq<string>, improvements: seq<string>)

  const TotalQuestions: nat := 5
  const NumericTolerance: real := 0.1
  const IntroScreen: int := 9
  const FirstQuestionScreen: int := 10
  const ResultsScreen: int := 15

  /** The correct-answer table. */
  function CorrectAnswer(q: int): Answer
    requires 1 <= q <= TotalQuestions
  {
    match q
    case 1 => Choice("C")
    case 2 => Choice("B")
    case 3 => Choice("D")
    case 4 => Number(439.6)
    case _ => Number(385.0)
  }

  /** The question titles shown among strengths and improvements. */
  function Title(q: int): string
    requires 1 <= q <= TotalQuestions
  {
    match q
    case 1 => "Cylinder in a Cube"
    case 2 => "Water Tank Transfer"
    case 3 => "Surface Area Components"
    case 4 => "Curved Surface Area Calculation"
    case _ => "Tin Can Surface Area"
  }

  lemma TitlesDistinct(p: int, q: int)
    requires 1 <= p <= TotalQuestions && 1 <= q <= TotalQuestions
    ensures Title(p) == Title(q) ==> p == q
  {
  }

  /** The marking rule: an unanswered question is wrong; questions 1 to 3
      need the expected letter exactly; questions 4 and 5 need a number
      within 0.1 of the expected value, the bound included. */
  predicate IsCorrect(answers: map<int, Answer>, q: int)
    requires 1 <= q <= TotalQuestions
  {
    && q in answers
    && if q <= 3 then answers[q] == CorrectAnswer(q)
       else answers[q].Number? && Abs(answers[q].value - CorrectAnswer(q).value) <= NumericTolerance
  }

  /** The two marking rules at their edges. */
  lemma MarkingRule(answers: map<int, Answer>)
    ensures 1 !in answers ==> !IsCorrect(answers, 1)
    ensures IsCorrect(answers[1 := Choice("C")], 1) && !IsCorrect(answers[1 := Choice("c")], 1)
    ensures IsCorrect(answers[4 := Number(439.65)], 4) && IsCorrect(answers[4 := Number(439.55)], 4)
    ensures !IsCorrect(answers[4 := Number(439.75)], 4) && !IsCorrect(answers[4 := Number(439.45)], 4)
    ensures !IsCorrect(answers[4 := Number(439.71)], 4) && !IsCorrect(answers[1 := Number(439.6)], 1)
  {
  }

  /** How many of questions 1..n are correct. */
  function CorrectCount(answers: map<int, Answer>, n: nat): (c: nat)
    requires n <= TotalQuestions
    ensures c <= n
    decreases n
  {
    if n == 0 then 0
    else CorrectCount(answers, n - 1) + (if IsCorrect(answers, n) then 1 else 0)
  }

  /** The score of a set of answers. */
  function Score(answers: map<int, Answer>): nat
  {
    CorrectCount(answers, TotalQuestions)
  }

  /** The titles of the correct questions among 1..n, in question order. */
  function StrengthTitles(answers: map<int, Answer>, n: nat): seq<string>
    requires n <= TotalQuestions
    decreases n
  {
    if n == 0 then []
    else StrengthTitles(answers, n - 1) + (if IsCorrect(answers, n) then [Title(n)] else [])
  }

  /** The titles of the other questions among 1..n, in question order. */
  function ImprovementTitles(answers: map<int, Answer>, n: nat): seq<string>
    requires n <= TotalQuestions
    decreases n
  {
    if n == 0 then []
    else ImprovementTitles(answers, n - 1) + (if IsCorrect(answers, n) then [] else [Title(n)])
  }

  /** The score lies in 0..5. */
  lemma ScoreInRange(answers: map<int, Answer>)
    ensures 0 <= Score(answers) <= TotalQuestions
  {
  }

  /** Recording answer v for question q changes the score only through q:
      the old verdict on q is taken away and the new one added. */
  lemma {:induction false} RecordChangesOnlyThatQuestion(answers: map<int, Answer>, q: int, v: Answer, n: nat)
    requires 1 <= q <= n <= TotalQuestions
    ensures CorrectCount(answers[q := v], n) ==
      CorrectCount(answers, n) - (if IsCorrect(answers, q) then 1 else 0) + (if IsCorrect(answers[q := v], q) then 1 else 0)
    decreases n
  {
    if n > q {
      RecordChangesOnlyThatQuestion(answers, q, v, n - 1);
      assert IsCorrect(answers[q := v], n) == IsCorrect(answers, n);
    } else {
      UnchangedBelow(answers, q, v, n - 1);
    }
  }

  /** Answers to questions outside 1..n do not affect the count of 1..n. */
  lemma {:induction false} UnchangedBelow(answers: map<int, Answer>, q: int, v: Answer, n: nat)
    requires n < q || q < 1
    requires n <= TotalQuestions
    ensures CorrectCount(answers[q := v], n) == CorrectCount(answers, n)
    decreases n
  {
    if n > 0 {
      UnchangedBelow(answers, q, v, n - 1);
      assert IsCorrect(answers[q := v], n) == IsCorrect(answers, n);
    }
  }

  /** An answer recorded under a number that is no question (a heading
      such as "Question 7 of 5" is read as 7) never changes the score. */
  lemma RecordOutsideQuestionsKeepsScore(answers: map<int, Answer>, q: int, v: Answer)
    requires q < 1 || q > TotalQuestions
    ensures Score(answers[q := v]) == Score(answers)
  {
    UnchangedBelow(answers, q, v, TotalQuestions);
  }

  /** Three right, one wrong and one unanswered score 3. */
  lemma ScoreExample()
    ensures Score(map[1 := Choice("C"), 2 := Choice("B"), 3 := Choice("A"), 4 := Number(439.65)]) == 3
  {
    var a := map[1 := Choice("C"), 2 := Choice("B"), 3 := Choice("A"), 4 := Number(439.65)];
    assert IsCorrect(a, 1) && IsCorrect(a, 2) && !IsCorrect(a, 3) && IsCorrect(a, 4) && !IsCorrect(a, 5);
  }

  /** There are as many strengths as the score. */
  lemma {:induction false} StrengthsCountIsScore(answers: map<int, Answer>, n: nat)
    requires n <= TotalQuestions
    ensures |StrengthTitles(answers, n)| == CorrectCount(answers, n)
    ensures |StrengthTitles(answers, n)| + |ImprovementTitles(answers, n)| == n
    decreases n
  {
    if n > 0 {
      StrengthsCountIsScore(answers, n - 1);
    }
  }

  /** A title is among the strengths of 1..n iff its question is among
      them and correct. */
  lemma {:induction false} StrengthsMembership(answers: map<int, Answer>, n: nat, q: int)
    requires 1 <= q <= TotalQuestions && n <= TotalQuestions
    ensures Title(q) in StrengthTitles(answers, n) <==> q <= n && IsCorrect(answers, q)
    decreases n
  {
    if n > 0 {
      StrengthsMembership(answers, n - 1, q);
      TitlesDistinct(n, q);
      var s := StrengthTitles(answers, n - 1);
      if IsCorrect(answers, n) {
        assert StrengthTitles(answers, n) == s + [Title(n)];
        assert Title(q) in s + [Title(n)] <==> Title(q) in s || Title(q) == Title(n);
      } else {
        assert StrengthTitles(answers, n) == s;
      }
    }
  }

  /** A title is among the improvements of 1..n iff its question is among
      them and not correct. */
  lemma {:induction false} ImprovementsMembership(answers: map<int, Answer>, n: nat, q: int)
    requires 1 <= q <= TotalQuestions && n <= TotalQuestions
    ensures Title(q) in ImprovementTitles(answers, n) <==> q <= n && !IsCorrect(answers, q)
    decreases n
  {
    if n > 0 {
      ImprovementsMembership(answers, n - 1, q);
      TitlesDistinct(n, q);
      var m := ImprovementTitles(answers, n - 1);
      if IsCorrect(answers, n) {
        assert ImprovementTitles(answers, n) == m;
      } else {
        assert ImprovementTitles(answers, n) == m + [Title(n)];
        assert Title(q) in m + [Title(n)] <==> Title(q) in m || Title(q) == Title(n);
      }
    }
  }

  /** Strengths and improvements partition questions 1..n: each title is in
      the list its verdict names and not in the other. */
  lemma StrengthsPartition(answers: map<int, Answer>, n: nat, q: int)
    requires 1 <= q <= TotalQuestions && n <= TotalQuestions
    ensures Title(q) in StrengthTitles(answers, n) <==> q <= n && IsCorrect(answers, q)
    ensures Title(q) in ImprovementTitles(answers, n) <==> q <= n && !IsCorrect(answers, q)
    ensures Title(q) in StrengthTitles(answers, n) ==> Title(q) !in ImprovementTitles(answers, n)
  {
    StrengthsMembership(answers, n, q);
    ImprovementsMembership(answers, n, q);
  }


  /** parseFloat's inputs counted as blank by String.prototype.trim: the
      white-space and line-terminator characters of ECMAScript. */
  predicate IsJsWhitespace(c: char)
  {
    c in {'\U{9}', '\U{A}', '\U{B}', '\U{C}', '\U{D}', '\U{20}', '\U{A0}', '\U{1680}',
          '\U{2000}', '\U{2001}', '\U{2002}', '\U{2003}', '\U{2004}', '\U{2005}', '\U{2006}', '\U{2007}',
          '\U{2008}', '\U{2009}', '\U{200A}', '\U{2028}', '\U{2029}', '\U{202F}', '\U{205F}', '\U{3000}',
          '\U{FEFF}'}
  }

  predicate IsBlank(s: string)
  {
    forall i :: 0 <= i < |s| ==> IsJsWhitespace(s[i])
  }

  /** The two checks handleInputAnswer makes before it records anything:
      the field must exist and hold more than white space, and parseFloat
      (whose result is passed in, None standing for NaN) must give a number
      that is not negative. */
  function CheckInput(field: Option<string>, parsed: Option<real>): (c: InputCheck)
    ensures c.Valid? <==> field.Some? && !IsBlank(field.value) && parsed.Some? && parsed.value >= 0.0
    ensures c.Valid? ==> Some(c.value) == parsed
    ensures c == MissingAnswer <==> field.None? || IsBlank(field.value)
  {
    if field.None? || IsBlank(field.value) then MissingAnswer
    else if parsed.None? || parsed.value < 0.0 then InvalidNumber
    else Valid(parsed.value)
  }

  /** nextQuestion from question q: the next question's screen, or the
      results after the last question. */
  function NextStep(q: int): QuizStep
  {
    if q < TotalQuestions then ToQuestionScreen(IntroScreen + q + 1) else ToResults
  }

  /** The question number initializeQuizForScreen assigns to a quiz screen:
      0 for the introduction, 1 to 5 for screens 10 to 14, 6 for the
      results; None for any other screen. */
  function QuestionForScreen(screen: int): Option<int>
  {
    if screen == IntroScreen then Some(0)
    else if FirstQuestionScreen <= screen <= 14 then Some(screen - IntroScreen)
    else if screen == ResultsScreen then Some(6)
    else None
  }

  /** The screen nextQuestion targets is the screen of the following
      question, and the last question leads to the results screen. */
  lemma NextStepFollowsQuestions(q: int)
    ensures 0 <= q < TotalQuestions ==> NextStep(q).ToQuestionScreen? && QuestionForScreen(NextStep(q).screen) == Some(q + 1)
    ensures q >= TotalQuestions ==> NextStep(q) == ToResults && QuestionForScreen(ResultsScreen) == Some(TotalQuestions + 1)
  {
  }

  /** Reading the heading of question q (a "Question q of 5" label) and
      moving on reaches the screen of question q + 1. */
  lemma HeadingLeadsToNextScreen(q: nat)
    requires q < TotalQuestions
    ensures NextStep(QuestionNumber(Some(Label(q, TotalQuestions)))) == ToQuestionScreen(FirstQuestionScreen + q)
    ensures QuestionForScreen(FirstQuestionScreen + q) == Some(q + 1)
  {
    LabelRoundTrip(q, TotalQuestions);
  }

  /** Merging a backup over the current answers: stored entries win, a
      missing or unparseable backup changes nothing. */
  function Restore(answers: map<int, Answer>, stored: Backup): (r: map<int, Answer>)
    ensures !stored.Saved? ==> r == answers
    ensures stored.Saved? ==> r.Keys == answers.Keys + stored.entries.Keys
    ensures stored.Saved? ==> forall q :: q in stored.entries ==> r[q] == stored.entries[q]
    ensures forall q :: q in answers && (!stored.Saved? || q !in stored.entries) ==> r[q] == answers[q]
  {
    if stored.Saved? then answers + stored.entries else answers
  }

  /** A manager started from a backup another manager saved starts with
      that manager's answers. */
  lemma SaveThenRestore(answers: map<int, Answer>)
    ensures Restore(map[], Saved(answers)) == answers
  {
  }

  /** The emoji that opens getScoreMessage's message for a score. */
  function Badge(score: int): char
  {
    if score == 5 then '\U{1F389}'
    else if score == 4 then '\U{1F31F}'
    else if score == 3 then '\U{1F44D}'
    else if score == 2 then '\U{1F4DA}'
    else if score == 1 then '\U{1F4AA}'
    else '\U{1F4D6}'
  }

  /** The words that follow the emoji. */
  function Praise(score: int): string
  {
    if score == 5 then " Perfect! You're a cylinder expert!"
    else if score == 4 then " Excellent! You really understand cylinders!"
    else if score == 3 then " Good job! You have a solid foundation!"
    else if score == 2 then " Not bad! Keep practicing!"
    else if score == 1 then " You're getting there! Don't give up!"
    else " Let's review the basics together!"
  }

  /** getScoreMessage: anything that is not 1 to 5 gets the "review"
      message, 0 and out-of-range scores alike. */
  function ScoreMessage(score: int): (m: string)
    ensures |m| > 0 && m[0] == Badge(score)
    ensures (score < 1 || score > 5) ==> m == [Badge(0)] + Praise(0)
  {
    [Badge(score)] + Praise(score)
  }

  /** Every score from 0 to 5 gets its own message (each begins with a
      different emoji). */
  lemma ScoreMessagesDistinct(s: int, t: int)
    requires 0 <= s <= 5 && 0 <= t <= 5 && s != t
    ensures ScoreMessage(s) != ScoreMessage(t)
  {
    assert Badge(s) != Badge(t);
    assert ScoreMessage(s)[0] != ScoreMessage(t)[0];
  }

  class QuizManager {
    var currentQuestion: int
    var answers: map<int, Answer>
    /** The store's "quizAnswers" entry. */
    var backup: Backup

    /** A new manager starts at question 1 with no answers, then merges the
        stored backup over them. */
    constructor (stored: Backup)
      ensures currentQuestion == 1
      ensures answers == Restore(map[], stored)
      ensures backup == stored
    {
      currentQuestion := 1;
      answers := map[];
      backup := stored;
      new;
      RestoreAnswersFromStorage();
    }

    /** restoreAnswersFromStorage */
    method RestoreAnswersFromStorage()
      modifies this`answers
      ensures answers == Restore(old(answers), backup)
    {
      if backup.Saved? {
        answers := answers + backup.entries;
      }
    }

    /** saveAnswersToStorage */
    method SaveAnswersToStorage()
      modifies this`backup
      ensures backup == Saved(answers)
    {
      backup := Saved(answers);
    }

    /** getCurrentQuestionNumber, given the text of the question heading
        (None when the heading element is missing). */
    method GetCurrentQuestionNumber(heading: Option<string>) returns (q: int)
      ensures q == QuestionNumber(heading)
      ensures heading.None? ==> q == 1
    {
      q := QuestionNumber(heading);
    }

    /** handleAnswerClick: records the clicked choice for the question on
        show, overwriting any earlier answer to it, saves the backup, and
        moves on at once. */
    method HandleAnswerClick(heading: Option<string>, token: string) returns (step: QuizStep)
      modifies this`answers, this`backup
      ensures answers == old(answers)[QuestionNumber(heading) := Choice(token)]
      ensures forall q :: q != QuestionNumber(heading) ==> (q in answers <==> q in old(answers))
      ensures forall q :: q in old(answers) && q != QuestionNumber(heading) ==> answers[q] == old(answers)[q]
      ensures backup == Saved(answers)
      ensures step == NextStep(QuestionNumber(heading))
    {
      var q := GetCurrentQuestionNumber(heading);
      answers := answers[q := Choice(token)];
      SaveAnswersToStorage();
      step := NextQuestion(heading);
    }

    /** handleInputAnswer for question q. field is the input element's
        value (None when the element is missing), parsed is what parseFloat
        makes of it (None for NaN), and heading is the question heading when
        the delayed move to the next question runs. */
    method HandleInputAnswer(q: int, field: Option<string>, parsed: Option<real>, heading: Option<string>)
      returns (outcome: InputOutcome)
      modifies this`answers, this`backup
      ensures CheckInput(field, parsed) == MissingAnswer ==>
        outcome == AskForAnswer && answers == old(answers) && backup == old(backup)
      ensures CheckInput(field, parsed) == InvalidNumber ==>
        outcome == AskForPositiveNumber && answers == old(answers) && backup == old(backup)
      ensures CheckInput(field, parsed).Valid? ==>
        && answers == old(answers)[q := Number(CheckInput(field, parsed).value)]
        && backup == Saved(answers)
        && outcome == Recorded(NextStep(QuestionNumber(heading)))
    {
      var check := CheckInput(field, parsed);
      match check {
        case MissingAnswer =>
          outcome := AskForAnswer;
        case InvalidNumber =>
          outcome := AskForPositiveNumber;
        case Valid(v) =>
          answers := answers[q := Number(v)];
          SaveAnswersToStorage();
          var step := NextQuestion(heading);
          outcome := Recorded(step);
      }
    }

    /** nextQuestion: reads the heading again and picks the next screen. */
    method NextQuestion(heading: Option<string>) returns (step: QuizStep)
      ensures QuestionNumber(heading) < TotalQuestions ==> step == ToQuestionScreen(IntroScreen + QuestionNumber(heading) + 1)
      ensures QuestionNumber(heading) >= TotalQuestions ==> step == ToResults
    {
      var q := GetCurrentQuestionNumber(heading);
      if q < TotalQuestions {
        step := ToQuestionScreen(IntroScreen + q + 1);
      } else {
        step := ToResults;
      }
    }

    /** calculateScore: counts the correct answers among questions 1..5,
        skipping unanswered ones. */
    method CalculateScore() returns (score: nat)
      ensures score == Score(answers)
      ensures score <= TotalQuestions
    {
      score := 0;
      var i := 1;
      while i <= TotalQuestions
        invariant 1 <= i <= TotalQuestions + 1
        invariant score == CorrectCount(answers, i - 1)
      {
        if i in answers {
          if IsCorrect(answers, i) {
            score := score + 1;
          }
        }
        i := i + 1;
      }
    }

    /** generateStrengths: the titles of the correctly answered questions. */
    method GenerateStrengths() returns (strengths: seq<string>)
      ensures strengths == StrengthTitles(answers, TotalQuestions)
      ensures |strengths| == Score(answers)
    {
      strengths := [];
      var i := 1;
      while i <= TotalQuestions
        invariant 1 <= i <= TotalQuestions + 1
        invariant strengths == StrengthTitles(answers, i - 1)
      {
        if IsCorrect(answers, i) {
          strengths := strengths + [Title(i)];
        }
        i := i + 1;
      }
      StrengthsCountIsScore(answers, TotalQuestions);
    }

    /** generateImprovements: the titles of the other questions. */
    method GenerateImprovements() returns (improvements: seq<string>)
      ensures improvements == ImprovementTitles(answers, TotalQuestions)
      ensures |improvements| == TotalQuestions - Score(answers)
    {
      improvements := [];
      var i := 1;
      while i <= TotalQuestions
        invariant 1 <= i <= TotalQuestions + 1
        invariant improvements == ImprovementTitles(answers, i - 1)
      {
        if !IsCorrect(answers, i) {
          improvements := improvements + [Title(i)];
        }
        i := i + 1;
      }
      StrengthsCountIsScore(answers, TotalQuestions);
    }

    /** showResults: the score, its message and the two lists. */
    method ShowResults() returns (r: Results)
      ensures r.score == Score(answers) && r.message == ScoreMessage(r.score)
      ensures r.strengths == StrengthTitles(answers, TotalQuestions)
      ensures r.improvements == ImprovementTitles(answers, TotalQuestions)
    {
      var score := CalculateScore();
      var strengths := GenerateStrengths();
      var improvements := GenerateImprovements();
      r := Results(score, ScoreMessage(score), strengths, improvements);
    }

    /** retakeQuiz: clears the answers, goes back to question 1 and to the
        quiz introduction; the stored backup is left as it was. */
    method RetakeQuiz() returns (screen: int)
      modifies this`answers, this`currentQuestion
      ensures answers == map[] && currentQuestion == 1
      ensures screen == IntroScreen
    {
      answers := map[];
      currentQuestion := 1;
      screen := IntroScreen;
    }
  }

  /** initializeQuizForScreen. manager is the globally registered quiz
      manager (null when there is none) and stored the backup a new one would
      read. On a quiz screen a missing manager is created; an existing one
      gets the question number of the screen. Other screens change nothing. */
  method InitializeQuizForScreen(manager: QuizManager?, screen: int, stored: Backup) returns (current: QuizManager?)
    modifies manager
    ensures QuestionForScreen(screen).None? ==> current == manager && (manager != null ==> unchanged(manager))
    ensures QuestionForScreen(screen).Some? && manager == null ==>
      current != null && fresh(current) && current.currentQuestion == 1 &&
      current.answers == Restore(map[], stored) && current.backup == stored
    ensures QuestionForScreen(screen).Some? && manager != null ==>
      current == manager && manager.currentQuestion == QuestionForScreen(screen).value &&
      manager.answers == old(manager.answers) && manager.backup == old(manager.backup)
  {
    current := manager;
    if screen == 9 || (10 <= screen <= 15) {
      if manager == null {
        current := new QuizManager(stored);
      } else if screen == 9 {
        manager.currentQuestion := 0;
      } else if 10 <= screen <= 14 {
        manager.currentQuestion := screen - 9;
      } else if screen == 15 {
        manager.currentQuestion := 6;
      }
    }
  }

  /** Retaking the quiz does not touch the backup: a manager created
      afterwards from the store gets the earlier answers back. */
  method RetakeKeepsBackup(answers: map<int, Answer>) returns (afterRetake: map<int, Answer>, restored: map<int, Answer>)
    ensures afterRetake == map[]
    ensures restored == answers
  {
    var m := new QuizManager(NoBackup);
    m.answers := answers;
    m.SaveAnswersToStorage();
    var _ := m.RetakeQuiz();
    afterRetake := m.answers;
    var second := new QuizManager(m.backup);
    restored := second.answers;
  }
}
