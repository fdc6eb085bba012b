/** Screen 2, the dabba question (class DabbaQuestionScreen in
    scripts/screen2.js): "peel the label off a cylindrical box and spread it
    flat; what shape is it?". Clicking an option records its data-answer,
    marks it selected and checks it: only "rectangle" is right. The 3-D
    scene and the feedback's scrolling and fading are not modelled. */
module DabbaQuestion {
  import opened Util

  const RightAnswer: string := "rectangle"

  /** The feedback message checkAnswer picks. */
  datatype Hint = CloseButNoCorners | NotTheEnds | ThinkUnrolled | PleaseSelect

  datatype Verdict = Correct | Incorrect(hint: Hint)

  /** checkAnswer's switch; an option without a data-answer attribute falls
      to the default case. */
  function Classify(answer: Option<string>): (v: Verdict)
    ensures v == Correct <==> answer == Some(RightAnswer)
    ensures answer == Some("square") ==> v == Incorrect(CloseButNoCorners)
    ensures answer == Some("circle") ==> v == Incorrect(NotTheEnds)
    ensures answer == Some("something-else") ==> v == Incorrect(ThinkUnrolled)
    ensures answer !in {Some(RightAnswer), Some("square"), Some("circle"), Some("something-else")} ==>
      v == Incorrect(PleaseSelect)
  {
    match answer
    case Some("rectangle") => Correct
    case Some("square") => Incorrect(CloseButNoCorners)
    case Some("circle") => Incorrect(NotTheEnds)
    case Some("something-else") => Incorrect(ThinkUnrolled)
    case _ => Incorrect(PleaseSelect)
  }

  /** The classes an option carries. */
  datatype Mark = Mark(selected: bool, correct: bool, incorrect: bool)

  const Clear: Mark := Mark(false, false, false)

  /** The first option, in document order, whose data-answer is
      "rectangle" (what querySelector finds). */
  function FirstRectangle(options: seq<Option<string>>): (r: Option<nat>)
    ensures r.Some? ==> r.value < |options| && options[r.value] == Some(RightAnswer)
    ensures r.Some? ==> forall j :: 0 <= j < r.value ==> options[j] != Some(RightAnswer)
    ensures r.None? ==> Some(RightAnswer) !in options
    decreases |options|
  {
    if options == [] then None
    else if options[0] == Some(RightAnswer) then Some(0)
    else
      match FirstRectangle(options[1..])
      case None => None
      case Some(k) => Some(k + 1)
  }

  class DabbaQuestionScreen {
    /** The data-answer of each option, in document order. */
    var options: seq<Option<string>>
    var marks: seq<Mark>
    var selectedOption: Option<string>
    var feedback: Option<Verdict>
    /** The flat rectangle revealed after a right answer. */
    var rectangleShown: bool

    predicate Valid()
      reads this
    {
      |marks| == |options|
    }

    /** Nothing is selected yet. */
    constructor (answers: seq<Option<string>>)
      ensures Valid()
      ensures options == answers && selectedOption == None && feedback == None && !rectangleShown
      ensures forall j :: 0 <= j < |marks| ==> marks[j] == Clear
    {
      options := answers;
      marks := seq(|answers|, j => Clear);
      selectedOption := None;
      feedback := None;
      rectangleShown := false;
    }

    /** selectOption on the i-th option, followed by checkAnswer: only
        that option is selected; after a right answer only the (first)
        rectangle option is marked correct, after a wrong one only the
        selected option is marked incorrect. */
    method SelectOption(i: nat)
      requires Valid() && i < |options|
      modifies this`marks, this`selectedOption, this`feedback, this`rectangleShown
      ensures Valid()
      ensures selectedOption == options[i]
      ensures feedback == Some(Classify(options[i]))
      ensures rectangleShown == (old(rectangleShown) || feedback == Some(Correct))
      ensures forall j :: 0 <= j < |marks| ==> marks[j].selected == (j == i)
      ensures feedback == Some(Correct) ==>
        forall j :: 0 <= j < |marks| ==> marks[j].correct == (Some(j) == FirstRectangle(options)) && !marks[j].incorrect
      ensures feedback != Some(Correct) ==>
        forall j :: 0 <= j < |marks| ==> marks[j].incorrect == (j == i) && !marks[j].correct
    {
      marks := seq(|options|, j => Clear);
      marks := marks[i := Mark(true, false, false)];
      var answer := options[i];
      selectedOption := answer;
      var verdict := Classify(answer);
      feedback := Some(verdict);
      if verdict == Correct {
        var first := FirstRectangle(options);
        if first.Some? {
          var k := first.value;
          marks := marks[k := marks[k].(correct := true)];
        }
        rectangleShown := true;
      } else {
        marks := marks[i := marks[i].(incorrect := true)];
      }
    }
  }

  /** With the screen's four options, picking "rectangle" marks it correct
      and nothing incorrect; picking "circle" marks it incorrect and nothing
      correct. */
  method FourOptions() returns (rightMarked: bool, wrongMarked: bool)
    ensures rightMarked && wrongMarked
  {
    var screen := new DabbaQuestionScreen([Some("square"), Some("rectangle"), Some("circle"), Some("something-else")]);
    screen.SelectOption(1);
    rightMarked := screen.marks[1].correct && !screen.marks[0].incorrect;
    screen.SelectOption(2);
    wrongMarked := screen.marks[2].incorrect && !screen.marks[1].correct && screen.selectedOption == Some("circle");
  }
}
