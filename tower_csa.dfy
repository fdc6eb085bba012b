/** Screen 7, the tower problem (class TowerCSAScreen in scripts/screen7.js):
    the curved surface area of a cylindrical tower of radius 7 m and height
    72 m. A wrong answer first shows the hint, every later wrong answer
    shows the worked value; there is no further tier. The typed number
    reaches the model already parsed (None for what parseFloat reads as
    NaN). */
module TowerCsa {
  import opened Util

  /** 2πrh for r = 7, h = 72. */
  const TowerExpected: real := 2.0 * Pi * 7.0 * 72.0

  predicate TowerAccepts(val: real)
  {
    Abs(val - TowerExpected) < 0.5
  }

  /** What check() shows. */
  datatype TowerFeedback = EnterNumber | Right | NotQuite | WorkedValue

  /** The message for a submission, given the wrong attempts counted before
      it. */
  function TowerReaction(attempts: nat, val: Option<real>): (f: TowerFeedback)
    ensures f == EnterNumber <==> val.None?
    ensures f == Right <==> val.Some? && TowerAccepts(val.value)
    ensures f == NotQuite <==> val.Some? && !TowerAccepts(val.value) && attempts == 0
    ensures f == WorkedValue <==> val.Some? && !TowerAccepts(val.value) && attempts >= 1
  {
    match val
    case None => EnterNumber
    case Some(v) =>
      if TowerAccepts(v) then Right
      else if attempts + 1 == 1 then NotQuite
      else WorkedValue
  }

  /** The counter after a submission: only a wrong number moves it. */
  function TowerAttempts(attempts: nat, val: Option<real>): (n: nat)
    ensures n == attempts || n == attempts + 1
    ensures n == attempts + 1 <==> TowerReaction(attempts, val) in {NotQuite, WorkedValue}
  {
    if val.Some? && !TowerAccepts(val.value) then attempts + 1 else attempts
  }

  /** The messages shown for a sequence of submissions. */
  function TowerRun(attempts: nat, vals: seq<Option<real>>): seq<TowerFeedback>
    decreases |vals|
  {
    if vals == [] then []
    else [TowerReaction(attempts, vals[0])] + TowerRun(TowerAttempts(attempts, vals[0]), vals[1..])
  }

  /** Once an answer has been wrong, the hint message never comes again. */
  lemma {:induction false} NoHintAfterFirstWrong(attempts: nat, vals: seq<Option<real>>)
    requires attempts >= 1
    ensures |TowerRun(attempts, vals)| == |vals|
    ensures NotQuite !in TowerRun(attempts, vals)
    decreases |vals|
  {
    if vals != [] {
      NoHintAfterFirstWrong(TowerAttempts(attempts, vals[0]), vals[1..]);
    }
  }

  /** On any sequence of submissions the hint message appears at most once. */
  lemma {:induction false} HintAtMostOnce(attempts: nat, vals: seq<Option<real>>)
    ensures forall i, j :: 0 <= i < j < |TowerRun(attempts, vals)| ==>
      !(TowerRun(attempts, vals)[i] == NotQuite && TowerRun(attempts, vals)[j] == NotQuite)
    decreases |vals|
  {
    if vals != [] {
      var run := TowerRun(attempts, vals);
      var next := TowerAttempts(attempts, vals[0]);
      var rest := TowerRun(next, vals[1..]);
      assert run == [TowerReaction(attempts, vals[0])] + rest;
      HintAtMostOnce(next, vals[1..]);
      if run[0] == NotQuite {
        NoHintAfterFirstWrong(next, vals[1..]);
      }
      forall i, j | 0 <= i < j < |run|
        ensures !(run[i] == NotQuite && run[j] == NotQuite)
      {
        assert run[j] == rest[j - 1];
        if i > 0 {
          assert run[i] == rest[i - 1];
        }
      }
    }
  }

  class TowerCSAScreen {
    var attempts: nat
    /** The hint block. */
    var hintShown: bool
    var feedback: Option<TowerFeedback>

    constructor ()
      ensures attempts == 0 && !hintShown && feedback == None
    {
      attempts := 0;
      hintShown := false;
      feedback := None;
    }

    /** check(): a wrong number is counted, the first one opens the hint. */
    method Check(val: Option<real>)
      modifies this
      ensures feedback == Some(TowerReaction(old(attempts), val))
      ensures attempts == TowerAttempts(old(attempts), val)
      ensures hintShown == (old(hintShown) || feedback == Some(NotQuite))
    {
      match val {
        case None =>
          feedback := Some(EnterNumber);
        case Some(v) =>
          if Abs(v - TowerExpected) < 0.5 {
            feedback := Some(Right);
            return;
          }
          attempts := attempts + 1;
          if attempts == 1 {
            hintShown := true;
            feedback := Some(NotQuite);
          } else {
            feedback := Some(WorkedValue);
          }
      }
    }
  }
}
