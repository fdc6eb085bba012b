/** Screen 8, the beaker experiment (class BeakerSimScreen in
    scripts/screen8.js). The learner guesses which of two beakers holds
    more, a tall slim one (A: r = 3, h = 100) or a short wide one (B: r = 15,
    h = 4), or that they hold the same; the simulation then fills both,
    counts each volume up on a counter and explains the outcome. The two
    timer callbacks (the fill 100 ms after the start, the explanation after
    2.5 s) and the animation-frame steps of the counter are run as ordinary
    calls, in the order the timers fire. */
module BeakerSim {
  import opened Util

  datatype Beaker = Beaker(radius: real, height: real)

  const BeakerA: Beaker := Beaker(3.0, 100.0)
  const BeakerB: Beaker := Beaker(15.0, 4.0)

  /** The learner's guess. */
  datatype Guess = GuessA | GuessB | GuessEqual

  /** Which beaker a drawing belongs to. */
  datatype Side = A | B

  /** The volume the drawing treats as a full beaker, and the drawn heights
      and bottom edges of the two beakers, in drawing units. */
  const FullVolume: real := 2827.4
  const EqualTolerance: real := 0.01

  function Capacity(b: Beaker): (v: real)
    ensures b.radius >= 0.0 && b.height >= 0.0 ==> v >= 0.0
  {
    Pi * (b.radius * b.radius) * b.height
  }

  /** Two volumes count as equal when they differ by less than 0.01. */
  predicate IsEqual(vA: real, vB: real)
  {
    Abs(vA - vB) < EqualTolerance
  }

  /** Both beakers hold 900π, so the comparison reports them equal. */
  lemma BeakersHoldTheSame()
    ensures Capacity(BeakerA) == 900.0 * Pi && Capacity(BeakerB) == 900.0 * Pi
    ensures IsEqual(Capacity(BeakerA), Capacity(BeakerB))
  {
  }

  function DrawnHeight(side: Side): real
  {
    if side == A then 160.0 else 60.0
  }

  function Bottom(side: Side): real
  {
    if side == A then 180.0 else 70.0
  }

  /** The water's height: proportional to the volume, capped at the
      beaker's drawn height. */
  function FillHeight(side: Side, volume: real): (h: real)
    ensures h <= DrawnHeight(side)
    ensures volume >= 0.0 ==> h >= 0.0
    ensures volume <= FullVolume ==> h == volume / FullVolume * DrawnHeight(side)
    ensures volume >= FullVolume ==> h == DrawnHeight(side)
  {
    Min(DrawnHeight(side), volume / FullVolume * DrawnHeight(side))
  }

  /** The water rectangle grows upward: its top edge. */
  function WaterTop(side: Side, h: real): (y: real)
    ensures y + h == Bottom(side)
  {
    Bottom(side) - h
  }

  /** 900π is a little over the full volume, so both beakers fill to the
      brim of their drawings. */
  lemma BothFillToTheBrim()
    ensures FillHeight(A, Capacity(BeakerA)) == 160.0
    ensures FillHeight(B, Capacity(BeakerB)) == 60.0
  {
    BeakersHoldTheSame();
  }

  /** What showExplanation says. */
  datatype Explanation = SameVolume | Different(larger: Side, smaller: Side, difference: real)

  function Explain(vA: real, vB: real, isEqual: bool): (e: Explanation)
    ensures e.SameVolume? <==> isEqual
    ensures e.Different? ==> e.larger != e.smaller && e.difference >= 0.0
    ensures e.Different? ==> (e.larger == A <==> vA > vB)
    ensures e.Different? ==> e.difference == Abs(vA - vB)
  {
    if isEqual then SameVolume
    else
      var larger := if vA > vB then A else B;
      var smaller := if vA > vB then B else A;
      Different(larger, smaller, Abs(vA - vB))
  }

  /** The experiment's outcome is the same whatever was guessed: it is
      computed from the two volumes alone, and they are equal. */
  lemma OutcomeIgnoresGuess()
    ensures Explain(Capacity(BeakerA), Capacity(BeakerB), IsEqual(Capacity(BeakerA), Capacity(BeakerB))) == SameVolume
  {
    BeakersHoldTheSame();
  }

  /** The number of counter steps. */
  const CounterSteps: nat := 50

  /** The counter's running value after k frames: k fiftieths of the
      target. */
  function Running(target: real, k: nat): real
  {
    k as real * (target / 50.0)
  }

  /** For a positive target the running value stays within the target,
      reaches it at the 50th frame, and grows frame by frame. */
  lemma RunningBelowTarget(target: real, k: nat)
    requires target > 0.0 && k <= CounterSteps
    ensures Running(target, k) <= target
    ensures Running(target, k) < target <==> k < CounterSteps
    ensures Running(target, k + 1) == Running(target, k) + target / 50.0
  {
  }

  lemma RunningGrows(target: real, i: nat, j: nat)
    requires target >= 0.0 && i <= j
    ensures Running(target, i) <= Running(target, j)
  {
  }

  /** What a counter counting up to target displays, in order: never more
      than the target, never decreasing, ending with exactly the target; a
      positive target is reached in 50 frames of target/50 each. */
  predicate CountsUpTo(shown: seq<real>, target: real)
  {
    && |shown| >= 1 && shown[|shown| - 1] == target
    && (forall i :: 0 <= i < |shown| ==> shown[i] <= target)
    && (forall i, j :: 0 <= i < j < |shown| ==> shown[i] <= shown[j])
    && (target <= 0.0 ==> shown == [target])
    && (target > 0.0 ==> |shown| == CounterSteps + 1)
    && (target > 0.0 ==> forall i :: 0 <= i < CounterSteps ==> shown[i] == Running(target, i + 1))
  }

  /** updateCounter's frames: target/50 more on each frame while below the
      target, the running value capped at the target, and finally the
      target itself. */
  method CountUp(target: real) returns (shown: seq<real>)
    ensures CountsUpTo(shown, target)
  {
    var currentVolume := 0.0;
    var increment := target / 50.0;
    var k: nat := 0;
    shown := [];
    while currentVolume < target
      invariant target > 0.0 ==> k <= CounterSteps
      invariant target <= 0.0 ==> k == 0
      invariant currentVolume == Running(target, k)
      invariant |shown| == k
      invariant forall i :: 0 <= i < k ==> shown[i] == Running(target, i + 1)
      decreases if target > 0.0 then CounterSteps - k else 0
    {
      RunningBelowTarget(target, k);
      RunningBelowTarget(target, k + 1);
      currentVolume := currentVolume + increment;
      k := k + 1;
      shown := shown + [Min(currentVolume, target)];
    }
    if target > 0.0 {
      RunningBelowTarget(target, k);
      forall i | 0 <= i < k
        ensures shown[i] <= target
      {
        RunningBelowTarget(target, i + 1);
      }
      forall i, j | 0 <= i < j < k
        ensures shown[i] <= shown[j]
      {
        RunningGrows(target, i + 1, j + 1);
      }
    }
    shown := shown + [target];
  }

  /** The drawn water of one beaker: top edge and height. */
  datatype Water = Water(y: real, height: real)

  class BeakerSimScreen {
    var selectedBeaker: Option<Guess>
    /** The fill controls, and whether the fill button is enabled. */
    var controlsShown: bool
    var fillEnabled: bool
    var waterA: Water
    var waterB: Water
    /** The values each counter displayed, and whether it is visible. */
    var counterA: seq<real>
    var counterB: seq<real>
    var countersShown: bool
    var explanation: Option<Explanation>

    /** Nothing selected, both beakers empty at their bottom edges. */
    constructor ()
      ensures selectedBeaker == None && !controlsShown && !fillEnabled
      ensures waterA == Water(Bottom(A), 0.0) && waterB == Water(Bottom(B), 0.0)
      ensures explanation == None
    {
      selectedBeaker := None;
      controlsShown := false;
      fillEnabled := false;
      waterA := Water(180.0, 0.0);
      waterB := Water(70.0, 0.0);
      counterA := [];
      counterB := [];
      countersShown := false;
      explanation := None;
    }

    /** selectBeaker: "A", "B" and "equal" record the guess; any other
        string keeps the previous one. The fill controls appear either
        way. */
    method SelectBeaker(choice: string)
      modifies this`selectedBeaker, this`controlsShown, this`fillEnabled
      ensures choice == "A" ==> selectedBeaker == Some(GuessA)
      ensures choice == "B" ==> selectedBeaker == Some(GuessB)
      ensures choice == "equal" ==> selectedBeaker == Some(GuessEqual)
      ensures choice !in {"A", "B", "equal"} ==> selectedBeaker == old(selectedBeaker)
      ensures controlsShown && fillEnabled
    {
      if choice == "A" {
        selectedBeaker := Some(GuessA);
      } else if choice == "B" {
        selectedBeaker := Some(GuessB);
      } else if choice == "equal" {
        selectedBeaker := Some(GuessEqual);
      }
      controlsShown := true;
      fillEnabled := true;
    }

    /** calculateVolumes */
    method CalculateVolumes() returns (volumeA: real, volumeB: real)
      ensures volumeA == Capacity(BeakerA) && volumeB == Capacity(BeakerB)
      ensures volumeA == volumeB
    {
      volumeA := Pi * (3.0 * 3.0) * 100.0;
      volumeB := Pi * (15.0 * 15.0) * 4.0;
    }

    /** animateWaterFill for one beaker, the timer body included. */
    method AnimateWaterFill(side: Side, volume: real)
      modifies this`waterA, this`waterB, this`counterA, this`counterB, this`countersShown
      ensures side == A ==> waterA == Water(WaterTop(A, FillHeight(A, volume)), FillHeight(A, volume)) && waterB == old(waterB)
      ensures side == B ==> waterB == Water(WaterTop(B, FillHeight(B, volume)), FillHeight(B, volume)) && waterA == old(waterA)
      ensures side == A ==> CountsUpTo(counterA, volume) && counterB == old(counterB)
      ensures side == B ==> CountsUpTo(counterB, volume) && counterA == old(counterA)
      ensures countersShown
    {
      var fillHeight;
      if side == A {
        fillHeight := Min(160.0, (volume / 2827.4) * 160.0);
      } else {
        fillHeight := Min(60.0, (volume / 2827.4) * 60.0);
      }
      if side == A {
        waterA := Water(180.0 - fillHeight, fillHeight);
      } else {
        waterB := Water(70.0 - fillHeight, fillHeight);
      }
      countersShown := true;
      var shown := CountUp(volume);
      if side == A {
        counterA := shown;
      } else {
        counterB := shown;
      }
    }

    /** showExplanation */
    method ShowExplanation(isEqual: bool)
      modifies this`explanation
      ensures explanation == Some(Explain(Capacity(BeakerA), Capacity(BeakerB), isEqual))
    {
      var vA, vB := CalculateVolumes();
      explanation := Some(Explain(vA, vB, isEqual));
    }

    /** startWaterFill: nothing happens until a guess is recorded; then
        both beakers fill to the brim and the explanation says they hold
        the same, whatever the guess was. */
    method StartWaterFill()
      modifies this
      ensures old(selectedBeaker).None? ==> unchanged(this)
      ensures old(selectedBeaker).Some? ==>
        waterA == Water(20.0, 160.0) && waterB == Water(10.0, 60.0) &&
        explanation == Some(SameVolume) && selectedBeaker == old(selectedBeaker) &&
        CountsUpTo(counterA, Capacity(BeakerA)) && CountsUpTo(counterB, Capacity(BeakerB)) && countersShown &&
        controlsShown == old(controlsShown) && fillEnabled == old(fillEnabled)
    {
      if selectedBeaker.None? {
        return;
      }
      var volumeA, volumeB := CalculateVolumes();
      var isEqual := Abs(volumeA - volumeB) < 0.01;
      waterA := Water(180.0, 0.0);
      waterB := Water(70.0, 0.0);
      countersShown := false;
      BothFillToTheBrim();
      AnimateWaterFill(A, volumeA);
      AnimateWaterFill(B, volumeB);
      ShowExplanation(isEqual);
    }
  }
}
