/** Screen 6, the adaptive check (class CylinderAdaptiveCheckScreen in
    scripts/screen6.js). Two questions on a cylinder of radius 7 and height
    10: Q1 asks for the curved surface area as a number, Q2 asks which
    surfaces make up the total surface area. Wrong answers to Q1 escalate
    through a hint, a "solve together" popup and, from the third wrong
    answer on, an entry in the weak-spot log; every wrong answer to Q2 logs
    a weak spot. The "Go Deeper / Move Ahead" row appears once both
    questions are done.

    The number typed for Q1 reaches the model already parsed (None for what
    parseFloat reads as NaN); the weak-spot store is a field holding the
    list last written to it. */
module AdaptiveCheck {
  import opened Util

  const WeakSpotCsa: string := "cylinder_csa"
  const WeakSpotTsa: string := "cylinder_tsa_concept"
  const CorrectSurfaces: string := "side-top-bottom"
  const SideOnly: string := "side-only"
  const TopBottomOnly: string := "top-bottom-only"

  /** 2πrh for r = 7, h = 10. */
  const Q1Expected: real := 2.0 * Pi * 7.0 * 10.0

  /** Q1 accepts an answer strictly closer than 0.5 to 2πrh. */
  predicate Q1Accepts(val: real)
  {
    Abs(val - Q1Expected) < 0.5
  }

  /** The acceptance window is the open interval of width 1 around 2πrh. */
  lemma Q1Window(val: real)
    ensures Q1Accepts(val) <==> Q1Expected - 0.5 < val < Q1Expected + 0.5
    ensures Q1Accepts(440.0) && Q1Accepts(439.6) && !Q1Accepts(440.4)
  {
  }

  // ---------------------------------------------------------------------
  // The weak-spot log.

  /** logWeakSpot on values: the key is appended unless already present. */
  function WithWeakSpot(spots: seq<string>, key: string): (r: seq<string>)
    ensures key in r
    ensures key in spots ==> r == spots
    ensures forall x :: x in r <==> x in spots || x == key
    ensures |spots| <= |r| <= |spots| + 1 && r[..|spots|] == spots
    ensures NoDuplicates(spots) ==> NoDuplicates(r)
  {
    if key in spots then spots else spots + [key]
  }

  /** Logging the same key twice is the same as logging it once. */
  lemma LogIdempotent(spots: seq<string>, key: string)
    ensures WithWeakSpot(WithWeakSpot(spots, key), key) == WithWeakSpot(spots, key)
  {
  }

  // ---------------------------------------------------------------------
  // The two questions as a state machine on values.

  datatype CheckState = CheckState(q1Attempts: nat, q1Done: bool, q2Done: bool, weakSpots: seq<string>)

  /** What the screen says after a Q1 submission. */
  datatype Q1Feedback = EnterNumber | Q1Right | Hint | SolveTogether | RevisitLater

  /** What the screen says after a Q2 submission. */
  datatype Q2Feedback = ChooseOption | Q2Right | ShowMissingParts | Q2Wrong

  /** The response to the n-th wrong answer to Q1 (n >= 1). */
  function Q1Tier(n: nat): (f: Q1Feedback)
    requires n >= 1
    ensures f == Hint <==> n == 1
    ensures f == SolveTogether <==> n == 2
    ensures f == RevisitLater <==> n >= 3
  {
    if n == 1 then Hint else if n == 2 then SolveTogether else RevisitLater
  }

  function Rank(f: Q1Feedback): nat
  {
    match f
    case Hint => 1
    case SolveTogether => 2
    case RevisitLater => 3
    case _ => 0
  }

  /** The tiers escalate: a later wrong answer never gets a milder response. */
  lemma TiersEscalate(m: nat, n: nat)
    requires 1 <= m <= n
    ensures Rank(Q1Tier(m)) <= Rank(Q1Tier(n))
    ensures m < n <= 3 ==> Rank(Q1Tier(m)) < Rank(Q1Tier(n))
  {
  }

  /** The response to a Q1 submission, given the attempts counted before it. */
  function Q1Reaction(attempts: nat, val: Option<real>): Q1Feedback
  {
    match val
    case None => EnterNumber
    case Some(v) => if Q1Accepts(v) then Q1Right else Q1Tier(attempts + 1)
  }

  predicate IsWrongQ1(val: Option<real>)
  {
    val.Some? && !Q1Accepts(val.value)
  }

  /** handleQ1 on the state. */
  function Q1Step(s: CheckState, val: Option<real>): (t: CheckState)
    ensures val.None? ==> t == s
    ensures val.Some? && Q1Accepts(val.value) ==> t == s.(q1Done := true)
    ensures IsWrongQ1(val) ==> t.q1Attempts == s.q1Attempts + 1 && t.q1Done == s.q1Done && t.q2Done == s.q2Done
    ensures IsWrongQ1(val) ==> t.weakSpots == (if s.q1Attempts + 1 >= 3 then WithWeakSpot(s.weakSpots, WeakSpotCsa) else s.weakSpots)
  {
    match val
    case None => s
    case Some(v) =>
      if Q1Accepts(v) then s.(q1Done := true)
      else
        var n := s.q1Attempts + 1;
        s.(q1Attempts := n, weakSpots := if n >= 3 then WithWeakSpot(s.weakSpots, WeakSpotCsa) else s.weakSpots)
  }

  /** A submission counts as no selection when nothing is checked or the
      checked option's value is empty. */
  predicate NoSelection(selected: Option<string>)
  {
    selected.None? || selected.value == ""
  }

  function Q2Reaction(selected: Option<string>): (f: Q2Feedback)
    ensures f == ChooseOption <==> NoSelection(selected)
    ensures f == Q2Right <==> selected == Some(CorrectSurfaces)
    ensures f == ShowMissingParts <==> selected == Some(SideOnly) || selected == Some(TopBottomOnly)
  {
    if NoSelection(selected) then ChooseOption
    else if selected.value == CorrectSurfaces then Q2Right
    else if selected.value == SideOnly || selected.value == TopBottomOnly then ShowMissingParts
    else Q2Wrong
  }

  /** handleQ2 on the state. */
  function Q2Step(s: CheckState, selected: Option<string>): (t: CheckState)
    ensures NoSelection(selected) ==> t == s
    ensures selected == Some(CorrectSurfaces) ==> t == s.(q2Done := true)
    ensures !NoSelection(selected) && selected != Some(CorrectSurfaces) ==>
      t == s.(weakSpots := WithWeakSpot(s.weakSpots, WeakSpotTsa))
    ensures t.q1Attempts == s.q1Attempts && t.q1Done == s.q1Done
  {
    match Q2Reaction(selected)
    case ChooseOption => s
    case Q2Right => s.(q2Done := true)
    case _ => s.(weakSpots := WithWeakSpot(s.weakSpots, WeakSpotTsa))
  }

  /** A sequence of Q1 submissions. */
  function Q1Run(s: CheckState, vals: seq<Option<real>>): CheckState
    decreases |vals|
  {
    if vals == [] then s else Q1Run(Q1Step(s, vals[0]), vals[1..])
  }

  /** How many of the submissions are wrong numbers. */
  function WrongCount(vals: seq<Option<real>>): (n: nat)
    ensures n <= |vals|
    decreases |vals|
  {
    if vals == [] then 0 else (if IsWrongQ1(vals[0]) then 1 else 0) + WrongCount(vals[1..])
  }

  /** Over any sequence of Q1 submissions: the counter grows by exactly the
      number of wrong answers; Q1 is done iff it was or some answer was
      right; "cylinder_csa" ends up logged iff it already was, or there was
      a wrong answer and the counter reached 3. */
  lemma {:induction false} Q1RunEffect(s: CheckState, vals: seq<Option<real>>)
    ensures Q1Run(s, vals).q1Attempts == s.q1Attempts + WrongCount(vals)
    ensures Q1Run(s, vals).q1Done <==> s.q1Done || exists i :: 0 <= i < |vals| && vals[i].Some? && Q1Accepts(vals[i].value)
    ensures Q1Run(s, vals).q2Done == s.q2Done
    ensures WeakSpotCsa in Q1Run(s, vals).weakSpots <==>
      WeakSpotCsa in s.weakSpots || (WrongCount(vals) > 0 && s.q1Attempts + WrongCount(vals) >= 3)
    decreases |vals|
  {
    if vals != [] {
      var t := Q1Step(s, vals[0]);
      Q1RunEffect(t, vals[1..]);
      if t.q1Done != s.q1Done {
        assert vals[0].Some? && Q1Accepts(vals[0].value);
      }
      if exists i :: 0 <= i < |vals[1..]| && vals[1..][i].Some? && Q1Accepts(vals[1..][i].value) {
        var i :| 0 <= i < |vals[1..]| && vals[1..][i].Some? && Q1Accepts(vals[1..][i].value);
        assert vals[i + 1] == vals[1..][i];
      }
      if exists i :: 0 <= i < |vals| && vals[i].Some? && Q1Accepts(vals[i].value) {
        var i :| 0 <= i < |vals| && vals[i].Some? && Q1Accepts(vals[i].value);
        if i > 0 {
          assert vals[1..][i - 1] == vals[i];
        }
      }
    }
  }

  /** From a fresh screen, three wrong numbers in a row bring the third tier
      and log "cylinder_csa". */
  lemma ThreeWrongAnswersLogCsa(a: real, b: real, c: real)
    requires !Q1Accepts(a) && !Q1Accepts(b) && !Q1Accepts(c)
    ensures WeakSpotCsa in Q1Run(CheckState(0, false, false, []), [Some(a), Some(b), Some(c)]).weakSpots
  {
    var vals := [Some(a), Some(b), Some(c)];
    assert WrongCount(vals[2..]) == 1;
    assert WrongCount(vals[1..]) == 2;
    Q1RunEffect(CheckState(0, false, false, []), vals);
  }

  /** The call-to-action row is on show exactly when both questions are done. */
  predicate CtaDue(s: CheckState)
  {
    s.q1Done && s.q2Done
  }

  /** Neither handler ever undoes a question. */
  lemma DoneIsStable(s: CheckState, val: Option<real>, selected: Option<string>)
    ensures s.q1Done ==> Q1Step(s, val).q1Done && Q2Step(s, selected).q1Done
    ensures s.q2Done ==> Q1Step(s, val).q2Done && Q2Step(s, selected).q2Done
    ensures CtaDue(s) ==> CtaDue(Q1Step(s, val)) && CtaDue(Q2Step(s, selected))
  {
  }

  // ---------------------------------------------------------------------
  // The screen object.

  class CylinderAdaptiveCheckScreen {
    var q1Attempts: nat
    var q1Done: bool
    var q2Done: bool
    var weakSpots: seq<string>
    /** The store's "weakSpots" entry: None while it has never been written. */
    var storedWeakSpots: Option<seq<string>>
    /** The Q1 notice and hint blocks. */
    var hintShown: bool
    /** The solve-together popup. */
    var popupShown: bool
    /** The Q2 alert and visual help blocks. */
    var q2HelpShown: bool
    /** The "Go Deeper / Move Ahead" row. */
    var ctaShown: bool

    function State(): CheckState
      reads this
    {
      CheckState(q1Attempts, q1Done, q2Done, weakSpots)
    }

    /** The row is shown exactly when both questions are done, and the
        in-memory log is what the store holds (the empty list when the store
        has no entry). */
    predicate Valid()
      reads this
    {
      ctaShown == CtaDue(State()) &&
      (if storedWeakSpots.Some? then storedWeakSpots.value == weakSpots else weakSpots == [])
    }

    /** The state starts fresh, the log is read from the store. */
    constructor (stored: Option<seq<string>>)
      ensures Valid()
      ensures State() == CheckState(0, false, false, if stored.Some? then stored.value else [])
      ensures storedWeakSpots == stored
      ensures !hintShown && !popupShown && !q2HelpShown && !ctaShown
    {
      q1Attempts := 0;
      q1Done := false;
      q2Done := false;
      weakSpots := if stored.Some? then stored.value else [];
      storedWeakSpots := stored;
      hintShown := false;
      popupShown := false;
      q2HelpShown := false;
      ctaShown := false;
    }

    /** logWeakSpot: appends a missing key and writes the list back; a key
        already present changes nothing, the store included. */
    method LogWeakSpot(key: string)
      modifies this`weakSpots, this`storedWeakSpots
      ensures weakSpots == WithWeakSpot(old(weakSpots), key)
      ensures key in old(weakSpots) ==> storedWeakSpots == old(storedWeakSpots)
      ensures key !in old(weakSpots) ==> storedWeakSpots == Some(weakSpots)
    {
      if key !in weakSpots {
        weakSpots := weakSpots + [key];
        storedWeakSpots := Some(weakSpots);
      }
    }

    /** offerNextOrDeeper: reveals the row once both questions are done. */
    method OfferNextOrDeeper()
      modifies this`ctaShown
      ensures ctaShown == (old(ctaShown) || (q1Done && q2Done))
    {
      if q1Done && q2Done {
        ctaShown := true;
      }
    }

    /** handleQ1. The popup is the one the solve-together timer opens. */
    method HandleQ1(val: Option<real>) returns (feedback: Q1Feedback)
      requires Valid()
      modifies this
      ensures Valid()
      ensures State() == Q1Step(old(State()), val)
      ensures feedback == Q1Reaction(old(q1Attempts), val)
      ensures hintShown == (if feedback == Hint then true else if feedback == SolveTogether then false else old(hintShown))
      ensures popupShown == (old(popupShown) || feedback == SolveTogether)
      ensures q2HelpShown == old(q2HelpShown)
    {
      match val {
        case None =>
          feedback := EnterNumber;
        case Some(v) =>
          if Abs(v - Q1Expected) < 0.5 {
            feedback := Q1Right;
            q1Done := true;
            OfferNextOrDeeper();
          } else {
            q1Attempts := q1Attempts + 1;
            if q1Attempts == 1 {
              feedback := Hint;
              hintShown := true;
            } else if q1Attempts == 2 {
              feedback := SolveTogether;
              hintShown := false;
              popupShown := true;
            } else {
              feedback := RevisitLater;
              LogWeakSpot(WeakSpotCsa);
            }
          }
      }
    }

    /** handleQ2. Every submission with a selection first hides the help
        blocks; the two partial choices then show them again. */
    method HandleQ2(selected: Option<string>) returns (feedback: Q2Feedback)
      requires Valid()
      modifies this
      ensures Valid()
      ensures State() == Q2Step(old(State()), selected)
      ensures feedback == Q2Reaction(selected)
      ensures q2HelpShown == (if NoSelection(selected) then old(q2HelpShown) else feedback == ShowMissingParts)
      ensures hintShown == old(hintShown) && popupShown == old(popupShown)
    {
      if selected.None? || selected.value == "" {
        feedback := ChooseOption;
        return;
      }
      var choice := selected.value;
      if choice == CorrectSurfaces {
        feedback := Q2Right;
        q2HelpShown := false;
        q2Done := true;
        OfferNextOrDeeper();
        return;
      }
      q2HelpShown := false;
      if choice == SideOnly {
        feedback := ShowMissingParts;
        q2HelpShown := true;
      } else if choice == TopBottomOnly {
        feedback := ShowMissingParts;
        q2HelpShown := true;
      } else {
        feedback := Q2Wrong;
      }
      LogWeakSpot(WeakSpotTsa);
    }
  }
}
