/** How the quiz reads the number of the question on show
    (getCurrentQuestionNumber in scripts/quiz.js): it searches the text of
    the ".question-number" element for the pattern
    `Question (\d+) of \d+` and parses the captured digits with parseInt; a
    missing element or a text without a match gives question 1. */
module QuestionLabel {
  import opened Util

  predicate IsDigit(c: char)
  {
    '0' <= c <= '9'
  }

  predicate AllDigits(s: string)
  {
    forall i :: 0 <= i < |s| ==> IsDigit(s[i])
  }

  /** parseInt of a string made only of decimal digits. */
  function DigitsValue(ds: string): nat
    requires AllDigits(ds)
    decreases |ds|
  {
    if ds == [] then 0
    else DigitsValue(ds[..|ds| - 1]) * 10 + (ds[|ds| - 1] as int - '0' as int)
  }

  /** The decimal numeral JavaScript writes for a natural number. */
  function Decimal(n: nat): (s: string)
    ensures |s| > 0 && AllDigits(s)
    decreases n
  {
    var last := [('0' as int + n % 10) as char];
    if n < 10 then last else Decimal(n / 10) + last
  }

  lemma {:induction false} DecimalValue(n: nat)
    ensures DigitsValue(Decimal(n)) == n
    decreases n
  {
    var s := Decimal(n);
    if n >= 10 {
      DecimalValue(n / 10);
      assert s[..|s| - 1] == Decimal(n / 10);
    }
  }

  /** Length of the longest run of digits starting at position i. */
  function DigitRun(s: string, i: nat): (k: nat)
    requires i <= |s|
    ensures i + k <= |s|
    ensures AllDigits(s[i..i + k])
    ensures i + k == |s| || !IsDigit(s[i + k])
    decreases |s| - i
  {
    if i < |s| && IsDigit(s[i]) then
      var k := DigitRun(s, i + 1);
      assert s[i..i + 1 + k] == [s[i]] + s[i + 1..i + 1 + k];
      1 + k
    else 0
  }

  lemma {:induction false} DigitRunExact(s: string, i: nat, k: nat)
    requires i + k <= |s|
    requires AllDigits(s[i..i + k])
    requires i + k == |s| || !IsDigit(s[i + k])
    ensures DigitRun(s, i) == k
    decreases k
  {
    if k > 0 {
      assert s[i] == s[i..i + k][0];
      assert s[i + 1..i + k] == s[i..i + k][1..];
      DigitRunExact(s, i + 1, k - 1);
    }
  }

  const Prefix: string := "Question "
  const Middle: string := " of "

  /** The number captured when `Question (\d+) of \d+` matches at position
      i. The capture can only be the whole run of digits after the prefix,
      since the next character must be a space. */
  function MatchAt(s: string, i: nat): Option<nat>
    requires i <= |s|
  {
    if i + |Prefix| <= |s| && s[i..i + |Prefix|] == Prefix then
      var start := i + |Prefix|;
      var k := DigitRun(s, start);
      var j := start + k;
      if k > 0 && j + |Middle| < |s| && s[j..j + |Middle|] == Middle && IsDigit(s[j + |Middle|])
      then Some(DigitsValue(s[start..j]))
      else None
    else None
  }

  /** The leftmost match at or after position i, as a regular-expression
      search reports it. */
  function FindMatch(s: string, i: nat): (r: Option<nat>)
    requires i <= |s|
    ensures r.Some? ==> exists j :: i <= j <= |s| && MatchAt(s, j) == r
    ensures r.None? ==> forall j :: i <= j <= |s| ==> MatchAt(s, j).None?
    ensures forall j :: i <= j <= |s| && MatchAt(s, j).Some? && (forall k :: i <= k < j ==> MatchAt(s, k).None?) ==> r == MatchAt(s, j)
    decreases |s| - i
  {
    if MatchAt(s, i).Some? then MatchAt(s, i)
    else if i == |s| then None
    else FindMatch(s, i + 1)
  }

  /** getCurrentQuestionNumber, given the element's text (None when the
      element is missing). */
  function QuestionNumber(heading: Option<string>): int
  {
    match heading
    case None => 1
    case Some(text) =>
      match FindMatch(text, 0)
      case Some(n) => n
      case None => 1
  }

  /** The label the quiz screens carry. */
  function Label(n: nat, m: nat): string
  {
    Prefix + Decimal(n) + Middle + Decimal(m)
  }

  /** A label "Question N of M" is read back as N. */
  lemma LabelRoundTrip(n: nat, m: nat)
    ensures QuestionNumber(Some(Label(n, m))) == n
  {
    var s := Label(n, m);
    var dn, dm := Decimal(n), Decimal(m);
    var start := |Prefix|;
    var j := start + |dn|;
    assert s[0..|Prefix|] == Prefix;
    assert s[start..j] == dn;
    assert s[j..j + |Middle|] == Middle;
    assert s[j + |Middle|] == dm[0];
    assert j == |s| || !IsDigit(s[j]);
    DigitRunExact(s, start, |dn|);
    DecimalValue(n);
    assert MatchAt(s, 0) == Some(n);
  }

  /** A text in which the pattern matches nowhere is read as question 1. */
  lemma NoMatchMeansFirst(text: string)
    requires forall j :: 0 <= j <= |text| ==> MatchAt(text, j).None?
    ensures QuestionNumber(Some(text)) == 1
  {
  }

  /** A text too short to hold the pattern, the empty text among them, is
      read as question 1. */
  lemma ShortTextMeansFirst(text: string)
    requires |text| < |Prefix| + 1 + |Middle| + 1
    ensures QuestionNumber(Some(text)) == 1
  {
    forall j | 0 <= j <= |text|
      ensures MatchAt(text, j).None?
    {
    }
  }
}
