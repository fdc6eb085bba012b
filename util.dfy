/** Small helpers shared by the lesson's modules: an optional value, the
    real-number helpers JavaScript's Math object provides, and the constant
    the scripts read from Math.PI. */
module Util {

  datatype Option<+T> = None | Some(value: T)

  /** The decimal expansion of Math.PI to the digits JavaScript prints.
      Floating-point rounding is not modelled: every formula is evaluated
      exactly over the reals with this value of pi. */
  const Pi: real := 3.141592653589793

  function Abs(x: real): (r: real)
    ensures r >= 0.0
    ensures r == x || r == -x
  {
    if x < 0.0 then -x else x
  }

  function Min(a: real, b: real): (r: real)
    ensures r <= a && r <= b
    ensures r == a || r == b
  {
    if a <= b then a else b
  }

  function Max(a: real, b: real): (r: real)
    ensures r >= a && r >= b
    ensures r == a || r == b
  {
    if a >= b then a else b
  }

  /** No element occurs twice. */
  predicate NoDuplicates<T(==)>(s: seq<T>)
  {
    forall i, j :: 0 <= i < j < |s| ==> s[i] != s[j]
  }
}
