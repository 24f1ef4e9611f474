/** The JavaScript number behaviour the projection depends on.

    Amounts are exact reals instead of doubles. What the reals cannot hold is
    the non-finite result of dividing by a rounded-down zero; `Num` keeps that
    apart as `NonFinite` (Infinity, -Infinity and NaN together), which every
    later addition or subtraction of a finite amount leaves non-finite.
 */
module JsNumber {

  datatype Num = Finite(value: real) | NonFinite

  /** `a + x` for a finite amount `x`. */
  function Plus(a: Num, x: real): (r: Num)
    ensures r.Finite? <==> a.Finite?
    ensures a.Finite? ==> r.value - a.value == x
  {
    match a
    case Finite(v) => Finite(v + x)
    case NonFinite => NonFinite
  }

  /** `a - b`, where either side may be non-finite. */
  function Minus(a: Num, b: Num): (r: Num)
    ensures r.Finite? <==> a.Finite? && b.Finite?
    ensures r.Finite? ==> r.value + b.value == a.value
  {
    if a.Finite? && b.Finite? then Finite(a.value - b.value) else NonFinite
  }

  /** `Math.round`: the nearest integer, halves rounded up (toward +Infinity). */
  function JsRound(x: real): (r: int)
    ensures x - 0.5 < r as real <= x + 0.5
  {
    (x + 0.5).Floor
  }

  /** Rounding lands on an integer at most half a unit away, and an integer
      rounds to itself: the two inequalities pin the result down. */
  lemma JsRoundUnique(x: real, n: int)
    requires x - 0.5 < n as real <= x + 0.5
    ensures JsRound(x) == n
  {
  }
}
