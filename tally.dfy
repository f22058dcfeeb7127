/**
 * Integer statements of the source's `Math.round(part / whole * 100)` and
 * `Math.ceil(n / d)`.
 */
module Tally {

  /** `Math.ceil(n / d)` for a whole numerator and a positive divisor. */
  function CeilDiv(n: nat, d: nat): (q: nat)
    requires d > 0
    ensures (q - 1) * d < n <= q * d
  {
    DivBounds(n + d - 1, d);
    (n + d - 1) / d
  }

  /**
   * `whole > 0 ? Math.round(part / whole * 100) : 0`, with the exact
   * rational quotient (round half up).
   */
  function RoundedPercent(part: nat, whole: nat): (r: nat)
    ensures whole == 0 ==> r == 0
    ensures whole > 0 ==> 2 * r * whole <= 200 * part + whole < 2 * (r + 1) * whole
    ensures part <= whole ==> r <= 100
  {
    if whole == 0 then 0
    else
      PercentBound(part, whole);
      (200 * part + whole) / (2 * whole)
  }

  lemma PercentBound(part: nat, whole: nat)
    requires whole > 0
    ensures var r := (200 * part + whole) / (2 * whole);
      2 * r * whole <= 200 * part + whole < 2 * (r + 1) * whole
      && (part <= whole ==> r <= 100)
  {
    var r := (200 * part + whole) / (2 * whole);
    DivBounds(200 * part + whole, 2 * whole);
    if part <= whole {
      assert 2 * r * whole <= 201 * whole;
    }
  }

  lemma DivBounds(n: nat, d: nat)
    requires d > 0
    ensures (n / d) * d <= n < (n / d + 1) * d
  {
  }
}
