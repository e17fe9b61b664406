/**
 * Python's built-in `round(x, d)` on exact reals: the nearest multiple of
 * 10^-d, ties going to the even multiple. The journal stores rounded lot sizes
 * and rounded profit figures.
 */
module Rounding {

  /** 10 raised to `d`. */
  function Pow10(d: nat): (p: real)
    ensures p >= 1.0
  {
    if d == 0 then 1.0 else 10.0 * Pow10(d - 1)
  }

  /** `x` counted in units of 10^-d. */
  function Scaled(x: real, d: nat): real {
    x * Pow10(d)
  }

  /** True when `y` is a whole number. */
  predicate IsWhole(y: real) {
    y.Floor as real == y
  }

  /** True when `x` has at most `d` decimal digits. */
  predicate HasDecimals(x: real, d: nat) {
    IsWhole(Scaled(x, d))
  }

  /** The whole number nearest to `y`, ties going to the even one. */
  function NearestWhole(y: real): (n: int)
    ensures -0.5 <= n as real - y <= 0.5
    ensures IsWhole(y) ==> n as real == y
    ensures n as real - y == 0.5 || n as real - y == -0.5 ==> n % 2 == 0
  {
    var f := y.Floor;
    var frac := y - f as real;
    if frac > 0.5 then f + 1
    else if frac < 0.5 then f
    else if f % 2 == 0 then f
    else f + 1
  }

  /** Scaling back a count of 10^-d units gives that count. */
  lemma ScaledQuotient(n: int, d: nat)
    ensures Scaled(n as real / Pow10(d), d) == n as real
  {
  }

  /** The distance of two values in units of 10^-d. */
  lemma ScaledDifference(a: real, b: real, d: nat)
    ensures Scaled(a, d) - Scaled(b, d) == (a - b) * Pow10(d)
  {
  }

  /**
   * `round(x, d)`: the result has at most `d` decimals and lies within half a
   * unit of the last kept decimal from `x`; on an exact tie the kept last
   * decimal is even.
   */
  function Round(x: real, d: nat): (r: real)
    ensures HasDecimals(r, d)
    ensures -0.5 <= (r - x) * Pow10(d) <= 0.5
    ensures (r - x) * Pow10(d) == 0.5 || (r - x) * Pow10(d) == -0.5 ==> Scaled(r, d).Floor % 2 == 0
  {
    var n := NearestWhole(Scaled(x, d));
    ScaledQuotient(n, d);
    ScaledDifference(n as real / Pow10(d), x, d);
    assert IsWhole(n as real);
    n as real / Pow10(d)
  }

  /** A value that already has `d` decimals is left as it is. */
  lemma RoundExact(x: real, d: nat)
    requires HasDecimals(x, d)
    ensures Round(x, d) == x
  {
  }

  /** Exact ties go to the even neighbour: 2.5 rounds down to 2, 3.5 up to 4. */
  lemma RoundTiesToEven()
    ensures Round(2.5, 0) == 2.0 && Round(3.5, 0) == 4.0
  {
  }
}
