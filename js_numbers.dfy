/**
 * The few JavaScript number operations the allocation relies on, over exact
 * reals: a number that may be NaN, `+(x).toFixed(0)` and `Math.ceil`.
 */
module JsNumbers {

  /** A JavaScript number as far as the model needs one: a finite value or NaN. */
  datatype JsNumber = Num(value: real) | NaN

  /**
   * `+(x).toFixed(0)`: Number.prototype.toFixed (section 21.1.3.3 of ECMA-262)
   * takes the sign off first and picks the larger of two equally near integers
   * for the magnitude, so halves round up for x >= 0 and down for x < 0.
   */
  function ToFixed0(x: real): (n: int)
    ensures 0.0 <= x ==> x - 0.5 < n as real <= x + 0.5
    ensures x < 0.0 ==> x - 0.5 <= n as real < x + 0.5
  {
    if x < 0.0 then -((-x + 0.5).Floor) else (x + 0.5).Floor
  }

  /** `Math.ceil`: the least integer not below x. */
  function Ceil(x: real): (n: int)
    ensures x <= n as real < x + 1.0
  {
    -((-x).Floor)
  }

  function Abs(x: real): real { if x < 0.0 then -x else x }

  /** ToFixed0 picks a nearest integer, and on a tie the one farther from zero. */
  lemma ToFixed0IsNearest(x: real, k: int)
    ensures Abs(x - ToFixed0(x) as real) <= Abs(x - k as real)
    ensures Abs(x - ToFixed0(x) as real) == Abs(x - k as real) && k != ToFixed0(x)
            ==> Abs(k as real) < Abs(ToFixed0(x) as real)
  {
  }

  /** Ceil is the least integer at or above x: any other such integer is no smaller. */
  lemma CeilIsLeast(x: real, k: int)
    requires x <= k as real
    ensures Ceil(x) <= k
  {
  }

  /**
   * Ceiling safety of a share count: with a positive price, buying
   * Ceil(amount / price) shares costs at least the amount, and one share
   * fewer would cost less than it.
   */
  lemma CeilDivCovers(amount: real, price: real)
    requires price > 0.0
    ensures Ceil(amount / price) as real * price >= amount
    ensures (Ceil(amount / price) - 1) as real * price < amount
  {
    var q := amount / price;
    var n := Ceil(q);
    assert q * price == amount;
    MulMonotone(q, n as real, price);
    var m := (n - 1) as real;
    assert m == n as real - 1.0 < q;
    MulStrict(m, q, price);
    assert m * price < amount;
  }

  lemma MulMonotone(a: real, b: real, c: real)
    requires a <= b && c > 0.0
    ensures a * c <= b * c
  {}

  lemma MulStrict(a: real, b: real, c: real)
    requires a < b && c > 0.0
    ensures a * c < b * c
  {}
}
