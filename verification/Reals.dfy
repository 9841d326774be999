/**
 Arithmetic on `real` shared by the servo and the clocks it steers.  The lemmas
 name the products they speak about, so that their signs are linear facts for
 the callers.
 */
module Reals {

  function Abs(x: real): real {
    if x < 0.0 then -x else x
  }

  function Clamp(x: real, bound: real): real {
    if x < -bound then -bound else if x > bound then bound else x
  }

  lemma ClampWithin(x: real, bound: real)
    requires bound >= 0.0
    ensures Abs(Clamp(x, bound)) <= bound
  {
  }

  lemma Product(m: real, y: real) returns (r: real)
    requires m > 0.0 && y >= 0.0
    ensures r == m * y && r >= 0.0
    ensures y > 0.0 ==> r > 0.0
  {
    r := m * y;
  }

  lemma ScaledSquare(m: real, x: real) returns (y: real)
    requires m > 0.0
    ensures y == m * (x * x) && y >= 0.0
    ensures x != 0.0 ==> y > 0.0
  {
    y := 0.0;
    if x != 0.0 {
      var r := Product(m, Abs(x));
      y := Product(Abs(x), r);
    }
  }

  lemma SquareRoot(m: real, x: real, bound: real)
    requires m > 0.0 && bound >= 0.0
    requires m * (x * x) <= m * (bound * bound)
    ensures Abs(x) <= bound
  {
    var z := Abs(x);
    if z > bound {
      var d := Product(z - bound, z + bound);
      var r := Product(m, d);
      assert false;
    }
  }

  lemma Scaled(m: real, x: real, bound: real) returns (y: real)
    requires m >= 0.0 && Abs(x) <= bound
    ensures y == m * x && Abs(y) <= m * bound
  {
    y := m * x;
  }

  lemma Monotone(m: real, x: real, y: real)
    requires m >= 0.0 && x <= y
    ensures m * x <= m * y
  {
  }

  lemma NonNegative(m: real, x: real)
    requires m >= 0.0 && x >= 0.0
    ensures m * x >= 0.0
  {
  }

  // A product under a name: hidden, it is one quantity to the solver, and the lemmas
  // below are all there is to know about it.
  function Times(m: real, x: real): real {
    m * x
  }

  lemma TimesSign(m: real, x: real)
    requires m > 0.0
    ensures x > 0.0 ==> Times(m, x) > 0.0
    ensures x >= 0.0 ==> Times(m, x) >= 0.0
    ensures x <= 0.0 ==> Times(m, x) <= 0.0
  {
  }

  lemma TimesMonotone(m: real, x: real, y: real)
    requires m >= 0.0 && x <= y
    ensures Times(m, x) <= Times(m, y)
  {
    Monotone(m, x, y);
  }

  lemma TimesWithin(m: real, x: real, bound: real)
    requires m >= 0.0 && Abs(x) <= bound
    ensures Abs(Times(m, x)) <= Times(m, bound)
  {
    TimesMonotone(m, x, bound);
    TimesMonotone(m, -bound, x);
    TimesNegated(m, bound);
  }

  lemma TimesSum(m: real, x: real, y: real)
    ensures Times(m, x + y) == Times(m, x) + Times(m, y)
  {
  }

  lemma TimesNegated(m: real, x: real)
    ensures Times(m, -x) == -Times(m, x)
  {
  }

  lemma TimesTwice(m: real, n: real, x: real)
    ensures Times(m, Times(n, x)) == Times(Times(n, m), x)
  {
  }

  // A factor of at most one shrinks.
  lemma TimesPart(m: real, x: real)
    requires m <= 1.0 && x >= 0.0
    ensures Times(m, x) <= x
    ensures m == 1.0 ==> Times(m, x) == x
  {
    Monotone(x, m, 1.0);
  }
}
