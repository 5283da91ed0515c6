/** Squares, powers and bounds over the reals that the audio processors share. */
module Reals {
  function Sq(x: real): (r: real)
    ensures r >= 0.0
  {
    x * x
  }

  function Abs(x: real): (r: real)
    ensures r >= 0.0
  {
    if x < 0.0 then -x else x
  }

  function Max(a: real, b: real): (r: real)
    ensures r >= a && r >= b && (r == a || r == b)
  {
    if a < b then b else a
  }

  function Min(a: real, b: real): (r: real)
    ensures r <= a && r <= b && (r == a || r == b)
  {
    if b < a then b else a
  }

  /** A product, under a name that proofs can hide. */
  function Mul(a: real, b: real): real {
    a * b
  }

  function Zeros(n: nat): (r: seq<real>)
    ensures |r| == n && forall i :: 0 <= i < n ==> r[i] == 0.0
  {
    seq(n, _ => 0.0)
  }

  ghost function Pow(r: real, n: nat): real {
    if n == 0 then 1.0 else r * Pow(r, n - 1)
  }

  lemma {:induction false} PowPositive(r: real, n: nat)
    requires r > 0.0
    ensures Pow(r, n) > 0.0
  {
    if n == 0 {
    } else {
      PowPositive(r, n - 1);
    }
  }

  lemma ProductSign(x: real, y: real)
    requires x >= 0.0 && y >= 0.0
    ensures x * y >= 0.0
  {
  }

  lemma ProductPositive(x: real, y: real)
    requires x > 0.0 && y > 0.0
    ensures x * y > 0.0
  {
  }

  lemma ProductIs(x: real, y: real, z: real)
    requires x > 0.0 && y > 0.0 && z == x * y
    ensures z > 0.0
  {
  }

  lemma SqPositive(x: real)
    requires x > 0.0
    ensures Sq(x) > 0.0
  {
    ProductIs(x, x, Sq(x));
  }

  lemma MulMonotone(a: real, b: real, c: real)
    requires a <= b && c >= 0.0
    ensures a * c <= b * c
  {
    ProductSign(b - a, c);
  }

  lemma QuotientTimes(a: real, n: real)
    requires n > 0.0
    ensures (a / n) * n == a
  {
  }

  lemma Above(a: real, b: real, c: real)
    requires a < b <= c
    ensures a < c
  {
  }

  lemma CancelStrict(n: real, a: real, b: real)
    requires n > 0.0 && a * n < b * n
    ensures a < b
  {
    if a >= b {
      MulMonotone(b, a, n);
    }
  }

  lemma CancelLoose(n: real, a: real, b: real)
    requires n > 0.0 && a * n <= b * n
    ensures a <= b
  {
    if a > b {
      ProductPositive(a - b, n);
    }
  }

  lemma SqAbs(a: real)
    ensures Sq(a) == Abs(a) * Abs(a)
  {
    if a < 0.0 {
      assert (-a) * (-a) == a * a;
    }
  }

  lemma SqMonotone(a: real, b: real)
    requires Abs(a) <= b
    ensures Sq(a) <= Sq(b)
  {
    SqAbs(a);
    ProductsMonotone(Abs(a), b);
  }

  lemma ProductsMonotone(m: real, b: real)
    requires 0.0 <= m <= b
    ensures m * m <= b * b
  {
    MulMonotone(m, b, m);
    MulMonotone(m, b, b);
  }

  lemma SqReflects(a: real, b: real)
    requires Sq(a) <= Sq(b) && b >= 0.0
    ensures Abs(a) <= b
  {
    SqAbs(a);
    ProductsReflect(Abs(a), b);
  }

  lemma ProductsReflect(m: real, b: real)
    requires m * m <= b * b && b >= 0.0 && m >= 0.0
    ensures m <= b
  {
    if m > b {
      ProductPositive(m - b, m);
      ProductSign(m - b, b);
    }
  }

  lemma MulAdds(a: real, x: real, y: real)
    ensures Mul(a, x + y) == Mul(a, x) + Mul(a, y)
    ensures Mul(x + y, a) == Mul(x, a) + Mul(y, a)
  {
  }

  lemma MulOrdered(a: real, x: real, y: real)
    requires a >= 0.0 && x <= y
    ensures Mul(a, x) <= Mul(a, y) && Mul(x, a) <= Mul(y, a)
  {
    MulMonotone(x, y, a);
  }

  lemma MulLaws(a: real, b: real, c: real)
    ensures Mul(a, Mul(b, c)) == Mul(Mul(a, b), c)
    ensures Mul(a, b) == Mul(b, a) && Mul(1.0, a) == a
  {
  }

  lemma MulSign(x: real, y: real)
    requires x >= 0.0 && y >= 0.0
    ensures Mul(x, y) >= 0.0
  {
    ProductSign(x, y);
  }

  lemma PowUnfolds(rho: real, n: nat)
    ensures Pow(rho, 0) == 1.0
    ensures n > 0 ==> Pow(rho, n) == Mul(rho, Pow(rho, n - 1))
  {
  }

  lemma {:induction false} PowSum(r: real, m: nat, k: nat)
    ensures Pow(r, m + k) == Mul(Pow(r, m), Pow(r, k))
  {
    hide Mul, Pow;
    PowUnfolds(r, m + k);
    PowUnfolds(r, m);
    if m == 0 {
      MulLaws(1.0, Pow(r, k), 1.0);
      MulLaws(Pow(r, k), 1.0, 1.0);
    } else {
      PowSum(r, m - 1, k);
      MulLaws(r, Pow(r, m - 1), Pow(r, k));
    }
  }

  lemma SqProduct(a: real, b: real)
    ensures Sq(a * b) == Mul(Sq(a), Sq(b))
  {
    assert (a * b) * (a * b) == (a * a) * (b * b);
  }

  lemma GainWithin(g: real, t: real, most: real, bound: real, z: real)
    requires Abs(g) <= most && Abs(t) <= bound && z == g * t
    ensures Abs(z) <= most * bound
  {
    var a, b := Abs(g), Abs(t);
    MulMonotone(a, most, b);
    MulMonotone(b, bound, most);
    if g >= 0.0 {
      MulMonotone(t, b, g);
      MulMonotone(-t, b, g);
    } else {
      MulMonotone(t, b, -g);
      MulMonotone(-t, b, -g);
    }
  }

  lemma {:induction false} PowShrinks(g: real, m: nat, n: nat)
    requires 0.0 <= g <= 1.0 && m <= n
    ensures 0.0 <= Pow(g, n) <= Pow(g, m)
    decreases n
  {
    hide Mul, Pow;
    PowUnfolds(g, n);
    if n == 0 {
    } else if m == n {
      PowShrinks(g, m - 1, n - 1);
      MulSign(g, Pow(g, n - 1));
    } else {
      PowShrinks(g, m, n - 1);
      MulSign(g, Pow(g, n - 1));
      MulOrdered(Pow(g, n - 1), g, 1.0);
      MulLaws(1.0, Pow(g, n - 1), 1.0);
      MulLaws(Pow(g, n - 1), 1.0, 1.0);
    }
  }

  lemma MulIs(a: real, b: real)
    ensures Mul(a, b) == a * b
  {
  }

  lemma {:induction false} PowOrdered(a: real, b: real, k: nat)
    requires 0.0 <= a <= b
    ensures 0.0 <= Pow(a, k) <= Pow(b, k)
  {
    hide Mul, Pow;
    PowUnfolds(a, k);
    PowUnfolds(b, k);
    if k == 0 {
    } else {
      PowOrdered(a, b, k - 1);
      MulSign(a, Pow(a, k - 1));
      MulOrdered(a, Pow(a, k - 1), Pow(b, k - 1));
      MulOrdered(Pow(b, k - 1), a, b);
    }
  }

  lemma {:induction false} PowOnes(k: nat)
    ensures Pow(1.0, k) == 1.0
  {
    if k > 0 {
      PowOnes(k - 1);
    }
  }

  lemma {:induction false} PowProduct(x: real, y: real, n: nat)
    ensures Pow(Mul(x, y), n) == Mul(Pow(x, n), Pow(y, n))
  {
    hide Mul, Pow;
    PowUnfolds(Mul(x, y), n);
    PowUnfolds(x, n);
    PowUnfolds(y, n);
    if n == 0 {
      MulLaws(1.0, 1.0, 1.0);
    } else {
      var a, b := Pow(x, n - 1), Pow(y, n - 1);
      PowProduct(x, y, n - 1);
      MulLaws(x, y, Mul(a, b));
      MulLaws(y, a, b);
      MulLaws(a, y, b);
      MulLaws(x, a, Mul(y, b));
    }
  }

  lemma {:induction false} PowPower(r: real, n: nat, k: nat)
    ensures Pow(Pow(r, n), k) == Pow(r, n * k)
  {
    hide Mul, Pow;
    PowUnfolds(Pow(r, n), k);
    PowUnfolds(r, 0);
    if k > 0 {
      PowPower(r, n, k - 1);
      assert n * k == n + n * (k - 1) && n * (k - 1) >= 0;
      PowSum(r, n, n * (k - 1));
    }
  }
}
