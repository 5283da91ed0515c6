/** Commutative rings as values, so that the transform is proved over any of them. */
module Rings {

  datatype Ring<!T> = Ring(zero: T, one: T, add: (T, T) -> T, neg: T -> T, mul: (T, T) -> T)

  // Each law is a named predicate: a proof brings an instance into scope by asserting it, and no law rewrites terms
  // behind a proof's back.

  ghost predicate AddAssoc<T>(R: Ring<T>, a: T, b: T, c: T) {
    R.add(R.add(a, b), c) == R.add(a, R.add(b, c))
  }

  ghost predicate AddComm<T>(R: Ring<T>, a: T, b: T) {
    R.add(a, b) == R.add(b, a)
  }

  ghost predicate AddZero<T>(R: Ring<T>, a: T) {
    R.add(a, R.zero) == a
  }

  ghost predicate AddNeg<T>(R: Ring<T>, a: T) {
    R.add(a, R.neg(a)) == R.zero
  }

  ghost predicate MulAssoc<T>(R: Ring<T>, a: T, b: T, c: T) {
    R.mul(R.mul(a, b), c) == R.mul(a, R.mul(b, c))
  }

  ghost predicate MulComm<T>(R: Ring<T>, a: T, b: T) {
    R.mul(a, b) == R.mul(b, a)
  }

  ghost predicate MulOne<T>(R: Ring<T>, a: T) {
    R.mul(a, R.one) == a
  }

  ghost predicate Distrib<T>(R: Ring<T>, a: T, b: T, c: T) {
    R.mul(R.add(a, b), c) == R.add(R.mul(a, c), R.mul(b, c))
  }

  ghost predicate Laws<T(!new)>(R: Ring<T>) {
    && (forall a, b, c :: AddAssoc(R, a, b, c))
    && (forall a, b :: AddComm(R, a, b))
    && (forall a :: AddZero(R, a))
    && (forall a :: AddNeg(R, a))
    && (forall a, b, c :: MulAssoc(R, a, b, c))
    && (forall a, b :: MulComm(R, a, b))
    && (forall a :: MulOne(R, a))
    && (forall a, b, c :: Distrib(R, a, b, c))
  }

  function Sub<T>(R: Ring<T>, a: T, b: T): T {
    R.add(a, R.neg(b))
  }

  function Pow<T>(R: Ring<T>, a: T, e: nat): T {
    if e == 0 then R.one else R.mul(Pow(R, a, e - 1), a)
  }

  /** n copies of a added together. */
  function Times<T>(R: Ring<T>, n: nat, a: T): T {
    if n == 0 then R.zero else R.add(Times(R, n - 1, a), a)
  }

  lemma AddCancel<T(!new)>(R: Ring<T>, a: T, b: T, c: T)
    requires Laws(R)
    requires R.add(a, c) == R.add(b, c)
    ensures a == b
  {
    assert AddAssoc(R, a, c, R.neg(c)) && AddAssoc(R, b, c, R.neg(c));
    assert AddNeg(R, c) && AddZero(R, a) && AddZero(R, b);
  }

  lemma MulZero<T(!new)>(R: Ring<T>, a: T)
    requires Laws(R)
    ensures R.mul(R.zero, a) == R.zero && R.mul(a, R.zero) == R.zero
  {
    var z := R.mul(R.zero, a);
    assert AddZero(R, R.zero) && Distrib(R, R.zero, R.zero, a);
    assert AddZero(R, z) && AddComm(R, R.zero, z);
    AddCancel(R, z, R.zero, z);
    assert MulComm(R, a, R.zero);
  }

  lemma MulNeg<T(!new)>(R: Ring<T>, a: T, b: T)
    requires Laws(R)
    ensures R.mul(R.neg(a), b) == R.neg(R.mul(a, b))
  {
    var p := R.mul(a, b);
    assert AddNeg(R, a) && AddNeg(R, p) && Distrib(R, R.neg(a), a, b);
    assert AddComm(R, a, R.neg(a)) && AddComm(R, p, R.neg(p));
    MulZero(R, b);
    AddCancel(R, R.mul(R.neg(a), b), R.neg(p), p);
  }

  lemma NegNeg<T(!new)>(R: Ring<T>, a: T)
    requires Laws(R)
    ensures R.neg(R.neg(a)) == a
  {
    assert AddNeg(R, a) && AddNeg(R, R.neg(a)) && AddComm(R, R.neg(a), R.neg(R.neg(a)));
    AddCancel(R, R.neg(R.neg(a)), a, R.neg(a));
  }

  lemma {:induction false} PowAdd<T(!new)>(R: Ring<T>, a: T, m: nat, n: nat)
    requires Laws(R)
    ensures Pow(R, a, m + n) == R.mul(Pow(R, a, m), Pow(R, a, n))
  {
    if n == 0 {
      assert MulOne(R, Pow(R, a, m));
    } else {
      PowAdd(R, a, m, n - 1);
      assert MulAssoc(R, Pow(R, a, m), Pow(R, a, n - 1), a);
    }
  }

  lemma {:induction false} PowMul<T(!new)>(R: Ring<T>, a: T, m: nat, n: nat)
    requires Laws(R)
    ensures Pow(R, a, m * n) == Pow(R, Pow(R, a, m), n)
  {
    if n == 0 {
    } else {
      PowMul(R, a, m, n - 1);
      PowAdd(R, a, m * (n - 1), m);
      assert m * n == m * (n - 1) + m;
    }
  }

  lemma {:induction false} PowOne<T(!new)>(R: Ring<T>, n: nat)
    requires Laws(R)
    ensures Pow(R, R.one, n) == R.one
  {
    if n == 0 {
    } else {
      PowOne(R, n - 1);
      assert MulOne(R, R.one);
    }
  }

  lemma {:induction false} PowProduct<T(!new)>(R: Ring<T>, a: T, b: T, n: nat)
    requires Laws(R)
    ensures Pow(R, R.mul(a, b), n) == R.mul(Pow(R, a, n), Pow(R, b, n))
  {
    if n == 0 {
      assert MulOne(R, R.one);
    } else {
      PowProduct(R, a, b, n - 1);
      var p, q := Pow(R, a, n - 1), Pow(R, b, n - 1);
      calc {
        R.mul(R.mul(p, q), R.mul(a, b));
        { assert MulAssoc(R, p, q, R.mul(a, b)); }
        R.mul(p, R.mul(q, R.mul(a, b)));
        { assert MulAssoc(R, q, a, b) && MulComm(R, q, a) && MulAssoc(R, a, q, b); }
        R.mul(p, R.mul(a, R.mul(q, b)));
        { assert MulAssoc(R, p, a, R.mul(q, b)); }
        R.mul(R.mul(p, a), R.mul(q, b));
      }
    }
  }

  /** (a + b) + (c + d) == (a + c) + (b + d) */
  lemma AddSwap<T(!new)>(R: Ring<T>, a: T, b: T, c: T, d: T)
    requires Laws(R)
    ensures R.add(R.add(a, b), R.add(c, d)) == R.add(R.add(a, c), R.add(b, d))
  {
    assert AddAssoc(R, a, b, R.add(c, d)) && AddAssoc(R, b, c, d);
    assert AddComm(R, b, c) && AddAssoc(R, c, b, d);
    assert AddAssoc(R, a, c, R.add(b, d));
  }

  lemma {:induction false} TimesAdd<T(!new)>(R: Ring<T>, m: nat, n: nat, a: T)
    requires Laws(R)
    ensures Times(R, m + n, a) == R.add(Times(R, m, a), Times(R, n, a))
  {
    if n == 0 {
      assert AddZero(R, Times(R, m, a));
    } else {
      TimesAdd(R, m, n - 1, a);
      assert AddAssoc(R, Times(R, m, a), Times(R, n - 1, a), a);
    }
  }
}
