/**
 * Why one transform serves two channels in AudioPitchShift: whatever the spectra, the packed inverse transform keeps
 * the left channel in its real and the right one in its imaginary part, as if each had been transformed alone.
 */
module PitchStereos {
  import opened C = ComplexNumbers
  import opened Rings
  import opened Fft
  import opened PitchFft
  import opened PitchWindows
  import P = PeakRegions

  // ---------------------------------------------------------------- the transform of a symmetric spectrum

  /** Term j of a transform at the point v. */
  ghost function Term<T>(R: Ring<T>, z: seq<T>, v: T, j: nat): T
    requires j < |z|
  {
    R.mul(z[j], Pow(R, v, j))
  }

  /** The last k terms, from the end. */
  ghost function Backwards<T>(R: Ring<T>, z: seq<T>, v: T, k: nat): T
    requires k <= |z|
  {
    if k == 0 then R.zero else R.add(Backwards(R, z, v, k - 1), Term(R, z, v, |z| - k))
  }

  lemma {:induction false} ForwardsAndBackwards<T(!new)>(R: Ring<T>, z: seq<T>, v: T, k: nat)
    requires Laws(R) && k <= |z|
    ensures R.add(PolySum(R, z, v, |z| - k), Backwards(R, z, v, k)) == PolySum(R, z, v, |z|)
  {
    if k == 0 {
      assert AddZero(R, PolySum(R, z, v, |z|));
    } else {
      ForwardsAndBackwards(R, z, v, k - 1);
      var a, b, t := PolySum(R, z, v, |z| - k), Backwards(R, z, v, k - 1), Term(R, z, v, |z| - k);
      assert PolySum(R, z, v, |z| - k + 1) == R.add(a, t);
      assert AddAssoc(R, a, t, b) && AddComm(R, t, b);
    }
  }

  /** The conjugate of every term is the term at its mirror. */
  ghost predicate TermsMirrored<T>(R: Ring<T>, conj: T -> T, z: seq<T>, v: T) {
    forall j :: 0 <= j < |z| ==> conj(Term(R, z, v, j)) == Term(R, z, v, Mirror(j, |z|))
  }

  lemma {:induction false} ConjugateSum<T(!new)>(R: Ring<T>, conj: T -> T, z: seq<T>, v: T, k: nat)
    requires Laws(R) && Conjugation(R, conj) && conj(R.zero) == R.zero && TermsMirrored(R, conj, z, v) && k < |z|
    ensures conj(PolySum(R, z, v, k + 1)) == R.add(PolySum(R, z, v, 1), Backwards(R, z, v, k))
  {
    hide Term;
    NextTerm(R, z, v, k);
    var s, t := PolySum(R, z, v, k), Term(R, z, v, k);
    assert ConjAdd(R, conj, s, t);
    if k == 0 {
      assert AddZero(R, PolySum(R, z, v, 1));
      assert conj(t) == Term(R, z, v, 0);
    } else {
      ConjugateSum(R, conj, z, v, k - 1);
      assert conj(t) == Term(R, z, v, |z| - k);
      assert AddAssoc(R, PolySum(R, z, v, 1), Backwards(R, z, v, k - 1), conj(t));
    }
  }

  lemma NextTerm<T>(R: Ring<T>, z: seq<T>, v: T, k: nat)
    requires k < |z|
    ensures PolySum(R, z, v, k + 1) == R.add(PolySum(R, z, v, k), Term(R, z, v, k))
  {
  }

  /** Summed over the whole circle, terms that mirror each other are their own conjugate. */
  lemma SumIsReal<T(!new)>(R: Ring<T>, conj: T -> T, z: seq<T>, v: T)
    requires Laws(R) && Conjugation(R, conj) && conj(R.zero) == R.zero && TermsMirrored(R, conj, z, v) && |z| > 0
    ensures conj(PolySum(R, z, v, |z|)) == PolySum(R, z, v, |z|)
  {
    ConjugateSum(R, conj, z, v, |z| - 1);
    ForwardsAndBackwards(R, z, v, |z| - 1);
  }

  /** On the circle, the conjugate of a power is the power at the mirror. */
  lemma PowersMirror<T(!new)>(R: Ring<T>, conj: T -> T, v: T, n: nat, j: nat)
    requires Laws(R) && Conjugation(R, conj) && R.mul(v, conj(v)) == R.one && Pow(R, v, n) == R.one && j < n
    ensures conj(Pow(R, v, j)) == Pow(R, v, Mirror(j, n))
  {
    hide Laws;
    ConjPow(R, conj, v, j);
    if j > 0 {
      PowAdd(R, v, n - j, j);
      PowProduct(R, v, conj(v), j);
      PowOne(R, j);
      InverseUnique(R, Pow(R, v, n - j), Pow(R, conj(v), j), Pow(R, v, j));
    }
  }

  lemma TermsMirror<T(!new)>(R: Ring<T>, conj: T -> T, z: seq<T>, v: T)
    requires Laws(R) && Conjugation(R, conj) && R.mul(v, conj(v)) == R.one && Pow(R, v, |z|) == R.one
    requires forall j :: 0 <= j < |z| ==> conj(z[j]) == z[Mirror(j, |z|)]
    ensures TermsMirrored(R, conj, z, v)
  {
    hide Laws;
    forall j | 0 <= j < |z|
      ensures conj(Term(R, z, v, j)) == Term(R, z, v, Mirror(j, |z|))
    {
      PowersMirror(R, conj, v, |z|, j);
      assert ConjMul(R, conj, z[j], Pow(R, v, j));
    }
  }

  /** Every point of the inverse transform is on the circle. */
  lemma PointOnCircle<T(!new)>(R: Ring<T>, conj: T -> T, w: T, n: nat, k: nat)
    requires Laws(R) && Conjugation(R, conj) && R.mul(w, conj(w)) == R.one && Pow(R, w, n) == R.one
    ensures var v := Pow(R, w, k); R.mul(v, conj(v)) == R.one && Pow(R, v, n) == R.one
  {
    hide Laws;
    ConjPow(R, conj, w, k);
    PowProduct(R, w, conj(w), k);
    PowOne(R, k);
    PowMul(R, w, k, n);
    PowMul(R, w, n, k);
    assert k * n == n * k;
  }

  /** The inverse transform of a symmetric spectrum is real. */
  lemma SymmetricIsReal(m: Machine, z: seq<Complex>, k: nat)
    requires Sound(m) && |z| == Size(m) && Hermitian(z) && k < |z|
    ensures Transformed(m, z, true)[k].im == 0.0
  {
    hide Laws, Conjugation, TwiddleSteps, UnitSteps, P.Sound, ComplexRing, Conjugate, Transformed, Conj, PolySum;
    RingFacts();
    ComplexConjugation();
    TransformedIs(m, z);
    var R, n, w := ComplexRing(), |z|, Root(ComplexRing(), Conjugated(Conjugate(), m.step), |z|);
    InverseRoot(m, n);
    PointOnCircle(R, Conjugate(), w, n, k);
    forall j | 0 <= j < n
      ensures Conjugate()(z[j]) == z[Mirror(j, n)]
    {
      ConjugateIs(z[j]);
    }
    TermsMirror(R, Conjugate(), z, Pow(R, w, k));
    SumIsReal(R, Conjugate(), z, Pow(R, w, k));
    ConjugateIs(Transformed(m, z, true)[k]);
    OwnConjugate(Transformed(m, z, true)[k]);
  }

  lemma OwnConjugate(a: Complex)
    ensures Conj(a) == a ==> a.im == 0.0
  {
  }

  /** The root of the inverse transform has unit modulus, and n turns of it are a whole one. */
  lemma InverseRoot(m: Machine, n: nat)
    requires Sound(m) && n == Size(m)
    ensures var R, w := ComplexRing(), Root(ComplexRing(), Conjugated(Conjugate(), m.step), n);
            R.mul(w, Conjugate()(w)) == R.one && Pow(R, w, n) == R.one
  {
    hide Laws, Conjugation, TwiddleSteps, P.Sound, ComplexRing, Conjugate, Conj;
    RingFacts();
    var R, s := ComplexRing(), m.step(n);
    ConjugatedSteps(R, Conjugate(), m.step, n);
    RootPowers(R, Conjugated(Conjugate(), m.step), n);
    assert UnitStep(R, Conjugate(), m.step, n);
    ConjugateTwice(s);
    CommutesOne(R, s, Conjugate()(s));
  }

  lemma ConjugateTwice(a: Complex)
    ensures Conjugate()(Conjugate()(a)) == a
  {
    hide Conjugate;
    ConjugateIs(a);
    ConjugateIs(Conj(a));
  }

  lemma CommutesOne<T(!new)>(R: Ring<T>, a: T, b: T)
    requires Laws(R) && R.mul(a, b) == R.one
    ensures R.mul(b, a) == R.one
  {
    assert MulComm(R, a, b);
  }

  // ---------------------------------------------------------------- two channels in one

  /** z is a + c b, sample by sample. */
  ghost predicate Combines<T>(R: Ring<T>, z: seq<T>, a: seq<T>, b: seq<T>, c: T) {
    |z| == |a| == |b| && forall j :: 0 <= j < |z| ==> z[j] == R.add(a[j], R.mul(c, b[j]))
  }

  lemma {:induction false} SumCombines<T(!new)>(R: Ring<T>, z: seq<T>, a: seq<T>, b: seq<T>, c: T, v: T, k: nat)
    requires Laws(R) && Combines(R, z, a, b, c) && k <= |z|
    ensures PolySum(R, z, v, k) == R.add(PolySum(R, a, v, k), R.mul(c, PolySum(R, b, v, k)))
  {
    hide Laws;
    if k == 0 {
      NoTerms(R, c);
    } else {
      SumCombines(R, z, a, b, c, v, k - 1);
      TermCombines(R, PolySum(R, a, v, k - 1), PolySum(R, b, v, k - 1), a[k - 1], b[k - 1], c, Pow(R, v, k - 1));
    }
  }

  lemma NoTerms<T(!new)>(R: Ring<T>, c: T)
    requires Laws(R)
    ensures R.add(R.zero, R.mul(c, R.zero)) == R.zero
  {
    MulZero(R, c);
    assert AddZero(R, R.zero);
  }

  lemma TermCombines<T(!new)>(R: Ring<T>, s: T, t: T, a: T, b: T, c: T, p: T)
    requires Laws(R)
    ensures R.add(R.add(s, R.mul(c, t)), R.mul(R.add(a, R.mul(c, b)), p)) ==
            R.add(R.add(s, R.mul(a, p)), R.mul(c, R.add(t, R.mul(b, p))))
  {
    var ct, ap, bp := R.mul(c, t), R.mul(a, p), R.mul(b, p);
    var cbp := R.mul(c, bp);
    assert Distrib(R, a, R.mul(c, b), p) && MulAssoc(R, c, b, p);
    assert MulComm(R, c, R.add(t, bp)) && Distrib(R, t, bp, c) && MulComm(R, t, c) && MulComm(R, bp, c);
    assert AddAssoc(R, s, ct, R.add(ap, cbp)) && AddAssoc(R, ct, ap, cbp) && AddComm(R, ct, ap);
    assert AddAssoc(R, ap, ct, cbp) && AddAssoc(R, s, ap, R.add(ct, cbp));
  }

  const I := Complex(0.0, 1.0)

  /** Packing two spectra is packing each alone, the right one turned by a right angle; each alone is symmetric. */
  lemma PackedCombines(m: Machine, left: seq<Complex>, right: seq<Complex>)
    requires m.hop > 0 && |left| == |right| == Bins(m)
    ensures Combines(ComplexRing(), Repacked(m, [left, right]), Repacked(m, [left]), Repacked(m, [right]), I)
    ensures Hermitian(Repacked(m, [left])) && Hermitian(Repacked(m, [right]))
  {
    AloneSymmetric(m, left);
    AloneSymmetric(m, right);
    hide Kept;
    var z, a, b := Repacked(m, [left, right]), Repacked(m, [left]), Repacked(m, [right]);
    forall k | 0 <= k < Size(m)
      ensures z[k] == ComplexRing().add(a[k], ComplexRing().mul(I, b[k]))
    {
      RightAngle(a[k], b[k]);
    }
  }

  lemma RightAngle(a: Complex, b: Complex)
    ensures ComplexRing().add(a, ComplexRing().mul(I, b)) == Complex(a.re - b.im, a.im + b.re)
  {
  }

  lemma AloneSymmetric(m: Machine, y: seq<Complex>)
    requires m.hop > 0 && |y| == Bins(m)
    ensures Hermitian(Repacked(m, [y]))
  {
    var z := Repacked(m, [y]);
    forall k | 0 <= k < Size(m)
      ensures z[Mirror(k, Size(m))] == Conj(z[k])
    {
    }
  }

  /** One transform for both channels: its real part is what the left one gives alone, its imaginary part the right. */
  lemma ChannelsSeparate(m: Machine, left: seq<Complex>, right: seq<Complex>, k: nat)
    requires Sound(m) && |left| == |right| == Bins(m) && k < Size(m)
    ensures var both := Transformed(m, Repacked(m, [left, right]), true)[k];
            && both.re == Transformed(m, Repacked(m, [left]), true)[k].re
            && both.im == Transformed(m, Repacked(m, [right]), true)[k].re
  {
    hide Laws, Conjugation, TwiddleSteps, UnitSteps, P.Sound, ComplexRing, Conjugate, Transformed, Repacked, Hermitian,
         Combines, PolySum, IsPowerOfTwo;
    RingFacts();
    var z, a, b := Repacked(m, [left, right]), Repacked(m, [left]), Repacked(m, [right]);
    PackedCombines(m, left, right);
    SymmetricIsReal(m, a, k);
    SymmetricIsReal(m, b, k);
    TransformedIs(m, z);
    TransformedIs(m, a);
    TransformedIs(m, b);
    var w := Root(ComplexRing(), Conjugated(Conjugate(), m.step), Size(m));
    SumCombines(ComplexRing(), z, a, b, I, Pow(ComplexRing(), w, k), Size(m));
    RightAngle(Transformed(m, a, true)[k], Transformed(m, b, true)[k]);
  }
}
