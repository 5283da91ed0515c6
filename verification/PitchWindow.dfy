/**
 * The transforms of AudioPitchShift for one window: analysis with two channels in one transform, the shift of the
 * spectra, and synthesis.  Silence comes back as silence, and at zero semitones a window comes back as itself under
 * the squared window, which is what PitchShifters and PitchUnity ask of a transform.
 */
module PitchWindows {
  import opened C = ComplexNumbers
  import opened Rings
  import opened Fft
  import opened PitchFft
  import P = PeakRegions
  import S = PitchShifters
  import Reals

  /** The tables and the mathematics library of a shifter. */
  datatype Machine = Machine(channels: nat, hop: nat, window: seq<real>, norm: real, step: nat -> Complex, env: P.Env)

  function Size(m: Machine): nat {
    8 * m.hop
  }

  function Bins(m: Machine): (bins: nat)
    ensures 2 * (bins - 1) == Size(m)
  {
    4 * m.hop + 1
  }

  /** One or two channels, and twiddles on the unit circle, each of which squares to the one of half its length. */
  ghost predicate Sound(m: Machine) {
    && 1 <= m.channels <= 2 && m.hop > 0 && IsPowerOfTwo(Size(m)) && |m.window| == Size(m)
    && TwiddleSteps(ComplexRing(), m.step, Size(m)) && UnitSteps(ComplexRing(), Conjugate(), m.step, Size(m))
    && P.Sound(m.env)
  }

  lemma RingFacts()
    ensures Laws(ComplexRing()) && Conjugation(ComplexRing(), Conjugate())
  {
    ComplexLaws();
    hide Laws, ComplexRing, Conjugate;
    ComplexConjugation();
  }

  // ---------------------------------------------------------------- one window

  /** Windows are transformed from their centre on. */
  function Centred(i: nat, half: nat): (j: nat)
    requires i < 2 * half
    ensures j < 2 * half
  {
    if i < half then i + half else i - half
  }

  lemma CentredTwice(i: nat, half: nat)
    requires i < 2 * half
    ensures Centred(Centred(i, half), half) == i
  {
  }

  function PackedAt(m: Machine, inputs: seq<seq<real>>, i: nat): Complex
    requires S.Shaped(inputs, m.channels, Size(m)) && i < Size(m) == |m.window| && 1 <= m.channels
  {
    Complex(inputs[0][i] * m.window[i], if m.channels > 1 then inputs[1][i] * m.window[i] else 0.0)
  }

  /** The windowed channels as real and imaginary parts. */
  ghost function Packed(m: Machine, inputs: seq<seq<real>>): (z: seq<Complex>)
    requires S.Shaped(inputs, m.channels, Size(m)) && |m.window| == Size(m) && 1 <= m.channels
    ensures |z| == Size(m) && forall j :: 0 <= j < Size(m) ==> z[j] == PackedAt(m, inputs, Centred(j, 4 * m.hop))
  {
    seq(Size(m), j requires 0 <= j < Size(m) => PackedAt(m, inputs, Centred(j, 4 * m.hop)))
  }

  /** fft(), by what it computes. */
  ghost function Transformed(m: Machine, z: seq<Complex>, inverse: bool): (y: seq<Complex>)
    ensures |y| == |z|
  {
    DftOf(ComplexRing(), z, Root(ComplexRing(), Steps(Conjugate(), m.step, inverse), |z|))
  }

  function Mirror(k: nat, n: nat): (j: nat)
    requires k < n
    ensures j < n
  {
    if k == 0 then 0 else n - k
  }

  function LeftBin(a: Complex, b: Complex): Complex {
    Complex(0.5 * (a.re + b.re), 0.5 * (a.im - b.im))
  }

  function RightBin(a: Complex, b: Complex): Complex {
    Complex(0.5 * (a.im + b.im), 0.5 * (b.re - a.re))
  }

  /** The bins of each channel: separated by the symmetry of real signals, or copied. */
  ghost function Spectra(m: Machine, z: seq<Complex>): (xs: seq<seq<Complex>>)
    requires 1 <= m.channels <= 2 && m.hop > 0 && |z| == Size(m)
    ensures |xs| == m.channels && P.AllBins(xs, Bins(m))
    ensures m.channels == 1 ==> xs[0] == z[..Bins(m)]
    ensures m.channels == 2 ==> forall k :: 0 <= k < Bins(m) ==>
                                              && xs[0][k] == LeftBin(z[k], z[Mirror(k, |z|)])
                                              && xs[1][k] == RightBin(z[k], z[Mirror(k, |z|)])
  {
    if m.channels == 1 then [z[..Bins(m)]]
    else [seq(Bins(m), k requires 0 <= k < Bins(m) => LeftBin(z[k], z[Mirror(k, |z|)])),
          seq(Bins(m), k requires 0 <= k < Bins(m) => RightBin(z[k], z[Mirror(k, |z|)]))]
  }

  /** The edge bins of a real signal have no imaginary part, and packing drops what a shift puts there. */
  function Kept(y: Complex, edge: bool): Complex {
    if edge then Complex(y.re, 0.0) else y
  }

  function Lower(l: Complex, r: Complex): Complex {
    Complex(l.re - r.im, l.im + r.re)
  }

  function Upper(l: Complex, r: Complex): Complex {
    Complex(l.re + r.im, r.re - l.im)
  }

  function BinOf(m: Machine, ys: seq<seq<Complex>>, c: nat, k: nat): Complex
    requires P.AllBins(ys, Bins(m)) && k < Bins(m)
  {
    if c < |ys| then Kept(ys[c][k], k == 0 || k == 4 * m.hop) else Complex(0.0, 0.0)
  }

  function RepackedAt(m: Machine, ys: seq<seq<Complex>>, k: nat): Complex
    requires P.AllBins(ys, Bins(m)) && k < Size(m)
  {
    if k < Bins(m) then Lower(BinOf(m, ys, 0, k), BinOf(m, ys, 1, k))
    else Upper(BinOf(m, ys, 0, Size(m) - k), BinOf(m, ys, 1, Size(m) - k))
  }

  ghost function Repacked(m: Machine, ys: seq<seq<Complex>>): (z: seq<Complex>)
    requires P.AllBins(ys, Bins(m))
    ensures |z| == Size(m) && forall k :: 0 <= k < Size(m) ==> z[k] == RepackedAt(m, ys, k)
  {
    seq(Size(m), k requires 0 <= k < Size(m) => RepackedAt(m, ys, k))
  }

  function Scale(m: Machine): real
    requires m.hop > 0
  {
    m.norm / Size(m) as real
  }

  /** What synthesis adds to the accumulator of a channel. */
  function AddedAt(m: Machine, z: seq<Complex>, c: nat, i: nat): real
    requires i < |z| == Size(m) == |m.window| && m.hop > 0
  {
    var y := z[Centred(i, 4 * m.hop)];
    (if c == 0 then y.re else y.im) * (m.window[i] * Scale(m))
  }

  ghost function Contribution(m: Machine, z: seq<Complex>): (xs: seq<seq<real>>)
    requires |z| == Size(m) == |m.window| && m.hop > 0
    ensures S.Shaped(xs, m.channels, Size(m))
    ensures forall c, i :: 0 <= c < m.channels && 0 <= i < Size(m) ==> xs[c][i] == AddedAt(m, z, c, i)
  {
    seq(m.channels, c requires 0 <= c < m.channels =>
      seq(Size(m), i requires 0 <= i < Size(m) => AddedAt(m, z, c, i)))
  }

  // ---------------------------------------------------------------- there and back

  /** Separating two channels and packing them again changes nothing. */
  lemma StereoRepacked(m: Machine, z: seq<Complex>)
    requires m.channels == 2 && m.hop > 0 && |z| == Size(m)
    ensures Repacked(m, Spectra(m, z)) == z
  {
    var xs := Spectra(m, z);
    forall k | 0 <= k < Size(m)
      ensures RepackedAt(m, xs, k) == z[k]
    {
      if k < Bins(m) {
        LowerIs(z[k], z[Mirror(k, Size(m))]);
      } else {
        UpperIs(z[Size(m) - k], z[k]);
      }
    }
  }

  lemma LowerIs(a: Complex, b: Complex)
    ensures Lower(LeftBin(a, b), RightBin(a, b)) == a
    ensures a == b ==> LeftBin(a, b).im == 0.0 && RightBin(a, b).im == 0.0
  {
  }

  lemma UpperIs(a: Complex, b: Complex)
    ensures Upper(LeftBin(a, b), RightBin(a, b)) == b
  {
  }

  ghost predicate Hermitian(z: seq<Complex>) {
    forall k :: 0 <= k < |z| ==> z[Mirror(k, |z|)] == Conj(z[k])
  }

  /** A real channel is restored by the mirrored half of its spectrum. */
  lemma MonoRepacked(m: Machine, z: seq<Complex>)
    requires m.channels == 1 && m.hop > 0 && |z| == Size(m) && Hermitian(z)
    ensures Repacked(m, Spectra(m, z)) == z
  {
    var xs := Spectra(m, z);
    forall k | 0 <= k < Size(m)
      ensures RepackedAt(m, xs, k) == z[k]
    {
      assert z[Mirror(k, Size(m))] == Conj(z[k]);
    }
  }

  lemma {:induction false} ConjSum<T(!new)>(R: Ring<T>, conj: T -> T, z: seq<T>, w: T, k: nat)
    requires Conjugation(R, conj) && conj(R.zero) == R.zero
    requires k <= |z| && forall i :: 0 <= i < |z| ==> conj(z[i]) == z[i]
    ensures conj(PolySum(R, z, w, k)) == PolySum(R, z, conj(w), k)
  {
    if k > 0 {
      ConjSum(R, conj, z, w, k - 1);
      ConjPow(R, conj, w, k - 1);
      var p := Pow(R, w, k - 1);
      assert ConjAdd(R, conj, PolySum(R, z, w, k - 1), R.mul(z[k - 1], p)) && ConjMul(R, conj, z[k - 1], p);
    }
  }

  /** Two inverses of one number are equal. */
  lemma InverseUnique<T(!new)>(R: Ring<T>, a: T, b: T, c: T)
    requires Laws(R) && R.mul(a, c) == R.one && R.mul(c, b) == R.one
    ensures a == b
  {
    assert MulOne(R, a) && MulAssoc(R, a, c, b) && MulComm(R, R.one, b) && MulOne(R, b);
  }

  /** Going back k steps on the circle is going k steps the other way. */
  lemma MirroredPower<T(!new)>(R: Ring<T>, conj: T -> T, step: nat -> T, n: nat, k: nat)
    requires Laws(R) && IsPowerOfTwo(n) && TwiddleSteps(R, step, n) && UnitSteps(R, conj, step, n) && 0 < k < n
    ensures Pow(R, Root(R, step, n), n - k) == Pow(R, conj(Root(R, step, n)), k)
  {
    hide Laws, TwiddleSteps;
    var w := Root(R, step, n);
    RootPowers(R, step, n);
    PowAdd(R, w, n - k, k);
    assert UnitStep(R, conj, step, n);
    PowProduct(R, w, conj(w), k);
    PowOne(R, k);
    InverseUnique(R, Pow(R, w, n - k), Pow(R, conj(w), k), Pow(R, w, k));
  }

  /** The spectrum of a real signal is symmetric. */
  lemma RealSpectrum<T(!new)>(R: Ring<T>, conj: T -> T, step: nat -> T, z: seq<T>, y: seq<T>, k: nat)
    requires Laws(R) && Conjugation(R, conj) && conj(R.zero) == R.zero && IsPowerOfTwo(|z|)
    requires TwiddleSteps(R, step, |z|) && UnitSteps(R, conj, step, |z|)
    requires forall i :: 0 <= i < |z| ==> conj(z[i]) == z[i]
    requires IsDft(R, z, Root(R, step, |z|), y) && k < |z|
    ensures y[Mirror(k, |z|)] == conj(y[k])
  {
    hide Laws, TwiddleSteps, UnitSteps, Root;
    var n, w := |z|, Root(R, step, |z|);
    ConjSum(R, conj, z, Pow(R, w, k), n);
    ConjPow(R, conj, w, k);
    if k > 0 {
      MirroredPower(R, conj, step, n, k);
    }
  }

  /** The inverse of the transform, before its scale. */
  lemma ThereAndBackAt(m: Machine, z: seq<Complex>, j: nat)
    requires Sound(m) && |z| == Size(m) && j < |z|
    ensures Transformed(m, Transformed(m, z, false), true)[j] ==
            Complex(Reals.Mul(Size(m) as real, z[j].re), Reals.Mul(Size(m) as real, z[j].im))
  {
    hide Laws, Conjugation, TwiddleSteps, UnitSteps, P.Sound, ComplexRing, Conjugate, Transformed, IsDft, Times;
    RingFacts();
    var R, X := ComplexRing(), Transformed(m, z, false);
    TransformedIs(m, z);
    TransformedIs(m, X);
    Inverted(R, Conjugate(), m.step, z, X, Transformed(m, X, true));
    TimesIs(Size(m), z[j]);
  }

  lemma TransformedIs(m: Machine, z: seq<Complex>)
    ensures IsDft(ComplexRing(), z, Root(ComplexRing(), m.step, |z|), Transformed(m, z, false))
    ensures IsDft(ComplexRing(), z, Root(ComplexRing(), Conjugated(Conjugate(), m.step), |z|), Transformed(m, z, true))
  {
    hide ComplexRing, Conjugate, PolySum, Pow, Root;
  }

  lemma RealTransform(m: Machine, z: seq<Complex>)
    requires Sound(m) && |z| == Size(m) && forall i :: 0 <= i < |z| ==> z[i].im == 0.0
    ensures Hermitian(Transformed(m, z, false))
  {
    hide Laws, Conjugation, TwiddleSteps, UnitSteps, P.Sound, ComplexRing, Conjugate, Transformed, IsDft, Conj;
    RingFacts();
    ComplexConjugation();
    TransformedIs(m, z);
    var R, y := ComplexRing(), Transformed(m, z, false);
    forall i | 0 <= i < |z|
      ensures Conjugate()(z[i]) == z[i]
    {
      RealConjugate(z[i]);
    }
    forall k | 0 <= k < |z|
      ensures y[Mirror(k, |z|)] == Conj(y[k])
    {
      RealSpectrum(R, Conjugate(), m.step, z, y, k);
      ConjugateIs(y[k]);
    }
  }

  lemma RealConjugate(a: Complex)
    requires a.im == 0.0
    ensures Conjugate()(a) == a
  {
    hide Conjugate;
    ConjugateIs(a);
  }

  lemma {:induction false} TimesIs(n: nat, a: Complex)
    ensures Times(ComplexRing(), n, a) == Complex(Reals.Mul(n as real, a.re), Reals.Mul(n as real, a.im))
  {
    if n > 0 {
      TimesIs(n - 1, a);
      OneMore(n, a.re);
      OneMore(n, a.im);
    }
  }

  lemma OneMore(n: nat, x: real)
    requires n > 0
    ensures n as real * x == (n - 1) as real * x + x
  {
    assert n as real == (n - 1) as real + 1.0;
  }

  /** The gain of a sample that comes back: the window twice, and the overlap gain. */
  ghost function Gain(m: Machine): (g: seq<real>)
    requires |m.window| == Size(m)
    ensures |g| == Size(m) && forall i :: 0 <= i < Size(m) ==> g[i] == m.norm * (m.window[i] * m.window[i])
  {
    seq(Size(m), i requires 0 <= i < Size(m) => m.norm * (m.window[i] * m.window[i]))
  }

  lemma GainIs(m: Machine, i: nat)
    requires i < |m.window| == Size(m)
    ensures Gain(m)[i] == Reals.Mul(m.norm, Reals.Mul(m.window[i], m.window[i]))
  {
  }

  /** Packing the spectra that analysis separated gives back the transform. */
  lemma SpectraRepacked(m: Machine, inputs: seq<seq<real>>)
    requires Sound(m) && S.Shaped(inputs, m.channels, Size(m))
    ensures var Z := Transformed(m, Packed(m, inputs), false); Repacked(m, Spectra(m, Z)) == Z
  {
    hide Transformed, Spectra, Repacked, Hermitian, TwiddleSteps, UnitSteps, P.Sound;
    var z := Packed(m, inputs);
    if m.channels == 2 {
      StereoRepacked(m, Transformed(m, z, false));
    } else {
      RealTransform(m, z);
      MonoRepacked(m, Transformed(m, z, false));
    }
  }

  lemma PackedIs(m: Machine, inputs: seq<seq<real>>, c: nat, i: nat)
    requires 1 <= m.channels <= 2 && m.hop > 0 && |m.window| == Size(m)
    requires S.Shaped(inputs, m.channels, Size(m)) && c < m.channels && i < Size(m)
    ensures var y := Packed(m, inputs)[Centred(i, 4 * m.hop)];
            (if c == 0 then y.re else y.im) == Reals.Mul(inputs[c][i], m.window[i])
  {
    CentredTwice(i, 4 * m.hop);
  }

  /** Analysis and synthesis of a spectrum that is left alone. */
  lemma WindowReturns(m: Machine, inputs: seq<seq<real>>, c: nat, i: nat)
    requires Sound(m) && S.Shaped(inputs, m.channels, Size(m)) && c < m.channels && i < Size(m)
    ensures var Z := Transformed(m, Packed(m, inputs), false);
            AddedAt(m, Transformed(m, Z, true), c, i) == Reals.Mul(Gain(m)[i], inputs[c][i])
  {
    hide Transformed, Packed, TwiddleSteps, UnitSteps, P.Sound, Reals.Mul, Scale, Centred, IsPowerOfTwo, AddedAt, Gain;
    PackedIs(m, inputs, c, i);
    ThereAndBackAt(m, Packed(m, inputs), Centred(i, 4 * m.hop));
    var y := Transformed(m, Transformed(m, Packed(m, inputs), false), true);
    AddedIs(m, y, c, i);
    var j, x, w := Centred(i, 4 * m.hop), inputs[c][i], m.window[i];
    assert (if c == 0 then y[j].re else y[j].im) == Reals.Mul(Size(m) as real, Reals.Mul(x, w));
    ScaledBack(m, x, w);
    GainIs(m, i);
  }

  lemma AddedIs(m: Machine, z: seq<Complex>, c: nat, i: nat)
    requires i < |z| == Size(m) == |m.window| && m.hop > 0
    ensures var y := z[Centred(i, 4 * m.hop)];
            AddedAt(m, z, c, i) == Reals.Mul(if c == 0 then y.re else y.im, Reals.Mul(m.window[i], Scale(m)))
  {
    hide Scale;
  }

  lemma ScaledBack(m: Machine, x: real, w: real)
    requires m.hop > 0
    ensures Reals.Mul(Reals.Mul(Size(m) as real, Reals.Mul(x, w)), Reals.Mul(w, Scale(m))) ==
            Reals.Mul(Reals.Mul(m.norm, Reals.Mul(w, w)), x)
  {
    ScaleIs(m);
    hide Reals.Mul, Scale;
    var n, q := Size(m) as real, Scale(m);
    Reals.MulLaws(n, Reals.Mul(x, w), Reals.Mul(w, q));
    Reals.MulLaws(Reals.Mul(x, w), w, q);
    Reals.MulLaws(x, w, w);
    Reals.MulLaws(x, Reals.Mul(w, w), q);
    Reals.MulLaws(n, Reals.Mul(x, Reals.Mul(w, w)), q);
    Reals.MulLaws(Reals.Mul(x, Reals.Mul(w, w)), q, n);
    Reals.MulLaws(n, Reals.Mul(Reals.Mul(x, Reals.Mul(w, w)), q), 1.0);
    Reals.MulLaws(q, n, 1.0);
    Reals.MulLaws(m.norm, Reals.Mul(w, w), x);
    Reals.MulLaws(x, Reals.Mul(w, w), m.norm);
    Reals.MulLaws(Reals.Mul(x, Reals.Mul(w, w)), m.norm, 1.0);
    Reals.MulLaws(Reals.Mul(w, w), x, 1.0);
  }

  lemma ScaleIs(m: Machine)
    requires m.hop > 0
    ensures Reals.Mul(Scale(m), Size(m) as real) == m.norm
  {
    Reals.QuotientTimes(m.norm, Size(m) as real);
  }
}
