/** Complex numbers with exact real parts: the ring that the transforms of the audio code run over. */
module ComplexNumbers {
  import opened Rings
  import opened PitchFft

  datatype Complex = Complex(re: real, im: real)

  function Add(a: Complex, b: Complex): Complex {
    Complex(a.re + b.re, a.im + b.im)
  }

  function Neg(a: Complex): Complex {
    Complex(-a.re, -a.im)
  }

  function Mul(a: Complex, b: Complex): Complex {
    Complex(a.re * b.re - a.im * b.im, a.re * b.im + a.im * b.re)
  }

  function Conj(a: Complex): Complex {
    Complex(a.re, -a.im)
  }

  function ComplexRing(): Ring<Complex> {
    Ring(Complex(0.0, 0.0), Complex(1.0, 0.0), (a, b) => Add(a, b), a => Neg(a), (a, b) => Mul(a, b))
  }

  lemma ProductDistributes(a: real, b: real, c: real)
    ensures (a + b) * c == a * c + b * c && c * (a + b) == c * a + c * b
    ensures (a - b) * c == a * c - b * c && c * (a - b) == c * a - c * b
  {
  }

  lemma MulAssociates(a: Complex, b: Complex, c: Complex)
    ensures Mul(Mul(a, b), c) == Mul(a, Mul(b, c))
  {
    ProductDistributes(a.re * b.re, a.im * b.im, c.re);
    ProductDistributes(a.re * b.im, a.im * b.re, c.im);
    ProductDistributes(a.re * b.re, a.im * b.im, c.im);
    ProductDistributes(a.re * b.im, a.im * b.re, c.re);
    ProductDistributes(b.re * c.re, b.im * c.im, a.re);
    ProductDistributes(b.re * c.im, b.im * c.re, a.im);
    ProductDistributes(b.re * c.im, b.im * c.re, a.re);
    ProductDistributes(b.re * c.re, b.im * c.im, a.im);
    ProductAssociates(a.re, b.re, c.re); ProductAssociates(a.im, b.im, c.re);
    ProductAssociates(a.re, b.im, c.im); ProductAssociates(a.im, b.re, c.im);
    ProductAssociates(a.re, b.re, c.im); ProductAssociates(a.im, b.im, c.im);
    ProductAssociates(a.re, b.im, c.re); ProductAssociates(a.im, b.re, c.re);
  }

  lemma ProductAssociates(a: real, b: real, c: real)
    ensures (a * b) * c == a * (b * c)
  {
  }

  /** So every theorem of the transforms holds of complex samples. */
  lemma ComplexLaws()
    ensures Laws(ComplexRing())
  {
    var R := ComplexRing();
    forall a, b, c
      ensures MulAssoc(R, a, b, c)
    {
      MulAssociates(a, b, c);
    }
    forall a, b, c
      ensures Distrib(R, a, b, c)
    {
      ProductDistributes(a.re, b.re, c.re); ProductDistributes(a.im, b.im, c.im);
      ProductDistributes(a.re, b.re, c.im); ProductDistributes(a.im, b.im, c.re);
    }
  }

  lemma ConjMultiplies(a: Complex, b: Complex)
    ensures Conj(Mul(a, b)) == Mul(Conj(a), Conj(b))
  {
    assert (-a.im) * (-b.im) == a.im * b.im;
    assert a.re * (-b.im) == -(a.re * b.im) && (-a.im) * b.re == -(a.im * b.re);
  }

  function Conjugate(): Complex -> Complex {
    (c: Complex) => Conj(c)
  }

  lemma ConjugationAt(a: Complex, b: Complex)
    ensures ConjAdd(ComplexRing(), Conjugate(), a, b) && ConjMul(ComplexRing(), Conjugate(), a, b)
  {
    hide Mul;
    ConjMultiplies(a, b);
  }

  lemma RingEnds()
    ensures ComplexRing().one == Complex(1.0, 0.0) && ComplexRing().zero == Complex(0.0, 0.0)
  {
  }

  lemma ConjugateIs(a: Complex)
    ensures Conjugate()(a) == Conj(a)
  {
  }

  lemma ConjugationEnds()
    ensures Conjugate()(ComplexRing().one) == ComplexRing().one && Conjugate()(ComplexRing().zero) == ComplexRing().zero
  {
    hide ComplexRing, Conjugate;
    RingEnds();
    ConjugateIs(Complex(1.0, 0.0));
    ConjugateIs(Complex(0.0, 0.0));
  }

  /** Conjugation keeps one, sums and products, which is what the inverse transform needs of it. */
  lemma ComplexConjugation()
    ensures Conjugation(ComplexRing(), Conjugate())
    ensures Conjugate()(ComplexRing().zero) == ComplexRing().zero
  {
    hide ConjAdd, ConjMul, ComplexRing, Conjugate;
    ConjugationEnds();
    forall a: Complex, b: Complex
      ensures ConjAdd(ComplexRing(), Conjugate(), a, b) && ConjMul(ComplexRing(), Conjugate(), a, b)
    {
      ConjugationAt(a, b);
    }
  }

  /** And it inverts every number of unit modulus, as the twiddles are. */
  lemma UnitModulus(a: Complex)
    requires a.re * a.re + a.im * a.im == 1.0
    ensures Mul(a, Conj(a)) == Complex(1.0, 0.0)
  {
    assert a.im * (-a.im) == -(a.im * a.im) && a.re * (-a.im) == -(a.im * a.re);
  }
}
