/**
 * The in-place iterative radix-2 transform of audio_analyser_dsp.h.
 *
 * The arithmetic is that of any commutative ring and the twiddle steps are a parameter: all that is used of
 * exp(-2 pi j / len) is that the step of length two is minus one and that squaring a step
 * gives the step of half the length.
 */
module Fft {
  import opened Rings

  predicate IsPowerOfTwo(n: nat) {
    n == 1 || (n > 0 && n % 2 == 0 && IsPowerOfTwo(n / 2))
  }

  // ---------------------------------------------------------------- the discrete Fourier transform

  /** The first m terms of sum x[j] z^j. */
  ghost function PolySum<T>(R: Ring<T>, x: seq<T>, z: T, m: nat): T
    requires m <= |x|
  {
    if m == 0 then R.zero
    else R.add(PolySum(R, x, z, m - 1), R.mul(x[m - 1], Pow(R, z, m - 1)))
  }

  /** y is the transform of x: bin k is the sum of x[j] w^(jk), i.e. the polynomial with coefficients x at w^k. */
  ghost predicate IsDft<T>(R: Ring<T>, x: seq<T>, w: T, y: seq<T>) {
    |y| == |x| && forall k :: 0 <= k < |x| ==> y[k] == PolySum(R, x, Pow(R, w, k), |x|)
  }

  ghost predicate StepHalves<T>(R: Ring<T>, step: nat -> T, m: nat) {
    R.mul(step(2 * m), step(2 * m)) == step(m)
  }

  /** The facts used about the twiddle steps of a transform of length n. */
  ghost predicate TwiddleSteps<T>(R: Ring<T>, step: nat -> T, n: nat) {
    && (n >= 2 ==> step(2) == R.neg(R.one))
    && (forall m: nat :: 2 <= m && 2 * m <= n ==> StepHalves(R, step, m))
  }

  ghost function Root<T>(R: Ring<T>, step: nat -> T, n: nat): T {
    if n <= 1 then R.one else step(n)
  }

  // ---------------------------------------------------------------- splitting into even and odd samples

  ghost function Evens<T>(x: seq<T>): (y: seq<T>)
    ensures |y| == |x| / 2
    ensures forall i :: 0 <= i < |y| ==> y[i] == x[2 * i]
  {
    seq(|x| / 2, i requires 0 <= i < |x| / 2 => x[2 * i])
  }

  ghost function Odds<T>(x: seq<T>): (y: seq<T>)
    ensures |y| == |x| / 2
    ensures forall i :: 0 <= i < |y| ==> y[i] == x[2 * i + 1]
  {
    seq(|x| / 2, i requires 0 <= i < |x| / 2 => x[2 * i + 1])
  }

  lemma PowSquare<T(!new)>(R: Ring<T>, w: T, e: nat)
    requires Laws(R)
    ensures Pow(R, w, 2 * e) == Pow(R, R.mul(w, w), e)
  {
    PowMul(R, w, 2, e);
    assert Pow(R, w, 2) == R.mul(R.mul(R.one, w), w) by {
      assert Pow(R, w, 1) == R.mul(R.one, w);
    }
    assert MulComm(R, R.one, w) && MulOne(R, w);
  }

  /** Regrouping one even and one odd term into the even and odd sums. */
  lemma SplitAlgebra<T(!new)>(R: Ring<T>, e: T, o: T, a: T, b: T, p: T, z: T)
    requires Laws(R)
    ensures R.add(R.add(R.add(e, R.mul(o, z)), R.mul(a, p)), R.mul(b, R.mul(p, z))) ==
            R.add(R.add(e, R.mul(a, p)), R.mul(R.add(o, R.mul(b, p)), z))
  {
    var oz, ap, bpz := R.mul(o, z), R.mul(a, p), R.mul(b, R.mul(p, z));
    assert AddAssoc(R, R.add(e, oz), ap, bpz);
    AddSwap(R, e, oz, ap, bpz);
    assert MulAssoc(R, b, p, z) && Distrib(R, o, R.mul(b, p), z);
  }

  /** The last two terms of a sum over 2l + 2 samples. */
  lemma LastPair<T(!new)>(R: Ring<T>, x: seq<T>, z: T, l: nat)
    requires Laws(R) && 2 * l + 2 <= |x|
    ensures var p := Pow(R, R.mul(z, z), l);
            PolySum(R, x, z, 2 * l + 2) ==
            R.add(R.add(PolySum(R, x, z, 2 * l), R.mul(x[2 * l], p)), R.mul(x[2 * l + 1], R.mul(p, z)))
  {
    PowSquare(R, z, l);
    assert PolySum(R, x, z, 2 * l + 1) == R.add(PolySum(R, x, z, 2 * l), R.mul(x[2 * l], Pow(R, z, 2 * l)));
    assert Pow(R, z, 2 * l + 1) == R.mul(Pow(R, z, 2 * l), z);
  }

  /** A polynomial is its even part at z^2 plus z times its odd part at z^2. */
  lemma {:induction false} SplitSum<T(!new)>(R: Ring<T>, x: seq<T>, e: seq<T>, o: seq<T>, z: T, m: nat)
    requires Laws(R) && 2 * m <= |x| && m <= |e| && m <= |o|
    requires forall i :: 0 <= i < m ==> e[i] == x[2 * i] && o[i] == x[2 * i + 1]
    ensures PolySum(R, x, z, 2 * m) ==
            R.add(PolySum(R, e, R.mul(z, z), m), R.mul(PolySum(R, o, R.mul(z, z), m), z))
  {
    var z2 := R.mul(z, z);
    if m == 0 {
      MulZero(R, z);
      assert AddZero(R, R.zero);
    } else {
      var l := m - 1;
      SplitSum(R, x, e, o, z, l);
      LastPair(R, x, z, l);
      SplitAlgebra(R, PolySum(R, e, z2, l), PolySum(R, o, z2, l), e[l], o[l], Pow(R, z2, l), z);
    }
  }

  /** The half-length power of a root is minus one, and its full power one. */
  lemma {:induction false} RootPowers<T(!new)>(R: Ring<T>, step: nat -> T, n: nat)
    requires Laws(R) && IsPowerOfTwo(n) && TwiddleSteps(R, step, n)
    ensures n >= 2 ==> Pow(R, Root(R, step, n), n / 2) == R.neg(R.one)
    ensures n >= 2 ==> R.mul(Root(R, step, n), Root(R, step, n)) == Root(R, step, n / 2)
    ensures Pow(R, Root(R, step, n), n) == R.one
  {
    var w := Root(R, step, n);
    if n == 1 {
      PowOne(R, 1);
    } else {
      var m := n / 2;
      RootPowers(R, step, m);
      if m == 1 {
        assert Pow(R, w, 1) == R.mul(R.one, w);
        assert MulComm(R, R.one, w) && MulOne(R, w);
        MulNeg(R, R.one, w);
        NegNeg(R, R.one);
      } else {
        assert StepHalves(R, step, m);
        PowSquare(R, w, m / 2);
      }
      PowSquare(R, w, m);
    }
  }

  /** The sums of the first k pairs of a butterfly. */
  ghost function Sums<T>(R: Ring<T>, w: T, l: seq<T>, r: seq<T>, k: nat): (y: seq<T>)
    requires |l| == |r| && k <= |l|
    ensures |y| == k
  {
    if k == 0 then [] else Sums(R, w, l, r, k - 1) + [R.add(l[k - 1], R.mul(r[k - 1], Pow(R, w, k - 1)))]
  }

  /** And their differences. */
  ghost function Differences<T>(R: Ring<T>, w: T, l: seq<T>, r: seq<T>, k: nat): (y: seq<T>)
    requires |l| == |r| && k <= |l|
    ensures |y| == k
  {
    if k == 0 then [] else Differences(R, w, l, r, k - 1) + [Sub(R, l[k - 1], R.mul(r[k - 1], Pow(R, w, k - 1)))]
  }

  ghost function Butterfly<T>(R: Ring<T>, w: T, l: seq<T>, r: seq<T>): (y: seq<T>)
    requires |l| == |r|
    ensures |y| == 2 * |l|
  {
    Sums(R, w, l, r, |l|) + Differences(R, w, l, r, |l|)
  }

  lemma {:induction false} SumsAt<T>(R: Ring<T>, w: T, l: seq<T>, r: seq<T>, n: nat, k: nat)
    requires |l| == |r| && k < n <= |l|
    ensures Sums(R, w, l, r, n)[k] == R.add(l[k], R.mul(r[k], Pow(R, w, k)))
    ensures Differences(R, w, l, r, n)[k] == Sub(R, l[k], R.mul(r[k], Pow(R, w, k)))
  {
    if k < n - 1 {
      SumsAt(R, w, l, r, n - 1, k);
    }
  }

  /** The points of the upper half of the spectrum are the negatives of those of the lower half. */
  lemma UpperPoint<T(!new)>(R: Ring<T>, step: nat -> T, n: nat, t: nat)
    requires Laws(R) && n >= 2 && IsPowerOfTwo(n) && TwiddleSteps(R, step, n)
    ensures Pow(R, Root(R, step, n), t + n / 2) == R.neg(Pow(R, Root(R, step, n), t))
  {
    var w := Root(R, step, n);
    var z := Pow(R, w, t);
    RootPowers(R, step, n);
    PowAdd(R, w, t, n / 2);
    assert MulComm(R, z, R.neg(R.one)) && MulComm(R, R.one, z) && MulOne(R, z);
    MulNeg(R, R.one, z);
  }

  lemma NegSquare<T(!new)>(R: Ring<T>, z: T)
    requires Laws(R)
    ensures R.mul(R.neg(z), R.neg(z)) == R.mul(z, z)
  {
    MulNeg(R, z, R.neg(z));
    assert MulComm(R, z, R.neg(z));
    MulNeg(R, z, z);
    NegNeg(R, R.mul(z, z));
  }

  /** Both values that one butterfly computes, at a point and at its negative. */
  lemma ButterflyPoints<T(!new)>(R: Ring<T>, x: seq<T>, z: T, m: nat)
    requires Laws(R) && 2 * m <= |x|
    ensures var e, oz := PolySum(R, Evens(x), R.mul(z, z), m), R.mul(PolySum(R, Odds(x), R.mul(z, z), m), z);
            && PolySum(R, x, z, 2 * m) == R.add(e, oz)
            && PolySum(R, x, R.neg(z), 2 * m) == Sub(R, e, oz)
  {
    var o := PolySum(R, Odds(x), R.mul(z, z), m);
    SplitSum(R, x, Evens(x), Odds(x), z, m);
    SplitSum(R, x, Evens(x), Odds(x), R.neg(z), m);
    NegSquare(R, z);
    assert MulComm(R, o, R.neg(z)) && MulComm(R, o, z);
    MulNeg(R, z, o);
  }

  lemma DftBins<T(!new)>(R: Ring<T>, step: nat -> T, x: seq<T>, t: nat)
    requires Laws(R) && |x| >= 2 && IsPowerOfTwo(|x|) && TwiddleSteps(R, step, |x|) && t < |x| / 2
    ensures var w, h, m := Root(R, step, |x|), Root(R, step, |x| / 2), |x| / 2;
            var e, o := PolySum(R, Evens(x), Pow(R, h, t), m), PolySum(R, Odds(x), Pow(R, h, t), m);
            && PolySum(R, x, Pow(R, w, t), |x|) == R.add(e, R.mul(o, Pow(R, w, t)))
            && PolySum(R, x, Pow(R, w, t + m), |x|) == Sub(R, e, R.mul(o, Pow(R, w, t)))
  {
    var n, m := |x|, |x| / 2;
    var w := Root(R, step, n);
    RootPowers(R, step, n);
    UpperPoint(R, step, n, t);
    ButterflyPoints(R, x, Pow(R, w, t), m);
    PowProduct(R, w, w, t);
  }

  lemma ButterflyAt<T>(R: Ring<T>, w: T, l: seq<T>, r: seq<T>, k: nat)
    requires |l| == |r| && k < |l|
    ensures Butterfly(R, w, l, r)[k] == R.add(l[k], R.mul(r[k], Pow(R, w, k)))
    ensures Butterfly(R, w, l, r)[k + |l|] == Sub(R, l[k], R.mul(r[k], Pow(R, w, k)))
  {
    SumsAt(R, w, l, r, |l|, k);
  }

  /** The two bins that pair t of the last butterfly computes. */
  lemma DftButterflyAt<T(!new)>(R: Ring<T>, step: nat -> T, x: seq<T>, e: seq<T>, o: seq<T>, t: nat)
    requires Laws(R) && |x| >= 2 && IsPowerOfTwo(|x|) && TwiddleSteps(R, step, |x|)
    requires t < |x| / 2 == |e| == |o|
    requires e[t] == PolySum(R, Evens(x), Pow(R, Root(R, step, |x| / 2), t), |x| / 2)
    requires o[t] == PolySum(R, Odds(x), Pow(R, Root(R, step, |x| / 2), t), |x| / 2)
    ensures var w, y := Root(R, step, |x|), Butterfly(R, Root(R, step, |x|), e, o);
            && y[t] == PolySum(R, x, Pow(R, w, t), |x|)
            && y[t + |e|] == PolySum(R, x, Pow(R, w, t + |e|), |x|)
  {
    DftBins(R, step, x, t);
    ButterflyAt(R, Root(R, step, |x|), e, o, t);
  }

  /** The transform of a sequence is the butterfly of the transforms of its halves. */
  lemma DftButterfly<T(!new)>(R: Ring<T>, step: nat -> T, x: seq<T>, e: seq<T>, o: seq<T>)
    requires Laws(R) && |x| >= 2 && IsPowerOfTwo(|x|) && TwiddleSteps(R, step, |x|)
    requires IsDft(R, Evens(x), Root(R, step, |x| / 2), e) && IsDft(R, Odds(x), Root(R, step, |x| / 2), o)
    ensures IsDft(R, x, Root(R, step, |x|), Butterfly(R, Root(R, step, |x|), e, o))
  {
    hide Laws, TwiddleSteps, Root, PolySum, Pow;
    var m := |x| / 2;
    forall k | 0 <= k < |x|
      ensures Butterfly(R, Root(R, step, |x|), e, o)[k] == PolySum(R, x, Pow(R, Root(R, step, |x|), k), |x|)
    {
      DftButterflyAt(R, step, x, e, o, if k < m then k else k - m);
    }
  }

  // ---------------------------------------------------------------- bit reversal

  /** The index whose binary digits, for length n, are those of i in the opposite order. */
  function RevIndex(n: nat, i: nat): (r: nat)
    requires IsPowerOfTwo(n) && i < n
    ensures r < n
  {
    if n == 1 then 0 else (i % 2) * (n / 2) + RevIndex(n / 2, i / 2)
  }

  lemma {:induction false} RevIndexHigh(n: nat, i: nat)
    requires IsPowerOfTwo(n) && i < n && n >= 2
    ensures RevIndex(n, i) ==
            if i < n / 2 then 2 * RevIndex(n / 2, i) else 2 * RevIndex(n / 2, i - n / 2) + 1
  {
    var m := n / 2;
    if m == 1 {
      assert RevIndex(m, i / 2) == 0;
    } else {
      RevIndexHigh(m, i / 2);
      var t := if i < m then i else i - m;
      HighDigit(n, i, t);
    }
  }

  /** Without its highest digit, a number keeps its lowest one, and its half its own. */
  lemma HighDigit(n: nat, i: nat, t: nat)
    requires IsPowerOfTwo(n) && n >= 4 && i < n && t == if i < n / 2 then i else i - n / 2
    ensures t % 2 == i % 2 && t / 2 == if i / 2 < n / 2 / 2 then i / 2 else i / 2 - n / 2 / 2
    ensures 2 * ((i % 2) * (n / 2 / 2)) == (i % 2) * (n / 2) && (i / 2 < n / 2 / 2 <==> i < n / 2)
  {
    var m := n / 2;
    assert m == 2 * (m / 2);
    if i % 2 == 0 {
    } else {
      assert (i % 2) * m == m;
    }
  }

  lemma {:induction false} RevIndexInvolution(n: nat, i: nat)
    requires IsPowerOfTwo(n) && i < n
    ensures RevIndex(n, RevIndex(n, i)) == i
  {
    if n == 1 {
    } else {
      var r := RevIndex(n / 2, i / 2);
      RevIndexInvolution(n / 2, i / 2);
      assert (i % 2) * (n / 2) == if i % 2 == 0 then 0 else n / 2;
      RevIndexHigh(n, RevIndex(n, i));
    }
  }

  /** The sequence in bit-reversed order: even samples first, recursively. */
  ghost function BitReversed<T>(x: seq<T>): (y: seq<T>)
    requires IsPowerOfTwo(|x|)
    ensures |y| == |x|
    decreases |x|
  {
    if |x| == 1 then x else BitReversed(Evens(x)) + BitReversed(Odds(x))
  }

  lemma {:induction false} BitReversedAt<T>(x: seq<T>, i: nat)
    requires IsPowerOfTwo(|x|) && i < |x|
    ensures BitReversed(x)[i] == x[RevIndex(|x|, i)]
    decreases |x|
  {
    if |x| == 1 {
    } else {
      var m := |x| / 2;
      RevIndexHigh(|x|, i);
      if i < m {
        BitReversedAt(Evens(x), i);
      } else {
        BitReversedAt(Odds(x), i - m);
      }
    }
  }

  /** What the carry loop computes: add one to a number whose most significant digit, worth `bit`, carries downwards. */
  function ReverseCarry(j: nat, bit: nat): nat
  {
    if bit == 0 then j
    else if j >= bit then ReverseCarry(j - bit, bit / 2)
    else j + bit
  }

  lemma {:induction false} ReverseCarryNext(n: nat, i: nat)
    requires IsPowerOfTwo(n) && i + 1 < n
    ensures ReverseCarry(RevIndex(n, i), n / 2) == RevIndex(n, i + 1)
  {
    var m := n / 2;
    var r := RevIndex(m, i / 2);
    if i % 2 == 0 {
      assert (i + 1) / 2 == i / 2;
      assert RevIndex(n, i) == 0 * m + r;
      assert RevIndex(n, i + 1) == 1 * m + r;
    } else {
      assert (i + 1) / 2 == i / 2 + 1;
      assert RevIndex(n, i) == 1 * m + r;
      assert RevIndex(n, i + 1) == 0 * m + RevIndex(m, i / 2 + 1);
      ReverseCarryNext(m, i / 2);
    }
  }

  /** `j & bit`, for a bit that is zero or a power of two. */
  predicate Masked(j: nat, bit: nat) {
    bit > 0 && (j / bit) % 2 == 1
  }

  /** `j ^ bit`, for a bit that is zero or a power of two. */
  function Toggled(j: nat, bit: nat): nat {
    if Masked(j, bit) then j - bit * ((j / bit) % 2) else j + bit
  }

  lemma TopDigit(j: nat, bit: nat)
    requires bit > 0 && j < 2 * bit
    ensures Masked(j, bit) <==> j >= bit
    ensures Toggled(j, bit) == if j >= bit then j - bit else j + bit
  {
    if j >= bit {
      assert j == 1 * bit + (j - bit);
      assert j / bit == 1;
    }
  }

  /** One turn of the carry loop. */
  lemma CarryTurn(j: nat, bit: nat)
    requires IsPowerOfTwo(bit) && j < 2 * bit && Masked(j, bit)
    ensures ReverseCarry(Toggled(j, bit), bit / 2) == ReverseCarry(j, bit)
    ensures bit / 2 > 0 ==> IsPowerOfTwo(bit / 2) && Toggled(j, bit) < 2 * (bit / 2)
  {
    TopDigit(j, bit);
  }

  /** The order of the stored samples once every index below i has met its partner. */
  ghost predicate SwappedBelow<T>(x: seq<T>, y: seq<T>, i: nat)
    requires IsPowerOfTwo(|x|)
  {
    |y| == |x| &&
    forall k :: 0 <= k < |x| ==> y[k] == if k < i || RevIndex(|x|, k) < i then x[RevIndex(|x|, k)] else x[k]
  }

  lemma {:induction false} RevIndexZero(n: nat)
    requires IsPowerOfTwo(n)
    ensures RevIndex(n, 0) == 0
  {
    if n == 1 {
    } else {
      RevIndexZero(n / 2);
    }
  }

  lemma SwapStart<T>(x: seq<T>)
    requires IsPowerOfTwo(|x|)
    ensures RevIndex(|x|, 0) == 0 && SwappedBelow(x, x, 1)
  {
    RevIndexZero(|x|);
    forall k | 0 <= k < |x|
      ensures RevIndex(|x|, k) == 0 ==> k == 0
    {
      RevIndexInvolution(|x|, k);
    }
  }

  lemma SwapTurn<T>(x: seq<T>, y: seq<T>, i: nat)
    requires IsPowerOfTwo(|x|) && i < |x| && SwappedBelow(x, y, i)
    ensures var j := RevIndex(|x|, i);
            SwappedBelow(x, if i < j then y[i := y[j]][j := y[i]] else y, i + 1)
  {
    var n, j := |x|, RevIndex(|x|, i);
    RevIndexInvolution(n, i);
    forall k | 0 <= k < n
      ensures RevIndex(n, k) == i ==> k == j
    {
      RevIndexInvolution(n, k);
    }
  }

  lemma SwappedAll<T>(x: seq<T>, y: seq<T>)
    requires IsPowerOfTwo(|x|) && SwappedBelow(x, y, |x|)
    ensures y == BitReversed(x)
  {
    forall k | 0 <= k < |x|
      ensures y[k] == BitReversed(x)[k]
    {
      BitReversedAt(x, k);
    }
  }

  /** The carry loop: the reversal of i from the reversal of i - 1. */
  method NextReversed(n: nat, i: nat, previous: nat) returns (j: nat)
    requires IsPowerOfTwo(n) && 0 < i < n
    requires previous == RevIndex(n, i - 1)
    ensures j == RevIndex(n, i)
  {
    j := previous;
    var bit: nat := n / 2;
    ReverseCarryNext(n, i - 1);
    while Masked(j, bit)
      invariant ReverseCarry(j, bit) == RevIndex(n, i)
      invariant bit > 0 ==> IsPowerOfTwo(bit) && j < 2 * bit
      decreases bit
    {
      CarryTurn(j, bit);
      j := Toggled(j, bit);
      bit := bit / 2;
    }
    if bit > 0 { TopDigit(j, bit); }
    j := Toggled(j, bit);
  }

  method BitReverse<T>(data: array<T>)
    requires IsPowerOfTwo(data.Length)
    modifies data
    ensures data[..] == BitReversed(old(data[..]))
  {
    var n := data.Length;
    ghost var x := data[..];
    var i: nat, j: nat := 1, 0;
    SwapStart(x);
    while i < n
      invariant 1 <= i <= n
      invariant j == RevIndex(n, i - 1)
      invariant SwappedBelow(x, data[..], i)
    {
      j := NextReversed(n, i, j);
      SwapTurn(x, data[..], i);
      if i < j {
        data[i], data[j] := data[j], data[i];
      }
      i := i + 1;
    }
    SwappedAll(x, data[..]);
  }

  // ---------------------------------------------------------------- the butterfly stages

  /** The transform of a block of stored samples, which are in bit-reversed order. */
  ghost function Combined<T>(R: Ring<T>, step: nat -> T, s: seq<T>): (y: seq<T>)
    ensures |y| == |s|
    decreases |s|
  {
    if |s| == 0 || |s| % 2 == 1 then s
    else Butterfly(R, step(|s|), Combined(R, step, s[..|s| / 2]), Combined(R, step, s[|s| / 2..]))
  }

  lemma {:induction false} CombinedIsDft<T(!new)>(R: Ring<T>, step: nat -> T, x: seq<T>)
    requires Laws(R) && IsPowerOfTwo(|x|) && TwiddleSteps(R, step, |x|)
    ensures IsDft(R, x, Root(R, step, |x|), Combined(R, step, BitReversed(x)))
    decreases |x|
  {
    if |x| == 1 {
      assert PolySum(R, x, R.one, 1) == R.add(R.zero, R.mul(x[0], R.one));
      assert MulOne(R, x[0]) && AddComm(R, R.zero, x[0]) && AddZero(R, x[0]);
    } else {
      var e, o := BitReversed(Evens(x)), BitReversed(Odds(x));
      assert BitReversed(x)[..|x| / 2] == e && BitReversed(x)[|x| / 2..] == o;
      CombinedIsDft(R, step, Evens(x));
      CombinedIsDft(R, step, Odds(x));
      DftButterfly(R, step, x, Combined(R, step, e), Combined(R, step, o));
    }
  }

  ghost predicate KeepsOne<T>(f: seq<T> -> seq<T>, x: T) {
    f([x]) == [x]
  }

  ghost predicate JoinsAt<T>(R: Ring<T>, step: nat -> T, f: seq<T> -> seq<T>, l: seq<T>, r: seq<T>) {
    |f(l)| == |l| && |f(r)| == |r| && |l| == |r| && f(l + r) == Butterfly(R, step(2 * |l|), f(l), f(r))
  }

  /** A function that transforms blocks: it keeps single samples and joins neighbours with a butterfly. */
  ghost predicate BlockTransform<T(!new)>(R: Ring<T>, step: nat -> T, f: seq<T> -> seq<T>) {
    && (forall x :: KeepsOne(f, x))
    && (forall l, r {:trigger JoinsAt(R, step, f, l, r)} :: 0 < |l| == |r| ==> JoinsAt(R, step, f, l, r))
  }

  /** Every block of h samples between two positions holds f of the samples stored there at the start. */
  ghost predicate Blocks<T>(f: seq<T> -> seq<T>, s: seq<T>, now: seq<T>, h: nat, lo: nat, hi: nat)
    requires lo <= hi <= |s| == |now|
    decreases hi - lo
  {
    lo == hi ||
    (0 < h && lo + h <= hi && now[lo..lo + h] == f(s[lo..lo + h]) &&
     Blocks(f, s, now, h, lo + h, hi))
  }

  ghost predicate AllBlocks<T>(f: seq<T> -> seq<T>, s: seq<T>, now: seq<T>, h: nat)
    requires |s| == |now|
  {
    Blocks(f, s, now, h, 0, |s|)
  }

  lemma {:induction false} BlocksOfOne<T(!new)>(f: seq<T> -> seq<T>, s: seq<T>, lo: nat)
    requires lo <= |s| && forall x :: KeepsOne(f, x)
    ensures Blocks(f, s, s, 1, lo, |s|)
    decreases |s| - lo
  {
    if lo == |s| {
    } else {
      assert KeepsOne(f, s[lo]) && s[lo..lo + 1] == [s[lo]];
      BlocksOfOne(f, s, lo + 1);
    }
  }

  lemma SubSlices<T>(a: seq<T>, b: seq<T>, lo: nat, mid: nat, hi: nat)
    requires lo <= mid <= hi <= |a| == |b| && a[lo..hi] == b[lo..hi]
    ensures a[lo..mid] == b[lo..mid] && a[mid..hi] == b[mid..hi]
  {
    assert a[lo..mid] == a[lo..hi][..mid - lo] && b[lo..mid] == b[lo..hi][..mid - lo];
    assert a[mid..hi] == a[lo..hi][mid - lo..] && b[mid..hi] == b[lo..hi][mid - lo..];
  }

  /** Writes outside a range leave its blocks alone. */
  lemma {:induction false} BlocksFrame<T>(f: seq<T> -> seq<T>, s: seq<T>, now: seq<T>, next: seq<T>, h: nat,
                                          lo: nat, hi: nat)
    requires lo <= hi <= |s| == |now| == |next|
    requires now[lo..hi] == next[lo..hi]
    requires Blocks(f, s, now, h, lo, hi)
    ensures Blocks(f, s, next, h, lo, hi)
    decreases hi - lo
  {
    if lo == hi {
    } else {
      SubSlices(now, next, lo, lo + h, hi);
      BlocksFrame(f, s, now, next, h, lo + h, hi);
    }
  }

  /** One more block at the end of a range. */
  lemma {:induction false} BlocksExtend<T>(f: seq<T> -> seq<T>, s: seq<T>, now: seq<T>, h: nat, lo: nat, hi: nat)
    requires 0 < h && lo <= hi && hi + h <= |s| == |now|
    requires Blocks(f, s, now, h, lo, hi)
    requires now[hi..hi + h] == f(s[hi..hi + h])
    ensures Blocks(f, s, now, h, lo, hi + h)
    decreases hi - lo
  {
    if lo == hi {
      assert Blocks(f, s, now, h, hi + h, hi + h);
    } else {
      BlocksExtend(f, s, now, h, lo + h, hi);
    }
  }

  lemma CombinedTransforms<T(!new)>(R: Ring<T>, step: nat -> T)
    ensures BlockTransform(R, step, (s: seq<T>) => Combined(R, step, s))
  {
    var f := (s: seq<T>) => Combined(R, step, s);
    forall l: seq<T>, r: seq<T> | 0 < |l| == |r|
      ensures JoinsAt(R, step, f, l, r)
    {
      assert (l + r)[..|l|] == l && (l + r)[|l|..] == r;
    }
  }

  // ---------------------------------------------------------------- the loops

  /** The state of a butterfly between the two blocks at i, of which the first k pairs hold their results y. */
  ghost predicate PairsDone<T>(y: seq<T>, i: nat, half: nat, before: seq<T>, now: seq<T>, k: nat)
    requires |y| == 2 * half && k <= half && i + 2 * half <= |before|
  {
    |now| == |before| &&
    forall t :: 0 <= t < |before| ==>
      now[t] == if i <= t < i + k || i + half <= t < i + half + k then y[t - i] else before[t]
  }

  lemma PairsStart<T>(y: seq<T>, i: nat, half: nat, before: seq<T>)
    requires |y| == 2 * half && i + 2 * half <= |before|
    ensures PairsDone(y, i, half, before, before, 0)
  {
  }

  lemma PairsEnd<T>(y: seq<T>, i: nat, half: nat, before: seq<T>, now: seq<T>)
    requires |y| == 2 * half && i + 2 * half <= |before|
    requires PairsDone(y, i, half, before, now, half)
    ensures now[..i] == before[..i] && now[i + 2 * half..] == before[i + 2 * half..] && now[i..i + 2 * half] == y
  {
  }

  lemma PairTurn<T>(y: seq<T>, i: nat, half: nat, before: seq<T>, now: seq<T>, k: nat)
    requires |y| == 2 * half && k < half && i + 2 * half <= |before|
    requires PairsDone(y, i, half, before, now, k)
    ensures now[i + k] == before[i + k] && now[i + k + half] == before[i + k + half]
    ensures PairsDone(y, i, half, before, now[i + k := y[k]][i + k + half := y[k + half]], k + 1)
  {
  }

  /** What one turn of the innermost loop stores, in terms of the blocks it started from. */
  lemma PairValues<T>(R: Ring<T>, step: T, l: seq<T>, r: seq<T>, before: seq<T>, i: nat, k: nat)
    requires |l| == |r| && k < |l| && i + 2 * |l| <= |before|
    requires before[i..i + |l|] == l && before[i + |l|..i + 2 * |l|] == r
    ensures before[i + k] == l[k] && before[i + k + |l|] == r[k]
    ensures Butterfly(R, step, l, r)[k] == R.add(l[k], R.mul(r[k], Pow(R, step, k)))
    ensures Butterfly(R, step, l, r)[k + |l|] == Sub(R, l[k], R.mul(r[k], Pow(R, step, k)))
  {
    ButterflyAt(R, step, l, r, k);
    assert before[i..i + |l|][k] == before[i + k];
    assert before[i + |l|..i + 2 * |l|][k] == before[i + |l| + k];
  }

  lemma SliceOfSlice<T>(data: array<T>, i: nat, len: nat)
    requires i + len <= data.Length
    ensures data[..][..i] == data[..i] && data[..][i + len..] == data[i + len..]
    ensures data[..][i..i + len] == data[i..i + len]
  {
  }

  /** One turn of the innermost loop, on the samples a and b. */
  method ButterflyPair<T>(R: Ring<T>, w: T, data: array<T>, a: nat, b: nat)
    requires a < b < data.Length
    modifies data
    ensures data[..] == old(data[..])[a := R.add(old(data[a]), R.mul(old(data[b]), w))]
                                     [b := Sub(R, old(data[a]), R.mul(old(data[b]), w))]
  {
    var u := data[a];
    var v := R.mul(data[b], w);
    data[a] := R.add(u, v);
    data[b] := Sub(R, u, v);
  }

  method PairStep<T(!new)>(R: Ring<T>, step: T, w: T, data: array<T>, i: nat, half: nat, k: nat, ghost l: seq<T>,
                           ghost r: seq<T>, ghost before: seq<T>)
    requires |l| == half == |r| && k < half && i + 2 * half <= |before| == data.Length && w == Pow(R, step, k)
    requires before[i..i + half] == l && before[i + half..i + 2 * half] == r
    requires PairsDone(Butterfly(R, step, l, r), i, half, before, data[..], k)
    modifies data
    ensures PairsDone(Butterfly(R, step, l, r), i, half, before, data[..], k + 1)
  {
    hide PairsDone, Butterfly;
    PairTurn(Butterfly(R, step, l, r), i, half, before, data[..], k);
    PairValues(R, step, l, r, before, i, k);
    ButterflyPair(R, w, data, i + k, i + k + half);
  }

  /** The innermost loop: one butterfly between the blocks of `half` samples at i. */
  method ButterflyBlock<T(!new)>(R: Ring<T>, step: T, data: array<T>, i: nat, half: nat, len: nat,
                                 ghost l: seq<T>, ghost r: seq<T>)
    requires len == 2 * half && i + len <= data.Length
    requires |l| == half == |r|
    requires data[i..i + half] == l && data[i + half..i + len] == r
    modifies data
    ensures data[..i] == old(data[..i]) && data[i + len..] == old(data[i + len..])
    ensures data[i..i + len] == Butterfly(R, step, l, r)
  {
    ghost var before := data[..];
    ghost var y := Butterfly(R, step, l, r);
    assert before[i..i + half] == l && before[i + half..i + len] == r;
    hide PairsDone;
    PairsStart(y, i, half, before);
    var w := R.one;
    for k := 0 to half
      invariant w == Pow(R, step, k)
      invariant PairsDone(y, i, half, before, data[..], k)
    {
      PairStep(R, step, w, data, i, half, k, l, r, before);
      w := R.mul(w, step);
    }
    PairsEnd(y, i, half, before, data[..]);
    SliceOfSlice(data, i, len);
  }

  /** The blocks that the next butterfly meets. */
  lemma PassBefore<T>(f: seq<T> -> seq<T>, s: seq<T>, now: seq<T>, half: nat, len: nat, i: nat)
    requires 0 < half && len == 2 * half && i + len <= |s| == |now|
    requires Blocks(f, s, now, half, i, |s|)
    ensures now[i..i + half] == f(s[i..i + half])
    ensures now[i + half..i + len] == f(s[i + half..i + len])
    ensures Blocks(f, s, now, half, i + len, |s|)
  {
    assert Blocks(f, s, now, half, i + half, |s|);
    assert i + half + half == i + len;
  }

  /** The joined blocks after that butterfly. */
  lemma PassAfterLow<T(!new)>(R: Ring<T>, step: nat -> T, f: seq<T> -> seq<T>, s: seq<T>, now: seq<T>, next: seq<T>,
                              half: nat, len: nat, i: nat)
    requires BlockTransform(R, step, f)
    requires 0 < half && len == 2 * half && i + len <= |s| == |now| == |next|
    requires |f(s[i..i + half])| == half == |f(s[i + half..i + len])|
    requires Blocks(f, s, now, len, 0, i)
    requires next[..i] == now[..i]
    requires next[i..i + len] ==
             Butterfly(R, step(len), f(s[i..i + half]), f(s[i + half..i + len]))
    ensures Blocks(f, s, next, len, 0, i + len)
  {
    assert now[0..i] == next[0..i];
    BlocksFrame(f, s, now, next, len, 0, i);
    var a, b := s[i..i + half], s[i + half..i + len];
    assert s[i..i + len] == a + b && JoinsAt(R, step, f, a, b);
    BlocksExtend(f, s, next, len, 0, i);
  }

  /** The remaining blocks after it. */
  lemma PassAfterHigh<T>(f: seq<T> -> seq<T>, s: seq<T>, now: seq<T>, next: seq<T>, half: nat, j: nat)
    requires j <= |s| == |now| == |next|
    requires Blocks(f, s, now, half, j, |s|) && next[j..] == now[j..]
    ensures Blocks(f, s, next, half, j, |s|)
  {
    assert now[j..|s|] == next[j..|s|];
    BlocksFrame(f, s, now, next, half, j, |s|);
  }

  lemma MulMonotone(a: nat, b: int, c: int)
    requires b <= c
    ensures a * b <= a * c
  {
    assert a * (c - b) >= 0;
  }

  ghost predicate Multiple(d: nat, len: nat) {
    d == 0 || (0 < len <= d && Multiple(d - len, len))
  }

  /** Before i every block of `len` samples is done, and from i on every block of half that. */
  ghost predicate Passing<T>(f: seq<T> -> seq<T>, s: seq<T>, now: seq<T>, half: nat, len: nat, i: nat)
    requires |s| == |now|
  {
    i <= |s| && Multiple(|s| - i, len) && Blocks(f, s, now, len, 0, i) && Blocks(f, s, now, half, i, |s|)
  }

  lemma PassingEnds<T>(f: seq<T> -> seq<T>, s: seq<T>, now: seq<T>, half: nat, len: nat, i: nat)
    requires |s| == |now|
    ensures i == 0 && Multiple(|s|, len) && AllBlocks(f, s, now, half) ==> Passing(f, s, now, half, len, i)
    ensures Passing(f, s, now, half, len, i) && i >= |s| ==> AllBlocks(f, s, now, len)
    ensures Passing(f, s, now, half, len, i) && i < |s| ==> 0 < len && i + len <= |s|
  {
  }

  lemma PassingNext<T>(f: seq<T> -> seq<T>, s: seq<T>, half: nat, len: nat, i: nat)
    requires i < |s| && 0 < len && Multiple(|s| - i, len)
    ensures i + len <= |s| && Multiple(|s| - (i + len), len)
  {
  }

  /** One pass over the data: every pair of blocks of `half` samples joined. */
  method Pass<T(!new)>(R: Ring<T>, step: nat -> T, data: array<T>, half: nat, len: nat, ghost s: seq<T>,
                       ghost f: seq<T> -> seq<T>)
    requires BlockTransform(R, step, f)
    requires 0 < half && len == 2 * half
    requires data.Length == |s| && Multiple(data.Length, len)
    requires AllBlocks(f, s, data[..], half)
    modifies data
    ensures AllBlocks(f, s, data[..], len)
  {
    hide BlockTransform, AllBlocks, Multiple, Passing;
    var i: nat := 0;
    PassingEnds(f, s, data[..], half, len, i);
    while i < data.Length
      invariant Passing(f, s, data[..], half, len, i)
    {
      PassingEnds(f, s, data[..], half, len, i);
      PassStep(R, step, data, i, half, len, s, f);
      i := i + len;
    }
    PassingEnds(f, s, data[..], half, len, i);
  }

  /** The body of the middle loop. */
  method PassStep<T(!new)>(R: Ring<T>, step: nat -> T, data: array<T>, i: nat, half: nat, len: nat, ghost s: seq<T>,
                       ghost f: seq<T> -> seq<T>)
    requires BlockTransform(R, step, f)
    requires 0 < half && len == 2 * half && i + len <= |s| == data.Length
    requires Passing(f, s, data[..], half, len, i)
    modifies data
    ensures Passing(f, s, data[..], half, len, i + len)
  {
    PassingNext(f, s, half, len, i);
    ghost var now := data[..];
    ghost var l, r := f(s[i..i + half]), f(s[i + half..i + len]);
    assert JoinsAt(R, step, f, s[i..i + half], s[i + half..i + len]);
    PassBefore(f, s, now, half, len, i);
    assert now[i..i + half] == data[i..i + half] && now[i + half..i + len] == data[i + half..i + len];
    ButterflyBlock(R, step(len), data, i, half, len, l, r);
    ghost var next := data[..];
    assert next[..i] == now[..i] && next[i + len..] == now[i + len..] && next[i..i + len] == data[i..i + len];
    PassAfterLow(R, step, f, s, now, next, half, len, i);
    PassAfterHigh(f, s, now, next, half, i + len);
  }

  /**
   * The transform in place: bit reversal, then butterfly passes of doubling length.  The result is the discrete Fourier
   * transform of the original samples at the root of the full length.
   */
  method AnalyserFft<T(!new)>(R: Ring<T>, step: nat -> T, data: array<T>)
    requires Laws(R) && IsPowerOfTwo(data.Length) && TwiddleSteps(R, step, data.Length)
    modifies data
    ensures IsDft(R, old(data[..]), Root(R, step, data.Length), data[..])
  {
    hide Laws, IsDft, TwiddleSteps, Root, BlockTransform, AllBlocks;
    ghost var x := data[..];
    BitReverse(data);
    ghost var f := (s: seq<T>) => Combined(R, step, s);
    CombinedBegins(R, step, data[..]);
    Passes(R, step, data, f);
    CombinedIsDft(R, step, x);
  }

  /** The outer loop: passes of doubling length, until one block is the whole array. */
  method Passes<T(!new)>(R: Ring<T>, step: nat -> T, data: array<T>, ghost f: seq<T> -> seq<T>)
    requires BlockTransform(R, step, f) && IsPowerOfTwo(data.Length) && AllBlocks(f, data[..], data[..], 1)
    modifies data
    ensures data[..] == f(old(data[..]))
  {
    hide Multiple, BlockTransform, AllBlocks;
    ghost var s := data[..];
    var n, len := data.Length, 2;
    ghost var half: nat, rest: nat := 1, n;
    while len <= n
      invariant 0 < half && len == 2 * half && IsPowerOfTwo(rest) && n == half * rest
      invariant AllBlocks(f, s, data[..], half)
      decreases n - len
    {
      StageSplit(half, rest);
      ProductMultiple(2 * half, rest / 2);
      Pass(R, step, data, len / 2, len, s, f);
      half, rest := len, rest / 2;
      len := len * 2;
    }
    StageEnd(half, rest);
    BlocksWhole(f, s, data[..]);
  }

  lemma CombinedBegins<T(!new)>(R: Ring<T>, step: nat -> T, s: seq<T>)
    ensures var f := (s: seq<T>) => Combined(R, step, s);
            BlockTransform(R, step, f) && AllBlocks(f, s, s, 1)
  {
    hide JoinsAt;
    CombinedTransforms(R, step);
    BlocksOfOne((s: seq<T>) => Combined(R, step, s), s, 0);
  }

  lemma BlocksWhole<T>(f: seq<T> -> seq<T>, s: seq<T>, now: seq<T>)
    requires 0 < |s| == |now| && AllBlocks(f, s, now, |s|)
    ensures now == f(s)
  {
    assert now[0..|s|] == now && s[0..|s|] == s;
  }

  lemma Regroup(a: nat, b: nat)
    ensures a * (2 * b) == (2 * a) * b
  {
  }

  lemma {:induction false} ProductMultiple(a: nat, b: nat)
    requires a > 0
    ensures Multiple(a * b, a)
  {
    if b == 0 {
    } else {
      ProductMultiple(a, b - 1);
      assert a * b == a * (b - 1) + a;
      MulMonotone(a, 0, b - 1);
    }
  }

  /** With more than one block left, the blocks pair up. */
  lemma StageSplit(half: nat, rest: nat)
    requires 0 < half && IsPowerOfTwo(rest) && 2 * half <= half * rest
    ensures rest % 2 == 0 && IsPowerOfTwo(rest / 2) && half * rest == (2 * half) * (rest / 2)
  {
    if rest == 1 {
      assert false;
    }
    Regroup(half, rest / 2);
  }

  lemma StageEnd(half: nat, rest: nat)
    requires 0 < half && IsPowerOfTwo(rest) && 2 * half > half * rest
    ensures rest == 1 && half * rest == half
  {
    if rest >= 2 {
      MulMonotone(half, 2, rest);
    }
  }
}
