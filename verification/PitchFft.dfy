/**
 * The table-driven transform of audio_pitchshift_dsp.h in both directions, and the round trip of the two.
 *
 * The inverse direction uses the conjugates of the tabulated twiddles.  What is used of conjugation is that it
 * preserves sums and products and inverts every twiddle step.
 */
module PitchFft {
  import opened Rings
  import opened Fft

  ghost predicate ConjAdd<T>(R: Ring<T>, conj: T -> T, a: T, b: T) {
    conj(R.add(a, b)) == R.add(conj(a), conj(b))
  }

  ghost predicate ConjMul<T>(R: Ring<T>, conj: T -> T, a: T, b: T) {
    conj(R.mul(a, b)) == R.mul(conj(a), conj(b))
  }

  ghost predicate Conjugation<T(!new)>(R: Ring<T>, conj: T -> T) {
    && conj(R.one) == R.one
    && (forall a, b :: ConjAdd(R, conj, a, b))
    && (forall a, b :: ConjMul(R, conj, a, b))
  }

  /** The conjugate of the step of a length is its inverse. */
  ghost predicate UnitStep<T>(R: Ring<T>, conj: T -> T, step: nat -> T, len: nat) {
    R.mul(step(len), conj(step(len))) == R.one
  }

  ghost function Conjugated<T>(conj: T -> T, step: nat -> T): nat -> T {
    (len: nat) => conj(step(len))
  }

  lemma {:induction false} ConjPow<T(!new)>(R: Ring<T>, conj: T -> T, a: T, k: nat)
    requires Conjugation(R, conj)
    ensures conj(Pow(R, a, k)) == Pow(R, conj(a), k)
  {
    if k == 0 {
    } else {
      ConjPow(R, conj, a, k - 1);
      assert ConjMul(R, conj, Pow(R, a, k - 1), a);
    }
  }

  lemma ConjNegOne<T(!new)>(R: Ring<T>, conj: T -> T)
    requires Laws(R) && Conjugation(R, conj)
    ensures conj(R.neg(R.one)) == R.neg(R.one)
  {
    var one, z := R.one, conj(R.zero);
    assert z == R.zero by {
      assert ConjAdd(R, conj, R.zero, R.zero) && AddZero(R, R.zero);
      assert AddZero(R, z) && AddComm(R, R.zero, z);
      AddCancel(R, z, R.zero, z);
    }
    assert ConjAdd(R, conj, one, R.neg(one)) && AddNeg(R, one);
    assert AddComm(R, one, conj(R.neg(one))) && AddComm(R, one, R.neg(one));
    AddCancel(R, conj(R.neg(one)), R.neg(one), one);
  }

  /** Conjugated steps are twiddle steps too, so the inverse direction is a transform in its own right. */
  lemma ConjugatedSteps<T(!new)>(R: Ring<T>, conj: T -> T, step: nat -> T, n: nat)
    requires Laws(R) && Conjugation(R, conj) && TwiddleSteps(R, step, n)
    ensures TwiddleSteps(R, Conjugated(conj, step), n)
  {
    ConjNegOne(R, conj);
    forall m: nat | 2 <= m && 2 * m <= n
      ensures StepHalves(R, Conjugated(conj, step), m)
    {
      assert StepHalves(R, step, m) && ConjMul(R, conj, step(2 * m), step(2 * m));
    }
  }

  // ---------------------------------------------------------------- the tables

  /** Reverse holds the bit-reversed indices; Twiddles holds, from entry half - 1, the powers of the step of 2 half. */
  datatype PitchTables<T> = PitchTables(size: nat, twiddles: seq<T>, reverse: seq<nat>)

  ghost predicate ReverseTable<T>(tables: PitchTables<T>) {
    && IsPowerOfTwo(tables.size)
    && |tables.reverse| == tables.size
    && forall i :: 0 <= i < tables.size ==> tables.reverse[i] == RevIndex(tables.size, i)
  }

  ghost predicate StageTable<T>(R: Ring<T>, tables: PitchTables<T>, step: nat -> T, half: nat)
    requires half > 0
  {
    && 2 * half - 1 <= |tables.twiddles|
    && forall k :: 0 <= k < half ==> tables.twiddles[half - 1 + k] == Pow(R, step(2 * half), k)
  }

  ghost predicate TwiddleTable<T>(R: Ring<T>, tables: PitchTables<T>, step: nat -> T) {
    forall half: nat :: half > 0 && IsPowerOfTwo(half) && 2 * half <= tables.size ==> StageTable(R, tables, step, half)
  }

  /** The steps of one direction. */
  ghost function Steps<T>(conj: T -> T, step: nat -> T, inverse: bool): nat -> T {
    if inverse then Conjugated(conj, step) else step
  }

  /** The permutation table: each entry collects the binary digits of its index from the other end. */
  method BuildReverse(n: nat) returns (reverse: seq<nat>)
    requires IsPowerOfTwo(n)
    ensures |reverse| == n && forall i :: 0 <= i < n ==> reverse[i] == RevIndex(n, i)
  {
    reverse := [];
    for i := 0 to n
      invariant |reverse| == i && forall k :: 0 <= k < i ==> reverse[k] == RevIndex(n, k)
    {
      var r: nat, rest: nat, len: nat := 0, i, n;
      while len > 1
        invariant IsPowerOfTwo(len) && rest < len && r + RevIndex(len, rest) == RevIndex(n, i)
      {
        if rest % 2 == 1 {
          r := r + len / 2;
        }
        rest, len := rest / 2, len / 2;
      }
      reverse := reverse + [r];
    }
  }

  /** The permutation loop. */
  method Permute<T>(tables: PitchTables<T>, data: array<T>)
    requires ReverseTable(tables) && data.Length == tables.size
    modifies data
    ensures data[..] == BitReversed(old(data[..]))
  {
    var n := tables.size;
    ghost var x := data[..];
    assert SwappedBelow(x, x, 0);
    for i := 0 to n
      invariant SwappedBelow(x, data[..], i)
    {
      var j := tables.reverse[i];
      SwapTurn(x, data[..], i);
      if i < j {
        data[i], data[j] := data[j], data[i];
      }
    }
    SwappedAll(x, data[..]);
  }

  /** The twiddle of pair k in the stage of 2 half samples. */
  method TableTwiddle<T(!new)>(R: Ring<T>, tables: PitchTables<T>, conj: T -> T, ghost step: nat -> T, inverse: bool,
                               half: nat, k: nat) returns (w: T)
    requires Conjugation(R, conj)
    requires half > 0 && StageTable(R, tables, step, half) && k < half
    ensures w == Pow(R, Steps(conj, step, inverse)(2 * half), k)
  {
    var entry := tables.twiddles[half - 1 + k];
    ConjPow(R, conj, step(2 * half), k);
    w := if inverse then conj(entry) else entry;
  }

  /** The innermost loop, with the twiddles of its stage read from the table and conjugated for the inverse. */
  method TableBlock<T(!new)>(R: Ring<T>, tables: PitchTables<T>, conj: T -> T, ghost step: nat -> T, inverse: bool,
                             data: array<T>, i: nat, half: nat, len: nat, ghost l: seq<T>, ghost r: seq<T>)
    requires Conjugation(R, conj)
    requires half > 0 && StageTable(R, tables, step, half)
    requires len == 2 * half && i + len <= data.Length
    requires |l| == half == |r|
    requires data[i..i + half] == l && data[i + half..i + len] == r
    modifies data
    ensures data[..i] == old(data[..i]) && data[i + len..] == old(data[i + len..])
    ensures data[i..i + len] == Butterfly(R, Steps(conj, step, inverse)(len), l, r)
  {
    ghost var before := data[..];
    ghost var root := Steps(conj, step, inverse)(len);
    ghost var y := Butterfly(R, root, l, r);
    assert before[i..i + half] == l && before[i + half..i + len] == r;
    for k := 0 to half
      invariant PairsDone(y, i, half, before, data[..], k)
    {
      ghost var now := data[..];
      PairTurn(y, i, half, before, now, k);
      PairValues(R, root, l, r, before, i, k);
      var w := TableTwiddle(R, tables, conj, step, inverse, half, k);
      var v := R.mul(data[i + k + half], w);
      var u := data[i + k];
      data[i + k] := R.add(u, v);
      data[i + k + half] := Sub(R, u, v);
      assert data[..] == now[i + k := y[k]][i + k + half := y[k + half]];
    }
    ghost var after := data[..];
    PairsEnd(y, i, half, before, after);
    assert after[..i] == data[..i] && after[i + len..] == data[i + len..];
    assert after[i..i + len] == data[i..i + len];
  }

  method TablePassStep<T(!new)>(R: Ring<T>, tables: PitchTables<T>, conj: T -> T, ghost step: nat -> T, inverse: bool,
                                data: array<T>, i: nat, half: nat, len: nat, ghost s: seq<T>, ghost st: nat -> T,
                            ghost f: seq<T> -> seq<T>)
    requires Conjugation(R, conj) && half > 0 && StageTable(R, tables, step, half) && st == Steps(conj, step, inverse)
    requires len == 2 * half && i + len <= |s| == data.Length && BlockTransform(R, st, f)
    requires Passing(f, s, data[..], half, len, i)
    modifies data
    ensures Passing(f, s, data[..], half, len, i + len)
  {
    PassingNext(f, s, half, len, i);
    ghost var now := data[..];
    ghost var l, r := f(s[i..i + half]), f(s[i + half..i + len]);
    assert JoinsAt(R, st, f, s[i..i + half], s[i + half..i + len]);
    PassBefore(f, s, now, half, len, i);
    assert now[i..i + half] == data[i..i + half] && now[i + half..i + len] == data[i + half..i + len];
    TableBlock(R, tables, conj, step, inverse, data, i, half, len, l, r);
    ghost var next := data[..];
    assert next[..i] == now[..i] && next[i + len..] == now[i + len..] && next[i..i + len] == data[i..i + len];
    PassAfterLow(R, st, f, s, now, next, half, len, i);
    PassAfterHigh(f, s, now, next, half, i + len);
  }

  method TablePass<T(!new)>(R: Ring<T>, tables: PitchTables<T>, conj: T -> T, ghost step: nat -> T, inverse: bool,
                            data: array<T>, half: nat, len: nat, ghost s: seq<T>, ghost st: nat -> T,
                            ghost f: seq<T> -> seq<T>)
    requires Conjugation(R, conj) && half > 0 && StageTable(R, tables, step, half) && st == Steps(conj, step, inverse)
    requires len == 2 * half && BlockTransform(R, st, f)
    requires data.Length == |s| && Multiple(data.Length, len)
    requires AllBlocks(f, s, data[..], half)
    modifies data
    ensures AllBlocks(f, s, data[..], len)
  {
    hide BlockTransform, Conjugation, StageTable, Steps, AllBlocks, Multiple, Passing;
    var i: nat := 0;
    PassingEnds(f, s, data[..], half, len, i);
    while i < data.Length
      invariant Passing(f, s, data[..], half, len, i)
    {
      PassingEnds(f, s, data[..], half, len, i);
      TablePassStep(R, tables, conj, step, inverse, data, i, half, len, s, st, f);
      i := i + len;
    }
    PassingEnds(f, s, data[..], half, len, i);
  }

  /** The transform of `Size` samples in place, or with Inverse the unscaled transform at the conjugate root. */
  method TableFft<T(!new)>(R: Ring<T>, tables: PitchTables<T>, conj: T -> T, ghost step: nat -> T, inverse: bool,
                           data: array<T>)
    requires Laws(R) && Conjugation(R, conj) && TwiddleSteps(R, step, tables.size)
    requires ReverseTable(tables) && TwiddleTable(R, tables, step) && data.Length == tables.size
    modifies data
    ensures IsDft(R, old(data[..]), Root(R, Steps(conj, step, inverse), data.Length), data[..])
  {
    ghost var x, st := data[..], Steps(conj, step, inverse);
    Permute(tables, data);
    ghost var s := data[..];
    var n, len := tables.size, 2;
    ghost var half: nat, rest: nat := 1, n;
    ghost var f := (s: seq<T>) => Combined(R, st, s);
    CombinedBegins(R, st, s);
    while len <= n
      invariant half > 0 && len == 2 * half && IsPowerOfTwo(half) && IsPowerOfTwo(rest) && n == half * rest
      invariant AllBlocks(f, s, data[..], half)
      decreases rest
    {
      StageSplit(half, rest);
      PowerOfTwoDoubles(half);
      ProductMultiple(2 * half, rest / 2);
      assert StageTable(R, tables, step, half);
      TablePass(R, tables, conj, step, inverse, data, len / 2, len, s, st, f);
      half, rest := len, rest / 2;
      len := len * 2;
    }
    StageEnd(half, rest);
    BlocksWhole(f, s, data[..]);
    ConjugatedSteps(R, conj, step, n);
    CombinedIsDft(R, st, x);
  }

  lemma PowerOfTwoDoubles(n: nat)
    requires IsPowerOfTwo(n)
    ensures IsPowerOfTwo(2 * n)
  {
    assert (2 * n) / 2 == n;
  }

  // ---------------------------------------------------------------- the round trip

  lemma {:induction false} AppendSum<T(!new)>(R: Ring<T>, lo: seq<T>, hi: seq<T>, z: T, j: nat)
    requires Laws(R) && j <= |hi|
    ensures PolySum(R, lo + hi, z, |lo| + j) ==
            R.add(PolySum(R, lo, z, |lo|), R.mul(PolySum(R, hi, z, j), Pow(R, z, |lo|)))
  {
    if j == 0 {
      PrefixSum(R, lo, hi, z, |lo|);
      MulZero(R, Pow(R, z, |lo|));
      assert AddZero(R, PolySum(R, lo, z, |lo|));
    } else {
      AppendSum(R, lo, hi, z, j - 1);
      PowAdd(R, z, j - 1, |lo|);
      AppendAlgebra(R, PolySum(R, lo, z, |lo|), PolySum(R, hi, z, j - 1), hi[j - 1], Pow(R, z, j - 1), Pow(R, z, |lo|));
      assert (lo + hi)[|lo| + j - 1] == hi[j - 1];
    }
  }

  lemma AppendAlgebra<T(!new)>(R: Ring<T>, a: T, b: T, c: T, p: T, q: T)
    requires Laws(R)
    ensures R.add(R.add(a, R.mul(b, q)), R.mul(c, R.mul(p, q))) == R.add(a, R.mul(R.add(b, R.mul(c, p)), q))
  {
    assert AddAssoc(R, a, R.mul(b, q), R.mul(c, R.mul(p, q)));
    assert MulAssoc(R, c, p, q) && Distrib(R, b, R.mul(c, p), q);
  }

  lemma {:induction false} PrefixSum<T>(R: Ring<T>, lo: seq<T>, hi: seq<T>, z: T, m: nat)
    requires m <= |lo|
    ensures PolySum(R, lo + hi, z, m) == PolySum(R, lo, z, m)
  {
    if m == 0 {
    } else {
      PrefixSum(R, lo, hi, z, m - 1);
    }
  }

  /** The two halves of a butterfly, summed at z. */
  lemma {:induction false} HalfSums<T(!new)>(R: Ring<T>, w: T, e: seq<T>, o: seq<T>, lo: seq<T>, hi: seq<T>, z: T,
                                             m: nat)
    requires Laws(R) && |e| == |o| == |lo| == |hi| && m <= |e|
    requires Butterfly(R, w, e, o) == lo + hi
    ensures PolySum(R, lo, z, m) == R.add(PolySum(R, e, z, m), PolySum(R, o, R.mul(w, z), m))
    ensures PolySum(R, hi, z, m) == Sub(R, PolySum(R, e, z, m), PolySum(R, o, R.mul(w, z), m))
  {
    if m == 0 {
      assert AddZero(R, R.zero) && AddNeg(R, R.zero);
    } else {
      var k := m - 1;
      HalfSums(R, w, e, o, lo, hi, z, k);
      ButterflyAt(R, w, e, o, k);
      assert (lo + hi)[k] == lo[k] && (lo + hi)[k + |e|] == hi[k];
      PowProduct(R, w, z, k);
      HalfAlgebra(R, PolySum(R, e, z, k), PolySum(R, o, R.mul(w, z), k), e[k], o[k], Pow(R, w, k), Pow(R, z, k));
    }
  }

  lemma NegAdd<T(!new)>(R: Ring<T>, a: T, b: T)
    requires Laws(R)
    ensures R.neg(R.add(a, b)) == R.add(R.neg(a), R.neg(b))
  {
    AddSwap(R, R.neg(a), R.neg(b), a, b);
    assert AddNeg(R, a) && AddNeg(R, b) && AddNeg(R, R.add(a, b)) && AddZero(R, R.zero);
    assert AddComm(R, a, R.neg(a)) && AddComm(R, b, R.neg(b)) && AddComm(R, R.add(a, b), R.neg(R.add(a, b)));
    AddCancel(R, R.neg(R.add(a, b)), R.add(R.neg(a), R.neg(b)), R.add(a, b));
  }

  lemma HalfAlgebra<T(!new)>(R: Ring<T>, se: T, so: T, e: T, o: T, p: T, q: T)
    requires Laws(R)
    ensures R.add(R.add(se, so), R.mul(R.add(e, R.mul(o, p)), q)) ==
            R.add(R.add(se, R.mul(e, q)), R.add(so, R.mul(o, R.mul(p, q))))
    ensures R.add(Sub(R, se, so), R.mul(Sub(R, e, R.mul(o, p)), q)) ==
            Sub(R, R.add(se, R.mul(e, q)), R.add(so, R.mul(o, R.mul(p, q))))
  {
    var op := R.mul(o, p);
    assert Distrib(R, e, op, q) && Distrib(R, e, R.neg(op), q) && MulAssoc(R, o, p, q);
    MulNeg(R, op, q);
    AddSwap(R, se, so, R.mul(e, q), R.mul(op, q));
    AddSwap(R, se, R.neg(so), R.mul(e, q), R.neg(R.mul(op, q)));
    NegAdd(R, so, R.mul(op, q));
  }

  ghost predicate InverseSteps<T>(R: Ring<T>, step: nat -> T, inv: nat -> T, n: nat) {
    forall len: nat :: 2 <= len <= n ==> R.mul(step(len), inv(len)) == R.one
  }

  /** Summing a butterfly at an even power of the inverse root leaves twice the even part. */
  lemma EvenPoint<T(!new)>(R: Ring<T>, w: T, e: seq<T>, o: seq<T>, z: T)
    requires Laws(R) && |e| == |o| && Pow(R, z, |e|) == R.one
    ensures PolySum(R, Butterfly(R, w, e, o), z, 2 * |e|) == R.add(PolySum(R, e, z, |e|), PolySum(R, e, z, |e|))
  {
    var m, y := |e|, Butterfly(R, w, e, o);
    var lo, hi := y[..m], y[m..];
    assert y == lo + hi;
    AppendSum(R, lo, hi, z, m);
    HalfSums(R, w, e, o, lo, hi, z, m);
    var a, b := PolySum(R, e, z, m), PolySum(R, o, R.mul(w, z), m);
    assert MulOne(R, Sub(R, a, b));
    AddSwap(R, a, b, a, R.neg(b));
    assert AddNeg(R, b) && AddZero(R, R.add(a, a));
  }

  /** At an odd power, twice the odd part. */
  lemma OddPoint<T(!new)>(R: Ring<T>, w: T, e: seq<T>, o: seq<T>, z: T)
    requires Laws(R) && |e| == |o| && Pow(R, z, |e|) == R.neg(R.one)
    ensures PolySum(R, Butterfly(R, w, e, o), z, 2 * |e|) ==
            R.add(PolySum(R, o, R.mul(w, z), |e|), PolySum(R, o, R.mul(w, z), |e|))
  {
    var m, y := |e|, Butterfly(R, w, e, o);
    var lo, hi := y[..m], y[m..];
    assert y == lo + hi;
    AppendSum(R, lo, hi, z, m);
    HalfSums(R, w, e, o, lo, hi, z, m);
    var a, b := PolySum(R, e, z, m), PolySum(R, o, R.mul(w, z), m);
    OddAlgebra(R, a, b);
  }

  lemma OddAlgebra<T(!new)>(R: Ring<T>, a: T, b: T)
    requires Laws(R)
    ensures R.add(R.add(a, b), R.mul(Sub(R, a, b), R.neg(R.one))) == R.add(b, b)
  {
    var d := Sub(R, a, b);
    assert MulComm(R, d, R.neg(R.one)) && MulComm(R, R.one, d) && MulOne(R, d);
    MulNeg(R, R.one, d);
    NegAdd(R, a, R.neg(b));
    NegNeg(R, b);
    AddSwap(R, a, b, R.neg(a), b);
    assert AddNeg(R, a) && AddComm(R, R.zero, R.add(b, b)) && AddZero(R, R.add(b, b));
  }

  ghost function DftOf<T>(R: Ring<T>, x: seq<T>, w: T): (y: seq<T>)
    ensures |y| == |x| && forall k :: 0 <= k < |x| ==> y[k] == PolySum(R, x, Pow(R, w, k), |x|)
  {
    seq(|x|, k requires 0 <= k < |x| => PolySum(R, x, Pow(R, w, k), |x|))
  }

  /** A transform is the butterfly of the transforms of the even and odd samples. */
  lemma SplitDft<T(!new)>(R: Ring<T>, step: nat -> T, x: seq<T>, X: seq<T>)
    requires Laws(R) && |x| >= 2 && IsPowerOfTwo(|x|) && TwiddleSteps(R, step, |x|)
    requires IsDft(R, x, Root(R, step, |x|), X)
    ensures var h := Root(R, step, |x| / 2);
            X == Butterfly(R, Root(R, step, |x|), DftOf(R, Evens(x), h), DftOf(R, Odds(x), h))
  {
    var h := Root(R, step, |x| / 2);
    var e, o := DftOf(R, Evens(x), h), DftOf(R, Odds(x), h);
    DftButterfly(R, step, x, e, o);
    DftUnique(R, x, Root(R, step, |x|), X, Butterfly(R, Root(R, step, |x|), e, o));
  }

  lemma DftIs<T>(R: Ring<T>, x: seq<T>, w: T, y: seq<T>)
    requires IsDft(R, x, w, y)
    ensures y == DftOf(R, x, w)
  {
  }

  lemma DftUnique<T>(R: Ring<T>, x: seq<T>, w: T, y: seq<T>, z: seq<T>)
    requires IsDft(R, x, w, y) && IsDft(R, x, w, z)
    ensures y == z
  {
  }

  lemma EvenPointPower<T(!new)>(R: Ring<T>, v: T, m: nat, t: nat)
    requires Laws(R) && Pow(R, v, 2 * m) == R.one
    ensures Pow(R, Pow(R, v, 2 * t), m) == R.one
  {
    PowMul(R, v, 2 * t, m);
    PowMul(R, v, 2 * m, t);
    PowOne(R, t);
    assert (2 * m) * t == (2 * t) * m;
  }

  /** The even points of the inverse transform, and their m-th powers. */
  lemma EvenInversePoint<T(!new)>(R: Ring<T>, inv: nat -> T, n: nat, i: nat)
    requires Laws(R) && n >= 2 && IsPowerOfTwo(n) && TwiddleSteps(R, inv, n) && i % 2 == 0
    ensures Pow(R, Root(R, inv, n), i) == Pow(R, Root(R, inv, n / 2), i / 2)
    ensures Pow(R, Pow(R, Root(R, inv, n), i), n / 2) == R.one
  {
    RootPowers(R, inv, n);
    PowSquare(R, Root(R, inv, n), i / 2);
    EvenPointPower(R, Root(R, inv, n), n / 2, i / 2);
    assert n == 2 * (n / 2) && i == 2 * (i / 2);
  }

  /** The odd points, and what the forward root makes of them. */
  lemma OddInversePoint<T(!new)>(R: Ring<T>, step: nat -> T, inv: nat -> T, n: nat, i: nat)
    requires Laws(R) && n >= 2 && IsPowerOfTwo(n) && TwiddleSteps(R, inv, n) && InverseSteps(R, step, inv, n)
    requires i % 2 == 1
    ensures R.mul(Root(R, step, n), Pow(R, Root(R, inv, n), i)) == Pow(R, Root(R, inv, n / 2), i / 2)
    ensures Pow(R, Pow(R, Root(R, inv, n), i), n / 2) == R.neg(R.one)
  {
    var w, v, m := Root(R, step, n), Root(R, inv, n), n / 2;
    var p := Pow(R, v, i - 1);
    assert (i - 1) / 2 == i / 2;
    EvenInversePoint(R, inv, n, i - 1);
    RootPowers(R, inv, n);
    assert Pow(R, v, i) == R.mul(p, v);
    PowProduct(R, p, v, m);
    assert MulComm(R, R.one, R.neg(R.one)) && MulOne(R, R.neg(R.one));
    assert R.mul(w, v) == R.one;
    assert MulComm(R, p, v) && MulAssoc(R, w, v, p) && MulComm(R, R.one, p) && MulOne(R, p);
  }

  /** The inverse transform of the transform is the original samples, scaled by their number. */
  lemma {:induction false} RoundTrip<T(!new)>(R: Ring<T>, step: nat -> T, inv: nat -> T, x: seq<T>, X: seq<T>, i: nat)
    requires Laws(R) && IsPowerOfTwo(|x|) && i < |x|
    requires TwiddleSteps(R, step, |x|) && TwiddleSteps(R, inv, |x|) && InverseSteps(R, step, inv, |x|)
    requires IsDft(R, x, Root(R, step, |x|), X)
    ensures PolySum(R, X, Pow(R, Root(R, inv, |x|), i), |x|) == Times(R, |x|, x[i])
    decreases |x|
  {
    if |x| == 1 {
      RoundTripOne(R, x, X, Pow(R, Root(R, inv, |x|), i), Pow(R, Root(R, step, |x|), 0));
    } else {
      hide Laws, TwiddleSteps, InverseSteps, Root;
      var m, half := |x| / 2, if i % 2 == 0 then Evens(x) else Odds(x);
      var Y := DftOf(R, half, Root(R, step, m));
      HalfSteps(R, step, inv, |x|);
      assert |half| == m && half[i / 2] == x[i];
      RoundTrip(R, step, inv, half, Y, i / 2);
      RoundTripStep(R, step, inv, x, X, i);
      Doubled(R, m, |x|, PolySum(R, Y, Pow(R, Root(R, inv, m), i / 2), m), x[i]);
    }
  }

  lemma HalfSteps<T>(R: Ring<T>, step: nat -> T, inv: nat -> T, n: nat)
    requires IsPowerOfTwo(n) && n >= 2
    requires TwiddleSteps(R, step, n) && TwiddleSteps(R, inv, n) && InverseSteps(R, step, inv, n)
    ensures IsPowerOfTwo(n / 2) && n == 2 * (n / 2)
    ensures TwiddleSteps(R, step, n / 2) && TwiddleSteps(R, inv, n / 2) && InverseSteps(R, step, inv, n / 2)
  {
  }

  lemma Doubled<T(!new)>(R: Ring<T>, m: nat, n: nat, p: T, a: T)
    requires Laws(R) && n == m + m && p == Times(R, m, a)
    ensures R.add(p, p) == Times(R, n, a)
  {
    TimesAdd(R, m, m, a);
  }

  /** One level of the round trip: twice the round trip of the even or the odd samples. */
  lemma RoundTripStep<T(!new)>(R: Ring<T>, step: nat -> T, inv: nat -> T, x: seq<T>, X: seq<T>, i: nat)
    requires Laws(R) && IsPowerOfTwo(|x|) && 2 <= |x| && i < |x|
    requires TwiddleSteps(R, step, |x|) && TwiddleSteps(R, inv, |x|) && InverseSteps(R, step, inv, |x|)
    requires IsDft(R, x, Root(R, step, |x|), X)
    ensures var m := |x| / 2;
            var Y := DftOf(R, if i % 2 == 0 then Evens(x) else Odds(x), Root(R, step, m));
            var p := PolySum(R, Y, Pow(R, Root(R, inv, m), i / 2), m);
            PolySum(R, X, Pow(R, Root(R, inv, |x|), i), |x|) == R.add(p, p)
  {
    var h, z := Root(R, step, |x| / 2), Pow(R, Root(R, inv, |x|), i);
    var e, o := DftOf(R, Evens(x), h), DftOf(R, Odds(x), h);
    SplitDft(R, step, x, X);
    if i % 2 == 0 {
      EvenInversePoint(R, inv, |x|, i);
      EvenPoint(R, Root(R, step, |x|), e, o, z);
    } else {
      OddInversePoint(R, step, inv, |x|, i);
      OddPoint(R, Root(R, step, |x|), e, o, z);
    }
  }

  lemma RoundTripOne<T(!new)>(R: Ring<T>, x: seq<T>, X: seq<T>, z: T, p: T)
    requires Laws(R) && |x| == 1 == |X| && X[0] == PolySum(R, x, p, 1)
    ensures PolySum(R, X, z, 1) == Times(R, 1, x[0])
  {
    assert PolySum(R, x, p, 1) == R.add(R.zero, R.mul(x[0], R.one));
    assert PolySum(R, X, z, 1) == R.add(R.zero, R.mul(X[0], R.one));
    assert MulOne(R, x[0]) && MulOne(R, X[0]) && AddComm(R, R.zero, x[0]) && AddZero(R, x[0]);
    assert AddComm(R, R.zero, X[0]) && AddZero(R, X[0]);
    assert Times(R, 1, x[0]) == R.add(R.zero, x[0]);
  }

  /** Twiddles on the unit circle are undone by their conjugates. */
  ghost predicate UnitSteps<T>(R: Ring<T>, conj: T -> T, step: nat -> T, n: nat) {
    forall len: nat :: 2 <= len <= n ==> UnitStep(R, conj, step, len)
  }

  lemma UnitInverse<T>(R: Ring<T>, conj: T -> T, step: nat -> T, n: nat)
    requires UnitSteps(R, conj, step, n)
    ensures InverseSteps(R, step, Conjugated(conj, step), n)
  {
    forall len: nat | 2 <= len <= n
      ensures R.mul(step(len), Conjugated(conj, step)(len)) == R.one
    {
      assert UnitStep(R, conj, step, len);
    }
  }

  /** What transforms a transform with the conjugated twiddles is the original samples, scaled by their number. */
  lemma Inverted<T(!new)>(R: Ring<T>, conj: T -> T, step: nat -> T, x: seq<T>, X: seq<T>, y: seq<T>)
    requires Laws(R) && Conjugation(R, conj) && IsPowerOfTwo(|x|)
    requires TwiddleSteps(R, step, |x|) && UnitSteps(R, conj, step, |x|)
    requires IsDft(R, x, Root(R, step, |x|), X) && IsDft(R, X, Root(R, Conjugated(conj, step), |x|), y)
    ensures |y| == |x| && forall i :: 0 <= i < |x| ==> y[i] == Times(R, |x|, x[i])
  {
    hide Laws, Conjugation, TwiddleSteps, Root;
    var inv := Conjugated(conj, step);
    ConjugatedSteps(R, conj, step, |x|);
    UnitInverse(R, conj, step, |x|);
    forall i | 0 <= i < |x|
      ensures y[i] == Times(R, |x|, x[i])
    {
      RoundTrip(R, step, inv, x, X, i);
    }
  }

  /** fft() and then fft() with Inverse: as the shifter analyses and synthesises a window that it leaves alone. */
  method ThereAndBack<T(!new)>(R: Ring<T>, tables: PitchTables<T>, conj: T -> T, ghost step: nat -> T, data: array<T>)
    requires Laws(R) && Conjugation(R, conj) && TwiddleSteps(R, step, tables.size)
    requires UnitSteps(R, conj, step, tables.size)
    requires ReverseTable(tables) && TwiddleTable(R, tables, step) && data.Length == tables.size
    modifies data
    ensures forall i :: 0 <= i < data.Length ==> data[i] == Times(R, data.Length, old(data[i]))
  {
    hide Laws, Conjugation, TwiddleSteps, Root, IsDft, UnitSteps, TwiddleTable, ReverseTable;
    ghost var x := data[..];
    SizeIsPower(tables);
    TableFft(R, tables, conj, step, false, data);
    ghost var X := data[..];
    TableFft(R, tables, conj, step, true, data);
    Inverted(R, conj, step, x, X, data[..]);
  }

  lemma SizeIsPower<T>(tables: PitchTables<T>)
    requires ReverseTable(tables)
    ensures IsPowerOfTwo(tables.size)
  {
  }
}
