/**
 * The transform of AudioPitchShift as a whole: analysis, the shift of the spectra and synthesis of one window.  It is a
 * transform in the sense of PitchShifters, and at zero semitones one in the sense of PitchUnity.
 */
module PitchTransforms {
  import opened C = ComplexNumbers
  import opened Rings
  import opened Fft
  import opened PitchFft
  import opened PitchWindows
  import P = PeakRegions
  import S = PitchShifters
  import U = PitchUnity
  import Reals

  /** shift(): the sum of all moves in every channel. */
  ghost function Shifted(m: Machine, xs: seq<seq<Complex>>, pw: seq<real>, ratio: real, rotation: seq<real>,
                         advance: nat -> real): (ys: seq<seq<Complex>>)
    requires m.env.pi > 0.0 && |rotation| == |pw| == Bins(m) && P.AllBins(xs, Bins(m)) && P.Spaced(P.Peaks(pw), |pw|)
    ensures |ys| == |xs| && P.AllBins(ys, Bins(m))
    ensures var peaks := P.Peaks(pw);
            var moves := P.Moves(m.env, pw, peaks, |peaks|, ratio, rotation, advance);
            forall c, k :: 0 <= c < |xs| && 0 <= k < Bins(m) ==> ys[c][k] == P.Summed(m.env, moves, xs[c], k, |peaks|)
  {
    var peaks := P.Peaks(pw);
    var moves := P.Moves(m.env, pw, peaks, |peaks|, ratio, rotation, advance);
    seq(|xs|, c requires 0 <= c < |xs| =>
      seq(Bins(m), k requires 0 <= k < Bins(m) => P.Summed(m.env, moves, xs[c], k, |peaks|)))
  }

  ghost function SilentSpectra(m: Machine): (xs: seq<seq<Complex>>)
    ensures |xs| == m.channels && P.AllBins(xs, Bins(m))
    ensures forall c, k :: 0 <= c < m.channels && 0 <= k < Bins(m) ==> xs[c][k] == P.ZERO
  {
    seq(m.channels, _ => seq(Bins(m), _ => P.ZERO))
  }

  ghost function Silent(m: Machine): S.Analysis {
    S.Analysis(seq(m.channels, _ => Reals.Zeros(Size(m))), SilentSpectra(m), Reals.Zeros(Bins(m)))
  }

  /** hop_frame(), when it is live, for one window of every channel. */
  ghost function TransformOf(m: Machine, inputs: seq<seq<real>>, before: seq<seq<Complex>>, rotation: seq<real>,
                             ratio: real)
    : (a: S.Analysis)
    requires Sound(m)
    ensures S.Shaped(a.contribution, m.channels, Size(m))
  {
    if S.Shaped(inputs, m.channels, Size(m)) && |rotation| == Bins(m) then
      var xs := Spectra(m, Transformed(m, Packed(m, inputs), false));
      var past := if |before| == |xs| && P.AllBins(before, Bins(m)) then before else SilentSpectra(m);
      var pw, advance := P.Powers(xs, Bins(m)), P.Advances(m.env, xs, past, Bins(m));
      P.PeaksSpaced(pw);
      var ys := Shifted(m, xs, pw, ratio, rotation, advance);
      S.Analysis(Contribution(m, Transformed(m, Repacked(m, ys), true)), xs,
                 P.NewRotation(m.env, pw, ratio, rotation, advance))
    else Silent(m)
  }

  ghost function SetupOf(m: Machine): S.Setup {
    S.Setup(m.channels, m.hop, Silent(m),
            (inputs: seq<seq<real>>, before: seq<seq<Complex>>, rotation: seq<real>, ratio: real) =>
              if Sound(m) then TransformOf(m, inputs, before, rotation, ratio) else Silent(m))
  }

  // ---------------------------------------------------------------- the loops

  ghost predicate Tabled(m: Machine, tables: PitchTables<Complex>) {
    tables.size == Size(m) && ReverseTable(tables) && TwiddleTable(ComplexRing(), tables, m.step)
  }

  /** fft() in place, with the tables of the machine. */
  method Transform(m: Machine, tables: PitchTables<Complex>, z: array<Complex>, inverse: bool)
    requires Sound(m) && Tabled(m, tables) && z.Length == Size(m)
    modifies z
    ensures z[..] == Transformed(m, old(z[..]), inverse)
  {
    hide Laws, Conjugation, TwiddleSteps, UnitSteps, P.Sound, ComplexRing, Conjugate, Root, IsDft, Transformed;
    hide ReverseTable, TwiddleTable, Steps;
    RingFacts();
    ghost var x := z[..];
    TableFft(ComplexRing(), tables, Conjugate(), m.step, inverse, z);
    TransformIs(m, x, z[..], inverse);
  }

  lemma TransformIs(m: Machine, x: seq<Complex>, y: seq<Complex>, inverse: bool)
    requires IsDft(ComplexRing(), x, Root(ComplexRing(), Steps(Conjugate(), m.step, inverse), |x|), y)
    ensures y == Transformed(m, x, inverse)
  {
    DftIs(ComplexRing(), x, Root(ComplexRing(), Steps(Conjugate(), m.step, inverse), |x|), y);
  }

  /** analyse(): one transform of the windowed channels, separated into their bins. */
  method Analyse(m: Machine, tables: PitchTables<Complex>, inputs: seq<seq<real>>) returns (xs: seq<seq<Complex>>)
    requires Sound(m) && Tabled(m, tables) && S.Shaped(inputs, m.channels, Size(m))
    ensures xs == Spectra(m, Transformed(m, Packed(m, inputs), false))
  {
    hide TwiddleSteps, UnitSteps, P.Sound, IsPowerOfTwo, Transformed, Tabled;
    var n := Size(m);
    var z := new Complex[n](_ => P.ZERO);
    for i := 0 to n
      invariant forall j :: 0 <= j < n && Centred(j, 4 * m.hop) < i ==>
                  z[j] == PackedAt(m, inputs, Centred(j, 4 * m.hop))
    {
      CentredTwice(i, 4 * m.hop);
      z[Centred(i, 4 * m.hop)] := PackedAt(m, inputs, i);
    }
    assert z[..] == Packed(m, inputs);
    Transform(m, tables, z, false);
    xs := Separate(m, z[..]);
  }

  method Separate(m: Machine, z: seq<Complex>) returns (xs: seq<seq<Complex>>)
    requires 1 <= m.channels <= 2 && m.hop > 0 && |z| == Size(m)
    ensures xs == Spectra(m, z)
  {
    if m.channels == 1 {
      return [z[..Bins(m)]];
    }
    var left, right := [], [];
    for k := 0 to Bins(m)
      invariant |left| == |right| == k
      invariant forall j :: 0 <= j < k ==> left[j] == LeftBin(z[j], z[Mirror(j, |z|)])
      invariant forall j :: 0 <= j < k ==> right[j] == RightBin(z[j], z[Mirror(j, |z|)])
    {
      left := left + [LeftBin(z[k], z[Mirror(k, |z|)])];
      right := right + [RightBin(z[k], z[Mirror(k, |z|)])];
    }
    xs := [left, right];
    assert left == Spectra(m, z)[0] && right == Spectra(m, z)[1];
  }

  /** synthesise(): the inverse transform of the packed channels, windowed and added to their accumulators. */
  method Synthesise(m: Machine, tables: PitchTables<Complex>, ys: seq<seq<Complex>>, accums: seq<seq<real>>)
    returns (r: seq<seq<real>>)
    requires Sound(m) && Tabled(m, tables) && P.AllBins(ys, Bins(m)) && S.Shaped(accums, m.channels, Size(m))
    ensures S.Shaped(r, m.channels, Size(m))
    ensures forall c, i :: 0 <= c < m.channels && 0 <= i < Size(m) ==>
              r[c][i] == accums[c][i] + Contribution(m, Transformed(m, Repacked(m, ys), true))[c][i]
  {
    hide TwiddleSteps, UnitSteps, P.Sound, IsPowerOfTwo, Transformed, Tabled, BinOf, Lower, Upper, AddedAt;
    var n := Size(m);
    var z := new Complex[n](_ => P.ZERO);
    for k := 0 to Bins(m)
      invariant forall j :: 0 <= j < k ==> z[j] == RepackedAt(m, ys, j)
      invariant forall j :: n - k < j < n && j >= Bins(m) ==> z[j] == RepackedAt(m, ys, j)
    {
      var l, r := BinOf(m, ys, 0, k), BinOf(m, ys, 1, k);
      z[k] := Lower(l, r);
      if 0 < k < 4 * m.hop {
        z[n - k] := Upper(l, r);
      }
    }
    assert z[..] == Repacked(m, ys);
    Transform(m, tables, z, true);
    r := AddWindows(m, z[..], accums);
  }

  method AddWindows(m: Machine, z: seq<Complex>, accums: seq<seq<real>>) returns (r: seq<seq<real>>)
    requires |z| == Size(m) == |m.window| && m.hop > 0 && S.Shaped(accums, m.channels, Size(m))
    ensures S.Shaped(r, m.channels, Size(m))
    ensures forall c, i :: 0 <= c < m.channels && 0 <= i < Size(m) ==>
                             r[c][i] == accums[c][i] + Contribution(m, z)[c][i]
  {
    hide AddedAt;
    r := [];
    for c := 0 to m.channels
      invariant S.Shaped(r, c, Size(m))
      invariant forall d, i :: 0 <= d < c && 0 <= i < Size(m) ==> r[d][i] == accums[d][i] + AddedAt(m, z, d, i)
    {
      var added := AddWindow(m, z, c, accums[c]);
      r := r + [added];
    }
    ContributionIs(m, z, accums, r);
  }

  lemma ContributionIs(m: Machine, z: seq<Complex>, accums: seq<seq<real>>, r: seq<seq<real>>)
    requires |z| == Size(m) == |m.window| && m.hop > 0
    requires S.Shaped(accums, m.channels, Size(m)) && S.Shaped(r, m.channels, Size(m))
    requires forall d, i :: 0 <= d < m.channels && 0 <= i < Size(m) ==> r[d][i] == accums[d][i] + AddedAt(m, z, d, i)
    ensures forall c, i :: 0 <= c < m.channels && 0 <= i < Size(m) ==>
                             r[c][i] == accums[c][i] + Contribution(m, z)[c][i]
  {
    hide AddedAt;
    forall c, i | 0 <= c < m.channels && 0 <= i < Size(m)
      ensures r[c][i] == accums[c][i] + Contribution(m, z)[c][i]
    {
      assert Contribution(m, z)[c][i] == AddedAt(m, z, c, i);
    }
  }

  method AddWindow(m: Machine, z: seq<Complex>, c: nat, accum: seq<real>) returns (r: seq<real>)
    requires |z| == Size(m) == |m.window| == |accum| && m.hop > 0
    ensures |r| == |accum| && forall i :: 0 <= i < |r| ==> r[i] == accum[i] + AddedAt(m, z, c, i)
  {
    hide AddedAt;
    r := [];
    for i := 0 to |accum|
      invariant |r| == i && forall j :: 0 <= j < i ==> r[j] == accum[j] + AddedAt(m, z, c, j)
    {
      r := r + [accum[i] + AddedAt(m, z, c, i)];
    }
  }

  /** The three steps of a live hop, on the windows of all channels, compute the transform. */
  method TransformWindows(m: Machine, tables: PitchTables<Complex>, inputs: seq<seq<real>>, before: seq<seq<Complex>>,
                          rotation: seq<real>, ratio: real, accums: seq<seq<real>>)
    returns (r: seq<seq<real>>, xs: seq<seq<Complex>>, next: seq<real>)
    requires Sound(m) && Tabled(m, tables) && S.Shaped(inputs, m.channels, Size(m))
    requires S.Shaped(accums, m.channels, Size(m)) && Continued(m, before, rotation)
    ensures var a := TransformOf(m, inputs, before, rotation, ratio);
            && xs == a.previous && next == a.rotation && Continued(m, xs, next) && S.Shaped(r, m.channels, Size(m))
            && forall c, i :: 0 <= c < m.channels && 0 <= i < Size(m) ==> r[c][i] == accums[c][i] + a.contribution[c][i]
  {
    hide TwiddleSteps, UnitSteps, P.Sound, IsPowerOfTwo, Transformed, Tabled, Repacked, Contribution, Packed,
         P.NewRotation, P.Peaks, P.Advances, P.Moves, P.Powers;
    xs := Analyse(m, tables, inputs);
    var ys;
    ys, next := P.Shift(m.env, xs, before, Bins(m), ratio, rotation);
    ShiftedIs(m, xs, P.Powers(xs, Bins(m)), ratio, rotation, P.Advances(m.env, xs, before, Bins(m)), ys);
    r := Synthesise(m, tables, ys, accums);
  }

  /** What one analysis leaves for the next. */
  ghost predicate Continued(m: Machine, before: seq<seq<Complex>>, rotation: seq<real>) {
    |before| == m.channels && P.AllBins(before, Bins(m)) && |rotation| == Bins(m)
  }

  lemma ShiftedIs(m: Machine, xs: seq<seq<Complex>>, pw: seq<real>, ratio: real, rotation: seq<real>,
                  advance: nat -> real, ys: seq<seq<Complex>>)
    requires P.Sound(m.env) && |rotation| == |pw| == Bins(m) && P.AllBins(xs, Bins(m)) && P.Spaced(P.Peaks(pw), |pw|)
    requires P.SummedUpTo(m.env, P.Moves(m.env, pw, P.Peaks(pw), |P.Peaks(pw)|, ratio, rotation, advance), xs, ys,
                          Bins(m), |P.Peaks(pw)|)
    ensures ys == Shifted(m, xs, pw, ratio, rotation, advance)
  {
    hide P.Moves, P.Peaks, P.Summed;
    var zs := Shifted(m, xs, pw, ratio, rotation, advance);
    forall c | 0 <= c < |xs|
      ensures ys[c] == zs[c]
    {
      assert forall k :: 0 <= k < Bins(m) ==> ys[c][k] == zs[c][k];
    }
  }

  /** hop_frame() of a live frame: the hop of the shifter under this transform. */
  method LiveHop(m: Machine, tables: PitchTables<Complex>, p: S.Shifter) returns (q: S.Shifter)
    requires Sound(m) && Tabled(m, tables) && S.TracksShaped(p.tracks, m.channels, m.hop)
    requires Continued(m, p.previous, p.rotation)
    ensures Continued(m, q.previous, q.rotation)
    ensures S.Sound(SetupOf(m)) && q == S.HopFrame(SetupOf(m), p, true)
  {
    hide TwiddleSteps, UnitSteps, P.Sound, IsPowerOfTwo, Tabled, TransformOf, S.Sound, S.Hopped;
    SetupSound(m);
    var inputs := S.Inputs(p.tracks);
    var accums := seq(m.channels, c requires 0 <= c < m.channels => p.tracks[c].accum);
    var r, xs, next := TransformWindows(m, tables, inputs, p.previous, p.rotation, p.ratio, accums);
    var tracks := seq(m.channels, c requires 0 <= c < m.channels => p.tracks[c].(accum := r[c]));
    ghost var a := TransformOf(m, inputs, p.previous, p.rotation, p.ratio);
    assert tracks == S.AddAll(p.tracks, a.contribution, m.channels, m.hop) by {
      AddedIs(p.tracks, a.contribution, tracks, m.channels, m.hop);
    }
    q := p.(tracks := S.HopAll(tracks, m.channels, m.hop), previous := xs, rotation := next);
  }

  lemma AddedIs(tracks: seq<S.Track>, contribution: seq<seq<real>>, r: seq<S.Track>, channels: nat, hop: nat)
    requires S.TracksShaped(tracks, channels, hop) && S.Shaped(contribution, channels, 8 * hop) && |r| == channels
    requires forall c :: 0 <= c < channels ==> r[c] == tracks[c].(accum := r[c].accum) && |r[c].accum| == 8 * hop
    requires forall c, i :: 0 <= c < channels && 0 <= i < 8 * hop ==>
               r[c].accum[i] == tracks[c].accum[i] + contribution[c][i]
    ensures r == S.AddAll(tracks, contribution, channels, hop)
  {
    forall c | 0 <= c < channels
      ensures r[c].accum == S.Added(tracks[c].accum, contribution[c])
    {
    }
  }

  // ---------------------------------------------------------------- silence

  lemma {:induction false} SilentSum<T(!new)>(R: Ring<T>, z: seq<T>, w: T, k: nat)
    requires Laws(R) && k <= |z| && forall i :: 0 <= i < |z| ==> z[i] == R.zero
    ensures PolySum(R, z, w, k) == R.zero
  {
    if k > 0 {
      SilentSum(R, z, w, k - 1);
      MulZero(R, Pow(R, w, k - 1));
      assert AddZero(R, R.zero);
    }
  }

  ghost predicate Quiet(z: seq<Complex>) {
    forall i :: 0 <= i < |z| ==> z[i] == P.ZERO
  }

  lemma QuietTransformed(m: Machine, z: seq<Complex>, inverse: bool)
    requires Quiet(z)
    ensures Quiet(Transformed(m, z, inverse))
  {
    RingFacts();
    RingEnds();
    hide Laws, Conjugation, ComplexRing;
    var R := ComplexRing();
    var root := Root(R, Steps(Conjugate(), m.step, inverse), |z|);
    forall k | 0 <= k < |z|
      ensures Transformed(m, z, inverse)[k] == P.ZERO
    {
      SilentSum(R, z, Pow(R, root, k), |z|);
    }
  }

  lemma QuietSpectra(m: Machine, z: seq<Complex>)
    requires 1 <= m.channels <= 2 && m.hop > 0 && |z| == Size(m) && Quiet(z)
    ensures Spectra(m, z) == SilentSpectra(m)
  {
    forall c, k | 0 <= c < m.channels && 0 <= k < Bins(m)
      ensures Spectra(m, z)[c][k] == P.ZERO
    {
    }
    forall c | 0 <= c < m.channels
      ensures Spectra(m, z)[c] == SilentSpectra(m)[c]
    {
    }
  }

  lemma QuietRepacked(m: Machine)
    requires m.hop > 0
    ensures Quiet(Repacked(m, SilentSpectra(m)))
  {
  }

  lemma QuietContribution(m: Machine, z: seq<Complex>)
    requires |z| == Size(m) == |m.window| && m.hop > 0 && Quiet(z)
    ensures S.AllZero(Contribution(m, z))
  {
    hide Scale;
    forall c, i | 0 <= c < m.channels && 0 <= i < Size(m)
      ensures Contribution(m, z)[c][i] == 0.0
    {
      NothingAdded(m, z, c, i);
    }
  }

  lemma NothingAdded(m: Machine, z: seq<Complex>, c: nat, i: nat)
    requires i < |z| == Size(m) == |m.window| && m.hop > 0 && Quiet(z)
    ensures AddedAt(m, z, c, i) == 0.0
  {
    hide Scale;
    assert z[Centred(i, 4 * m.hop)] == P.ZERO;
  }

  lemma QuietPacked(m: Machine, inputs: seq<seq<real>>)
    requires 1 <= m.channels <= 2 && S.Shaped(inputs, m.channels, Size(m)) && |m.window| == Size(m) && S.AllZero(inputs)
    ensures Quiet(Packed(m, inputs))
  {
    forall j | 0 <= j < Size(m)
      ensures Packed(m, inputs)[j] == P.ZERO
    {
      var i := Centred(j, 4 * m.hop);
      assert S.Zero(inputs[0]) && (m.channels > 1 ==> S.Zero(inputs[1]));
      NoSample(m.window[i]);
    }
  }

  lemma NoSample(w: real)
    ensures 0.0 * w == 0.0
  {
  }

  lemma ShiftedSilence(m: Machine, xs: seq<seq<Complex>>, pw: seq<real>, ratio: real, rotation: seq<real>,
                       advance: nat -> real)
    requires P.Sound(m.env) && |rotation| == |pw| == Bins(m) && P.Peaks(pw) == [] && xs == SilentSpectra(m)
    ensures P.Spaced(P.Peaks(pw), |pw|) && Shifted(m, xs, pw, ratio, rotation, advance) == xs
  {
    hide P.Moves;
    P.PeaksSpaced(pw);
    forall c | 0 <= c < |xs|
      ensures Shifted(m, xs, pw, ratio, rotation, advance)[c] == xs[c]
    {
    }
  }

  /** Whatever the rotations and the ratio, a silent window adds nothing and leaves nothing to continue from. */
  lemma SilentTransform(m: Machine, inputs: seq<seq<real>>, before: seq<seq<Complex>>, rotation: seq<real>, ratio: real)
    requires Sound(m) && S.AllZero(inputs)
    ensures S.SilentAnalysis(SetupOf(m), TransformOf(m, inputs, before, rotation, ratio))
  {
    hide Transformed, Spectra, Repacked, Contribution, TwiddleSteps, UnitSteps, P.NewRotation, P.Peaks, P.Advances;
    if S.Shaped(inputs, m.channels, Size(m)) && |rotation| == Bins(m) {
      var z := Packed(m, inputs);
      QuietPacked(m, inputs);
      QuietTransformed(m, z, false);
      QuietSpectra(m, Transformed(m, z, false));
      var xs := SilentSpectra(m);
      var past := if |before| == |xs| && P.AllBins(before, Bins(m)) then before else xs;
      P.SilentShift(m.env, xs, past, Bins(m), ratio, rotation);
      var pw, advance := P.Powers(xs, Bins(m)), P.Advances(m.env, xs, past, Bins(m));
      P.PeaksSpaced(pw);
      ShiftedSilence(m, xs, pw, ratio, rotation, advance);
      QuietRepacked(m);
      QuietTransformed(m, Repacked(m, xs), true);
      QuietContribution(m, Transformed(m, Repacked(m, xs), true));
    }
  }

  /** So the transforms are what the countdown of the shifter relies on. */
  lemma SetupSound(m: Machine)
    requires Sound(m)
    ensures S.Sound(SetupOf(m))
  {
    hide TransformOf, TwiddleSteps, UnitSteps, S.SilentAnalysis;
    forall i, p, r, ratio | S.AllZero(i)
      ensures S.SilentAnalysis(SetupOf(m), SetupOf(m).transform(i, p, r, ratio))
    {
      SilentTransform(m, i, p, r, ratio);
    }
  }

  // ---------------------------------------------------------------- zero semitones

  lemma {:induction false} NoPowerMeans(xs: seq<seq<Complex>>, k: nat, c: nat, i: nat)
    requires i < c <= |xs| && (forall j :: 0 <= j < |xs| ==> k < |xs[j]|) && P.PowerOf(xs, k, c) <= 0.0
    ensures P.PowerOf(xs, k, c) == 0.0 && xs[i][k] == P.ZERO
  {
    var re, im := xs[c - 1][k].re, xs[c - 1][k].im;
    PowerNonNegative(xs, k, c - 1);
    NoSquares(re, im);
    if i < c - 1 {
      NoPowerMeans(xs, k, c - 1, i);
    }
  }

  lemma {:induction false} PowerNonNegative(xs: seq<seq<Complex>>, k: nat, c: nat)
    requires c <= |xs| && forall j :: 0 <= j < |xs| ==> k < |xs[j]|
    ensures P.PowerOf(xs, k, c) >= 0.0
  {
    if c > 0 {
      PowerNonNegative(xs, k, c - 1);
    }
  }

  lemma NoSquares(x: real, y: real)
    ensures Reals.Sq(x) >= 0.0 && Reals.Sq(y) >= 0.0
    ensures Reals.Sq(x) + Reals.Sq(y) <= 0.0 ==> x == 0.0 && y == 0.0
  {
    hide Reals.Sq;
    if x != 0.0 {
      SquarePositive(x);
    }
    if y != 0.0 {
      SquarePositive(y);
    }
  }

  lemma SquarePositive(x: real)
    requires x != 0.0
    ensures Reals.Sq(x) > 0.0
  {
    hide Reals.Sq;
    Reals.SqAbs(x);
    Reals.ProductIs(Reals.Abs(x), Reals.Abs(x), Reals.Sq(x));
  }

  /** Without rotations, every spectrum is its own shift: copied if it has power, and empty if not. */
  lemma ShiftedUnity(m: Machine, xs: seq<seq<Complex>>, rotation: seq<real>, advance: nat -> real)
    requires P.Sound(m.env) && |rotation| == Bins(m) && P.AllBins(xs, Bins(m)) && S.Zero(rotation)
    requires P.Spaced(P.Peaks(P.Powers(xs, Bins(m))), Bins(m))
    ensures Shifted(m, xs, P.Powers(xs, Bins(m)), 1.0, rotation, advance) == xs
  {
    hide P.Moves, P.Peaks, P.PowerOf;
    var pw := P.Powers(xs, Bins(m));
    var ys := Shifted(m, xs, pw, 1.0, rotation, advance);
    forall c, k | 0 <= c < |xs| && 0 <= k < Bins(m)
      ensures ys[c][k] == xs[c][k]
    {
      if P.Top(pw, |pw|) > 0.0 {
        P.UnityCopies(m.env, pw, rotation, advance, xs[c], k);
      } else {
        NoPeaks(pw);
        NoPowerMeans(xs, k, |xs|, c);
      }
    }
    forall c | 0 <= c < |xs|
      ensures ys[c] == xs[c]
    {
    }
  }

  lemma NoPeaks(pw: seq<real>)
    requires P.Top(pw, |pw|) <= 0.0
    ensures P.Peaks(pw) == [] && forall k :: 0 <= k < |pw| ==> pw[k] <= 0.0
  {
  }

  lemma UnityRotation(m: Machine, pw: seq<real>, rotation: seq<real>, advance: nat -> real)
    requires P.Sound(m.env) && |rotation| == |pw| && S.Zero(rotation)
    ensures S.Zero(P.NewRotation(m.env, pw, 1.0, rotation, advance))
  {
    hide P.NewRotation;
    P.Realigns(m.env, pw, rotation, advance, 0.0);
    P.StepPositive(m.env);
  }

  /** At zero semitones a window comes back under the squared window, and rotations stay zero. */
  lemma UnityTransform(m: Machine, inputs: seq<seq<real>>, before: seq<seq<Complex>>, rotation: seq<real>)
    requires Sound(m) && S.Shaped(inputs, m.channels, Size(m)) && S.Zero(rotation) && |rotation| == Bins(m)
    ensures U.Returned(SetupOf(m), Gain(m), inputs, TransformOf(m, inputs, before, rotation, 1.0))
  {
    hide Transformed, Spectra, Repacked, TwiddleSteps, UnitSteps, P.NewRotation, P.Peaks, P.Advances, Shifted, Gain,
         AddedAt, Packed, P.Powers, Reals.Mul;
    var xs := Spectra(m, Transformed(m, Packed(m, inputs), false));
    var past := if |before| == |xs| && P.AllBins(before, Bins(m)) then before else SilentSpectra(m);
    var pw, advance := P.Powers(xs, Bins(m)), P.Advances(m.env, xs, past, Bins(m));
    P.PeaksSpaced(pw);
    ShiftedUnity(m, xs, rotation, advance);
    UnityRotation(m, pw, rotation, advance);
    SpectraRepacked(m, inputs);
    forall c, i | 0 <= c < m.channels && 0 <= i < Size(m)
      ensures TransformOf(m, inputs, before, rotation, 1.0).contribution[c][i] == Reals.Mul(Gain(m)[i], inputs[c][i])
    {
      WindowReturns(m, inputs, c, i);
    }
  }

  lemma SetupFaithful(m: Machine)
    requires Sound(m)
    ensures U.Faithful(SetupOf(m), Gain(m))
  {
    hide TransformOf, TwiddleSteps, UnitSteps, U.Returned, Gain;
    forall i, p, r | S.Shaped(i, m.channels, Size(m)) && S.Zero(r) && |r| == Bins(m)
      ensures U.Returned(SetupOf(m), Gain(m), i, SetupOf(m).transform(i, p, r, 1.0))
    {
      UnityTransform(m, i, p, r);
    }
  }

  /** A Hann window, by the values of its cosine, which changes sign after N / 2 and turns into a sine after N / 4. */
  ghost predicate Hann(m: Machine, cosine: seq<real>) {
    && |cosine| == |m.window| == Size(m)
    && (forall i :: 0 <= i < Size(m) ==> m.window[i] == 0.5 - 0.5 * cosine[i])
    && (forall i :: 0 <= i < 4 * m.hop ==> cosine[i + 4 * m.hop] == -cosine[i])
    && (forall i :: 0 <= i < 6 * m.hop ==> Reals.Sq(cosine[i]) + Reals.Sq(cosine[i + 2 * m.hop]) == 1.0)
  }

  /** Eight overlapping squares of a Hann window sum to three, so the overlap gain is a third. */
  lemma HannCompletes(m: Machine, cosine: seq<real>)
    requires m.hop > 0 && Hann(m, cosine) && 3.0 * m.norm == 1.0
    ensures U.Complete(Gain(m), m.hop)
  {
    forall k | 0 <= k < m.hop
      ensures U.Overlap(Gain(m), m.hop, k) == 1.0
    {
      HannOverlap(m, cosine, k);
    }
  }

  lemma HannOverlap(m: Machine, cosine: seq<real>, k: nat)
    requires m.hop > 0 && Hann(m, cosine) && 3.0 * m.norm == 1.0 && k < m.hop
    ensures U.Overlap(Gain(m), m.hop, k) == 1.0
  {
    hide U.Overlap, Gain, Reals.Sq;
    var g, r := Gain(m), m.hop;
    EightOverlaps(g, r, k);
    HannPair(m, cosine, k);
    HannPair(m, cosine, k + r);
    HannPair(m, cosine, k + 2 * r);
    HannPair(m, cosine, k + 3 * r);
    assert cosine[k + r + 2 * r] == cosine[k + 3 * r];
    assert Reals.Sq(cosine[k]) + Reals.Sq(cosine[k + 2 * r]) == 1.0;
    assert Reals.Sq(cosine[k + r]) + Reals.Sq(cosine[k + 3 * r]) == 1.0;
  }

  lemma EightOverlaps(g: seq<real>, r: nat, k: nat)
    requires r > 0 && |g| == 8 * r && k < r
    ensures U.Overlap(g, r, k) ==
            (g[k] + g[k + 4 * r]) + (g[k + r] + g[k + 5 * r])
            + (g[k + 2 * r] + g[k + 6 * r]) + (g[k + 3 * r] + g[k + 7 * r])
  {
    hide U.Overlap;
    U.OverlapUnfolds(g, r, k);
    U.OverlapUnfolds(g, r, k + r);
    U.OverlapUnfolds(g, r, k + 2 * r);
    U.OverlapUnfolds(g, r, k + 3 * r);
    U.OverlapUnfolds(g, r, k + 4 * r);
    U.OverlapUnfolds(g, r, k + 5 * r);
    U.OverlapUnfolds(g, r, k + 6 * r);
    U.OverlapUnfolds(g, r, k + 7 * r);
    U.OverlapUnfolds(g, r, k + 8 * r);
  }

  /** Half a window apart the linear parts of the squares cancel. */
  lemma HannPair(m: Machine, cosine: seq<real>, i: nat)
    requires m.hop > 0 && Hann(m, cosine) && 3.0 * m.norm == 1.0 && i < 4 * m.hop
    ensures Gain(m)[i] + Gain(m)[i + 4 * m.hop] == (0.5 + 0.5 * Reals.Sq(cosine[i])) / 3.0
  {
    PairOfSquares(cosine[i], m.norm);
  }

  lemma PairOfSquares(x: real, norm: real)
    requires 3.0 * norm == 1.0
    ensures norm * ((0.5 - 0.5 * x) * (0.5 - 0.5 * x)) + norm * ((0.5 - 0.5 * -x) * (0.5 - 0.5 * -x)) ==
            (0.5 + 0.5 * Reals.Sq(x)) / 3.0
  {
    assert norm == 1.0 / 3.0;
  }

  /**
   * At zero semitones the shifter is a delay: from silent buffers, with windows whose squares overlap to one under the
   * overlap gain, every output frame is the input frame of exactly N frames before, under the trim.
   */
  lemma ShifterIsDelay(m: Machine, p: S.Shifter, xs: seq<seq<real>>, y: seq<real>, c: nat)
    requires Sound(m) && U.Complete(Gain(m), m.hop) && S.Idle(SetupOf(m), p)
    requires (forall i :: 0 <= i < |xs| ==> |xs[i]| == m.channels) && |y| == m.channels && c < m.channels
    requires p.ratio == 1.0 && S.Zero(p.rotation) && |p.rotation| == Bins(m)
    ensures S.Sound(SetupOf(m)) && S.StateShaped(SetupOf(m), p)
    ensures var q := S.FramesAfter(SetupOf(m), p, xs);
            S.Output(SetupOf(m), q, y)[c] ==
            q.trim.now * if |xs| < Size(m) then 0.0 else S.Entered(xs[|xs| - Size(m)])[c]
  {
    hide TwiddleSteps, UnitSteps, P.Sound, IsPowerOfTwo, S.Sound, TransformOf, Gain, S.FramesAfter, S.Output, S.Idle,
         U.Faithful, U.Complete;
    SetupSound(m);
    SetupFaithful(m);
    U.IdleShaped(SetupOf(m), p);
    U.UnityIsDelay(SetupOf(m), p, xs, y, Gain(m), c);
  }
}
