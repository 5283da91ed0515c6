/**
 * The spectrum of audio_pitchshift_dsp.h: peaks of the combined power, the regions they own, and how each region moves
 * under one rotation.
 */
module PeakRegions {
  import C = ComplexNumbers
  import opened Reals

  const PEAK_FLOOR: real := 0.00000000000001

  // ---------------------------------------------------------------- peaks

  /** The largest power, or zero. */
  function Top(pw: seq<real>, n: nat): (top: real)
    requires n <= |pw|
    ensures top >= 0.0 && forall k :: 0 <= k < n ==> pw[k] <= top
  {
    if n == 0 then 0.0 else Max(Top(pw, n - 1), pw[n - 1])
  }

  /** Above both neighbours on the left, no lower than both on the right, as far as the spectrum reaches. */
  predicate IsPeak(pw: seq<real>, floor: real, k: nat)
    requires k < |pw|
  {
    && pw[k] > floor
    && (k >= 1 ==> pw[k] > pw[k - 1])
    && (k >= 2 ==> pw[k] > pw[k - 2])
    && (k + 1 < |pw| ==> pw[k] >= pw[k + 1])
    && (k + 2 < |pw| ==> pw[k] >= pw[k + 2])
  }

  /** The peaks below bin n, in order. */
  function PeaksBelow(pw: seq<real>, floor: real, n: nat): (peaks: seq<nat>)
    requires n <= |pw|
    ensures forall i :: 0 <= i < |peaks| ==> peaks[i] < n && IsPeak(pw, floor, peaks[i])
    ensures forall i, j :: 0 <= i < j < |peaks| ==> peaks[i] < peaks[j]
    ensures forall k :: 0 <= k < n && IsPeak(pw, floor, k) ==> k in peaks
  {
    if n == 0 then []
    else PeaksBelow(pw, floor, n - 1) + (if IsPeak(pw, floor, n - 1) then [n - 1] else [])
  }

  function Peaks(pw: seq<real>): (peaks: seq<nat>) {
    var top := Top(pw, |pw|);
    if top > 0.0 then PeaksBelow(pw, top * PEAK_FLOOR, |pw|) else []
  }

  method FindTop(pw: seq<real>) returns (top: real)
    ensures top == Top(pw, |pw|)
  {
    top := 0.0;
    for k := 0 to |pw|
      invariant top == Top(pw, k)
    {
      if pw[k] > top {
        top := pw[k];
      }
    }
  }

  /** The search of the source: the spectrum edges have conditions of their own. */
  method ScanPeaks(pw: seq<real>, floor: real) returns (peaks: seq<nat>)
    requires |pw| >= 3
    ensures peaks == PeaksBelow(pw, floor, |pw|)
  {
    hide PeaksBelow;
    var last: nat := |pw| - 1;
    PeaksUnfold(pw, floor, 0);
    peaks := [];
    if pw[0] > floor && pw[0] >= pw[1] && pw[0] >= pw[2] {
      peaks := [0];
    }
    for k := 1 to last
      invariant peaks == PeaksBelow(pw, floor, k)
    {
      PeaksUnfold(pw, floor, k);
      var p := pw[k];
      if p <= floor || p <= pw[k - 1] || p < pw[k + 1] {
      } else if k >= 2 && p <= pw[k - 2] {
      } else if k + 2 <= last && p < pw[k + 2] {
      } else {
        peaks := peaks + [k];
      }
    }
    PeaksUnfold(pw, floor, last);
    if pw[last] > floor && pw[last] > pw[last - 1] && pw[last] > pw[last - 2] {
      peaks := peaks + [last];
    }
  }

  lemma PeaksUnfold(pw: seq<real>, floor: real, k: nat)
    requires k < |pw|
    ensures PeaksBelow(pw, floor, 0) == []
    ensures PeaksBelow(pw, floor, k + 1) == PeaksBelow(pw, floor, k) + if IsPeak(pw, floor, k) then [k] else []
  {
    hide IsPeak;
  }

  method FindPeaks(pw: seq<real>) returns (peaks: seq<nat>)
    requires |pw| >= 3
    ensures peaks == Peaks(pw)
  {
    hide PeaksBelow;
    var top := FindTop(pw);
    peaks := [];
    if top > 0.0 {
      peaks := ScanPeaks(pw, top * PEAK_FLOOR);
    }
  }

  /** The leftmost of the largest powers. */
  lemma {:induction false} LeftmostTop(pw: seq<real>, n: nat) returns (m: nat)
    requires n <= |pw| && Top(pw, n) > 0.0
    ensures m < n && pw[m] == Top(pw, n) && forall k :: 0 <= k < m ==> pw[k] < pw[m]
  {
    if Top(pw, n - 1) >= pw[n - 1] {
      m := LeftmostTop(pw, n - 1);
    } else {
      m := n - 1;
    }
  }

  /** A spectrum with a positive maximum has a peak. */
  lemma PeaksExist(pw: seq<real>)
    requires Top(pw, |pw|) > 0.0
    ensures |Peaks(pw)| > 0
  {
    var m := LeftmostTop(pw, |pw|);
    assert IsPeak(pw, Top(pw, |pw|) * PEAK_FLOOR, m);
    assert m in Peaks(pw);
  }

  lemma PeakDistance(pw: seq<real>, floor: real, p: nat, q: nat)
    requires p < q < |pw| && IsPeak(pw, floor, p) && IsPeak(pw, floor, q)
    ensures q >= p + 3
  {
  }

  /** Peaks are at least three bins apart. */
  lemma PeaksApart(pw: seq<real>, i: nat, j: nat)
    requires i < j < |Peaks(pw)|
    ensures Peaks(pw)[j] >= Peaks(pw)[i] + 3
  {
    hide PeaksBelow, IsPeak, Top;
    PeakDistance(pw, Top(pw, |pw|) * PEAK_FLOOR, Peaks(pw)[i], Peaks(pw)[j]);
  }

  lemma {:induction false} PeaksSpread(pw: seq<real>, i: nat)
    requires i < |Peaks(pw)|
    ensures Peaks(pw)[i] >= 3 * i
  {
    hide Peaks;
    if i > 0 {
      PeaksSpread(pw, i - 1);
      PeaksApart(pw, i - 1, i);
    }
  }

  /** The peaks fit the storage of (bins + 1) / 2 + 1 entries. */
  lemma PeaksFit(pw: seq<real>)
    ensures |Peaks(pw)| <= |pw| / 2 + 1
  {
    if |Peaks(pw)| > 0 {
      PeaksSpread(pw, |Peaks(pw)| - 1);
    }
  }

  // ---------------------------------------------------------------- regions

  /** The leftmost of the lowest bins of from .. end - 1. */
  function Lowest(pw: seq<real>, from: nat, end: nat): (m: nat)
    requires from < end <= |pw|
    ensures from <= m < end
    ensures forall k :: from <= k < end ==> pw[m] <= pw[k]
    ensures forall k :: from <= k < m ==> pw[m] < pw[k]
  {
    if end == from + 1 then from
    else
      var m := Lowest(pw, from, end - 1);
      if pw[end - 1] < pw[m] then end - 1 else m
  }

  method FindLowest(pw: seq<real>, from: nat, end: nat) returns (m: nat)
    requires from < end <= |pw|
    ensures m == Lowest(pw, from, end)
  {
    m := from;
    for k := from + 1 to end
      invariant m == Lowest(pw, from, k)
    {
      if pw[k] < pw[m] {
        m := k;
      }
    }
  }

  /** Peaks of a spectrum, or anything else in order with a bin between neighbours. */
  ghost predicate Spaced(peaks: seq<nat>, bins: nat) {
    && (forall i :: 0 <= i < |peaks| ==> peaks[i] < bins)
    && (forall i, j :: 0 <= i < j < |peaks| ==> peaks[i] + 1 < peaks[j])
  }

  lemma PeaksSpaced(pw: seq<real>)
    ensures Spaced(Peaks(pw), |pw|)
  {
    forall i, j | 0 <= i < j < |Peaks(pw)|
      ensures Peaks(pw)[i] + 1 < Peaks(pw)[j]
    {
      PeaksApart(pw, i, j);
    }
  }

  /** A region ends at the lowest bin before the next peak, the last one at the end of the spectrum. */
  function RegionEnd(pw: seq<real>, peaks: seq<nat>, i: nat): (end: nat)
    requires Spaced(peaks, |pw|) && i < |peaks|
    ensures peaks[i] <= end < |pw|
    ensures i + 1 < |peaks| ==> peaks[i] < end < peaks[i + 1]
    ensures i + 1 == |peaks| ==> end == |pw| - 1
  {
    if i + 1 < |peaks| then Lowest(pw, peaks[i] + 1, peaks[i + 1]) else |pw| - 1
  }

  function RegionStart(pw: seq<real>, peaks: seq<nat>, i: nat): (start: nat)
    requires Spaced(peaks, |pw|) && i < |peaks|
    ensures start <= peaks[i]
  {
    if i == 0 then 0 else RegionEnd(pw, peaks, i - 1) + 1
  }

  /** The region that has bin k, from region i on. */
  function Owner(pw: seq<real>, peaks: seq<nat>, k: nat, i: nat): (o: nat)
    requires Spaced(peaks, |pw|) && i < |peaks| && k < |pw| && RegionStart(pw, peaks, i) <= k
    ensures i <= o < |peaks| && RegionStart(pw, peaks, o) <= k <= RegionEnd(pw, peaks, o)
    decreases |peaks| - i
  {
    if k <= RegionEnd(pw, peaks, i) then i else Owner(pw, peaks, k, i + 1)
  }

  lemma {:induction false} RegionsOrdered(pw: seq<real>, peaks: seq<nat>, i: nat, j: nat)
    requires Spaced(peaks, |pw|) && i < j < |peaks|
    ensures RegionEnd(pw, peaks, i) < RegionStart(pw, peaks, j)
  {
    if j > i + 1 {
      RegionsOrdered(pw, peaks, i, j - 1);
    }
  }

  /** The regions tile the spectrum: every bin has exactly one, and every region its own peak. */
  lemma RegionsTile(pw: seq<real>, peaks: seq<nat>, k: nat, i: nat)
    requires Spaced(peaks, |pw|) && |peaks| > 0 && k < |pw| && i < |peaks|
    ensures RegionStart(pw, peaks, i) <= k <= RegionEnd(pw, peaks, i) <==> i == Owner(pw, peaks, k, 0)
    ensures RegionStart(pw, peaks, i) <= peaks[i] <= RegionEnd(pw, peaks, i)
  {
    var o := Owner(pw, peaks, k, 0);
    if i < o {
      RegionsOrdered(pw, peaks, i, o);
    } else if o < i {
      RegionsOrdered(pw, peaks, o, i);
    }
  }

  // ---------------------------------------------------------------- moving the regions

  type Bin = C.Complex

  const ZERO := C.Complex(0.0, 0.0)

  /** What a move takes from the mathematics library, with the makeup table. */
  datatype Env = Env(pi: real, wrap: real -> real, round: real -> int, cos: real -> real, sin: real -> real,
                     atan2: (real, real) -> real, makeup: real -> real)

  ghost predicate Sound(env: Env) {
    && env.pi > 0.0 && env.round(0.0) == 0
    && forall x :: -env.pi <= env.wrap(x) < env.pi
  }

  function Clamped(x: real, most: real): (r: real)
    requires most >= 0.0
    ensures Abs(x) <= most ==> r == x
    ensures x > most ==> r == most
    ensures x < -most ==> r == -most
  {
    Max(-most, Min(x, most))
  }

  function RealignStep(env: Env): real {
    env.pi / 16.0
  }

  /** The rotation of a region: towards zero at unity ratio, otherwise on with the phase advance of its peak. */
  function Theta(env: Env, ratio: real, before: real, advance: real): real
    requires env.pi >= 0.0
  {
    if ratio == 1.0 then before - Clamped(before, RealignStep(env))
    else env.wrap(before + (ratio - 1.0) * advance)
  }

  datatype Move = Move(start: nat, end: nat, offset: int, theta: real, gain: real)

  /** The frequency, in bins, that advances by this much over a hop. */
  function Frequency(env: Env, advance: real): real
    requires env.pi > 0.0
  {
    advance * 8.0 / (2.0 * env.pi)
  }

  function Displacement(ratio: real, frequency: real): real {
    (ratio - 1.0) * frequency
  }

  /** The move of region i; `advance` is the estimated phase advance of a peak, and frequency is in bins. */
  function MoveOf(env: Env, pw: seq<real>, peaks: seq<nat>, i: nat, ratio: real, rotation: seq<real>,
                  advance: nat -> real): Move
    requires env.pi > 0.0 && Spaced(peaks, |pw|) && i < |peaks| && |rotation| == |pw|
  {
    var p := peaks[i];
    var frequency := if ratio == 1.0 then p as real else Frequency(env, advance(p));
    var move := Displacement(ratio, frequency);
    var offset := env.round(move);
    Move(RegionStart(pw, peaks, i), RegionEnd(pw, peaks, i), offset, Theta(env, ratio, rotation[p], advance(p)),
         if ratio == 1.0 then 1.0 else env.makeup(move - offset as real))
  }

  /** The source bins that stay inside the spectrum. */
  function From(m: Move): int {
    if m.start >= -m.offset then m.start else -m.offset
  }

  function UpTo(m: Move, last: nat): int {
    if m.end <= last - m.offset then m.end else last - m.offset
  }

  function Rotated(env: Env, m: Move, x: Bin): Bin {
    if m.theta == 0.0 && m.gain == 1.0 then x
    else
      var qr, qi := m.gain * env.cos(m.theta), m.gain * env.sin(m.theta);
      C.Complex(x.re * qr - x.im * qi, x.re * qi + x.im * qr)
  }

  function Plus(a: Bin, b: Bin): Bin {
    C.Complex(a.re + b.re, a.im + b.im)
  }

  /** What a move adds to bin k. */
  function Contribution(env: Env, m: Move, x: seq<Bin>, k: nat): Bin
    requires m.end < |x| && k < |x|
  {
    var source := k - m.offset;
    if From(m) <= source <= UpTo(m, |x| - 1) then Rotated(env, m, x[source]) else ZERO
  }

  /** Every bin that a move writes lies inside the spectrum. */
  lemma MoveInRange(m: Move, last: nat, k: int)
    requires m.start <= m.end <= last && From(m) <= k <= UpTo(m, last)
    ensures m.start <= k <= m.end && 0 <= k + m.offset <= last
  {
  }

  ghost predicate MovesFit(ms: seq<Move>, bins: nat) {
    forall i :: 0 <= i < |ms| ==> ms[i].start <= ms[i].end < bins
  }

  /** Bin k of the moved spectrum: regions that overlap are summed. */
  function Summed(env: Env, ms: seq<Move>, x: seq<Bin>, k: nat, n: nat): Bin
    requires n <= |ms| && MovesFit(ms, |x|) && k < |x|
  {
    if n == 0 then ZERO else Plus(Summed(env, ms, x, k, n - 1), Contribution(env, ms[n - 1], x, k))
  }

  /** Add one moved region to a spectrum. */
  method AddMoved(env: Env, m: Move, x: seq<Bin>, y: seq<Bin>) returns (r: seq<Bin>)
    requires m.start <= m.end < |x| == |y|
    ensures |r| == |y| && forall k :: 0 <= k < |y| ==> r[k] == Plus(y[k], Contribution(env, m, x, k))
  {
    hide Rotated;
    r := y;
    var last: nat := |x| - 1;
    var k := From(m);
    assert forall i :: 0 <= i < |y| ==> Plus(y[i], ZERO) == y[i];
    while k <= UpTo(m, last)
      invariant |r| == |y| && From(m) <= k
      invariant forall i :: 0 <= i < |y| ==>
                  r[i] ==
                  if From(m) <= i - m.offset < k && i - m.offset <= UpTo(m, last)
                  then Plus(y[i], Rotated(env, m, x[i - m.offset])) else y[i]
      decreases UpTo(m, last) - k + 1
    {
      MoveInRange(m, last, k);
      r := r[k + m.offset := Plus(r[k + m.offset], Rotated(env, m, x[k]))];
      k := k + 1;
    }
  }

  /** All moves of a spectrum. */
  ghost function Moves(env: Env, pw: seq<real>, peaks: seq<nat>, n: nat, ratio: real, rotation: seq<real>,
                       advance: nat -> real): (ms: seq<Move>)
    requires env.pi > 0.0 && Spaced(peaks, |pw|) && n <= |peaks| && |rotation| == |pw|
    ensures |ms| == n && MovesFit(ms, |pw|)
    ensures forall i :: 0 <= i < n ==> ms[i] == MoveOf(env, pw, peaks, i, ratio, rotation, advance)
  {
    if n == 0 then []
    else
      Moves(env, pw, peaks, n - 1, ratio, rotation, advance)
      + [MoveOf(env, pw, peaks, n - 1, ratio, rotation, advance)]
  }

  /** The rotation of every bin after a frame: that of its region, or none without a peak. */
  function NewRotation(env: Env, pw: seq<real>, ratio: real, rotation: seq<real>, advance: nat -> real): (r: seq<real>)
    requires env.pi > 0.0 && |rotation| == |pw|
    ensures |r| == |pw|
  {
    PeaksSpaced(pw);
    var peaks := Peaks(pw);
    if |peaks| == 0 then Zeros(|pw|)
    else seq(|pw|, k requires 0 <= k < |pw| =>
           MoveOf(env, pw, peaks, Owner(pw, peaks, k, 0), ratio, rotation, advance).theta)
  }

  // ---------------------------------------------------------------- unity ratio

  lemma UnityMove(env: Env, pw: seq<real>, peaks: seq<nat>, i: nat, rotation: seq<real>, advance: nat -> real)
    requires Sound(env) && Spaced(peaks, |pw|) && i < |peaks| && |rotation| == |pw|
    ensures var m := MoveOf(env, pw, peaks, i, 1.0, rotation, advance);
            && m.offset == 0 && m.gain == 1.0
            && m.theta == rotation[peaks[i]] - Clamped(rotation[peaks[i]], RealignStep(env))
  {
    assert (1.0 - 1.0) * (peaks[i] as real) == 0.0;
  }

  lemma {:induction false} UnitySum(env: Env, pw: seq<real>, peaks: seq<nat>, rotation: seq<real>, advance: nat -> real,
                                    x: seq<Bin>, k: nat, n: nat)
    requires Sound(env) && Spaced(peaks, |pw|) && 0 < |peaks| && n <= |peaks| && |rotation| == |pw| == |x| && k < |x|
    requires forall j :: 0 <= j < |rotation| ==> rotation[j] == 0.0
    ensures Summed(env, Moves(env, pw, peaks, |peaks|, 1.0, rotation, advance), x, k, n) ==
            if Owner(pw, peaks, k, 0) < n then x[k] else ZERO
  {
    hide MoveOf, RealignStep, Owner, RegionEnd, Moves, Contribution;
    if n == 0 {
    } else {
      UnitySum(env, pw, peaks, rotation, advance, x, k, n - 1);
      RegionsTile(pw, peaks, k, n - 1);
      UnityContribution(env, pw, peaks, rotation, advance, x, k, n - 1);
    }
  }

  lemma UnityContribution(env: Env, pw: seq<real>, peaks: seq<nat>, rotation: seq<real>, advance: nat -> real,
                          x: seq<Bin>, k: nat, i: nat)
    requires Sound(env) && Spaced(peaks, |pw|) && i < |peaks| && |rotation| == |pw| == |x| && k < |x|
    requires rotation[peaks[i]] == 0.0
    ensures var m := MoveOf(env, pw, peaks, i, 1.0, rotation, advance);
            Contribution(env, m, x, k) ==
            if RegionStart(pw, peaks, i) <= k <= RegionEnd(pw, peaks, i) then x[k] else ZERO
  {
    UnityMove(env, pw, peaks, i, rotation, advance);
    StepPositive(env);
  }

  lemma StepPositive(env: Env)
    requires Sound(env)
    ensures RealignStep(env) > 0.0
  {
  }

  /** With no rotation at unity ratio, the moved spectrum is exactly the spectrum. */
  lemma UnityCopies(env: Env, pw: seq<real>, rotation: seq<real>, advance: nat -> real, x: seq<Bin>, k: nat)
    requires Sound(env) && Top(pw, |pw|) > 0.0 && |rotation| == |pw| == |x| && k < |x|
    requires forall j :: 0 <= j < |rotation| ==> rotation[j] == 0.0
    ensures Spaced(Peaks(pw), |pw|)
    ensures Summed(env, Moves(env, pw, Peaks(pw), |Peaks(pw)|, 1.0, rotation, advance), x, k, |Peaks(pw)|) == x[k]
  {
    hide Moves, Peaks;
    PeaksSpaced(pw);
    PeaksExist(pw);
    UnitySum(env, pw, Peaks(pw), rotation, advance, x, k, |Peaks(pw)|);
  }

  /** Every live frame at unity ratio takes a step of the largest rotation. */
  lemma Realigns(env: Env, pw: seq<real>, rotation: seq<real>, advance: nat -> real, bound: real)
    requires Sound(env) && |rotation| == |pw| && bound >= 0.0
    requires forall k :: 0 <= k < |rotation| ==> Abs(rotation[k]) <= bound
    ensures forall k :: 0 <= k < |pw| ==>
                          Abs(NewRotation(env, pw, 1.0, rotation, advance)[k]) <= Max(0.0, bound - RealignStep(env))
  {
    hide MoveOf, RealignStep, Owner, RegionEnd, Peaks;
    PeaksSpaced(pw);
    StepPositive(env);
    var peaks := Peaks(pw);
    forall k | 0 <= k < |pw|
      ensures Abs(NewRotation(env, pw, 1.0, rotation, advance)[k]) <= Max(0.0, bound - RealignStep(env))
    {
      if |peaks| > 0 {
        UnityMove(env, pw, peaks, Owner(pw, peaks, k, 0), rotation, advance);
      }
    }
  }

  /** The step is a sixteenth of pi, towards zero and no further: a bin takes that of the peak that owns it. */
  lemma RealignStepIs(env: Env, pw: seq<real>, rotation: seq<real>, advance: nat -> real, k: nat)
    requires Sound(env) && |rotation| == |pw| && k < |pw| && |Peaks(pw)| > 0
    ensures Spaced(Peaks(pw), |pw|)
    ensures var was := rotation[Peaks(pw)[Owner(pw, Peaks(pw), k, 0)]];
            var now := NewRotation(env, pw, 1.0, rotation, advance)[k];
            && (Abs(was) <= env.pi / 16.0 ==> now == 0.0)
            && (was > env.pi / 16.0 ==> now == was - env.pi / 16.0)
            && (was < -(env.pi / 16.0) ==> now == was + env.pi / 16.0)
  {
    hide MoveOf, Owner, RegionEnd, Peaks;
    PeaksSpaced(pw);
    UnityMove(env, pw, Peaks(pw), Owner(pw, Peaks(pw), k, 0), rotation, advance);
  }

  /** One live frame at unity ratio: its power spectrum, and an advance that does not matter. */
  datatype Hop = Hop(pw: seq<real>, advance: nat -> real)

  ghost function AfterHops(env: Env, hops: seq<Hop>, rotation: seq<real>): (r: seq<real>)
    requires env.pi > 0.0 && forall i :: 0 <= i < |hops| ==> |hops[i].pw| == |rotation|
    ensures |r| == |rotation|
    decreases |hops|
  {
    if hops == [] then rotation
    else
      var h := hops[|hops| - 1];
      NewRotation(env, h.pw, 1.0, AfterHops(env, hops[..|hops| - 1], rotation), h.advance)
  }

  lemma {:induction false} HopsRealign(env: Env, hops: seq<Hop>, rotation: seq<real>)
    requires Sound(env) && forall i :: 0 <= i < |hops| ==> |hops[i].pw| == |rotation|
    requires forall k :: 0 <= k < |rotation| ==> Abs(rotation[k]) <= env.pi
    ensures forall k :: 0 <= k < |rotation| ==>
                          Abs(AfterHops(env, hops, rotation)[k]) <= Max(0.0, env.pi - |hops| as real * RealignStep(env))
    decreases |hops|
  {
    hide NewRotation, RealignStep;
    if hops == [] {
    } else {
      var h, before := hops[|hops| - 1], hops[..|hops| - 1];
      HopsRealign(env, before, rotation);
      StepPositive(env);
      Realigns(env, h.pw, AfterHops(env, before, rotation), h.advance,
               Max(0.0, env.pi - |before| as real * RealignStep(env)));
      assert |hops| as real * RealignStep(env) == |before| as real * RealignStep(env) + RealignStep(env);
    }
  }

  /** All rotations are zero after 16 live frames at unity ratio. */
  lemma RealignedInSixteen(env: Env, hops: seq<Hop>, rotation: seq<real>, k: nat)
    requires Sound(env) && |hops| >= 16 && forall i :: 0 <= i < |hops| ==> |hops[i].pw| == |rotation|
    requires forall j :: 0 <= j < |rotation| ==> Abs(rotation[j]) <= env.pi
    requires k < |rotation|
    ensures AfterHops(env, hops, rotation)[k] == 0.0
  {
    hide AfterHops, RealignStep;
    HopsRealign(env, hops, rotation);
    SixteenSteps(env, |hops| as real);
  }

  lemma SixteenSteps(env: Env, n: real)
    requires Sound(env) && n >= 16.0
    ensures n * RealignStep(env) >= env.pi
  {
    MulMonotone(16.0, n, RealignStep(env));
  }

  /** Rotations stay within pi: wrapped when shifting, only smaller when realigning. */
  lemma RotationBounded(env: Env, pw: seq<real>, ratio: real, rotation: seq<real>, advance: nat -> real)
    requires Sound(env) && |rotation| == |pw| && forall j :: 0 <= j < |rotation| ==> Abs(rotation[j]) <= env.pi
    ensures forall k :: 0 <= k < |pw| ==> Abs(NewRotation(env, pw, ratio, rotation, advance)[k]) <= env.pi
  {
    if ratio == 1.0 {
      Realigns(env, pw, rotation, advance, env.pi);
      StepPositive(env);
    } else {
      PeaksSpaced(pw);
    }
  }

  // ---------------------------------------------------------------- a whole frame

  /** The combined power of the first c channels at bin k. */
  function PowerOf(xs: seq<seq<Bin>>, k: nat, c: nat): real
    requires c <= |xs| && forall i :: 0 <= i < |xs| ==> k < |xs[i]|
  {
    if c == 0 then 0.0 else PowerOf(xs, k, c - 1) + Sq(xs[c - 1][k].re) + Sq(xs[c - 1][k].im)
  }

  function Powers(xs: seq<seq<Bin>>, bins: nat): (pw: seq<real>)
    requires forall i :: 0 <= i < |xs| ==> |xs[i]| == bins
    ensures |pw| == bins && forall k :: 0 <= k < bins ==> pw[k] == PowerOf(xs, k, |xs|)
  {
    seq(bins, k requires 0 <= k < bins => PowerOf(xs, k, |xs|))
  }

  method ComputePowers(xs: seq<seq<Bin>>, bins: nat) returns (pw: seq<real>)
    requires forall i :: 0 <= i < |xs| ==> |xs[i]| == bins
    ensures pw == Powers(xs, bins)
  {
    pw := [];
    for k := 0 to bins
      invariant |pw| == k && forall j :: 0 <= j < k ==> pw[j] == PowerOf(xs, j, |xs|)
    {
      var p := 0.0;
      for c := 0 to |xs|
        invariant p == PowerOf(xs, k, c)
      {
        p := p + Sq(xs[c][k].re) + Sq(xs[c][k].im);
      }
      pw := pw + [p];
    }
  }

  /** Bin p of the spectra times the conjugate of the previous hop's, summed over the first c channels. */
  function Cross(xs: seq<seq<Bin>>, before: seq<seq<Bin>>, p: nat, c: nat): Bin
    requires c <= |xs| && c <= |before|
    requires forall i :: 0 <= i < c ==> p < |xs[i]| && p < |before[i]|
  {
    if c == 0 then ZERO
    else
      var x, y := xs[c - 1][p], before[c - 1][p];
      Plus(Cross(xs, before, p, c - 1), C.Complex(x.re * y.re + x.im * y.im, x.im * y.re - x.re * y.im))
  }

  /** What a frequency of f bins advances over a hop. */
  function AngleOf(env: Env, f: real): real {
    2.0 * env.pi * f / 8.0
  }

  /** The phase advance of bin p over a hop: the expected advance, corrected by the angle of the cross spectrum. */
  function Advance(env: Env, cross: Bin, p: nat): real {
    var expected := AngleOf(env, p as real);
    if cross == ZERO then expected else expected + env.wrap(env.atan2(cross.im, cross.re) - expected)
  }

  ghost function Advances(env: Env, xs: seq<seq<Bin>>, before: seq<seq<Bin>>, bins: nat): nat -> real
    requires |before| == |xs| && AllBins(xs, bins) && AllBins(before, bins)
  {
    (p: nat) => if p < bins then Advance(env, Cross(xs, before, p, |xs|), p) else 0.0
  }

  method ComputeAdvance(env: Env, xs: seq<seq<Bin>>, before: seq<seq<Bin>>, p: nat, ghost bins: nat)
    returns (advance: real)
    requires |before| == |xs| && AllBins(xs, bins) && AllBins(before, bins) && p < bins
    ensures advance == Advances(env, xs, before, bins)(p)
  {
    var cross := ZERO;
    for c := 0 to |xs|
      invariant cross == Cross(xs, before, p, c)
    {
      var x, y := xs[c][p], before[c][p];
      cross := Plus(cross, C.Complex(x.re * y.re + x.im * y.im, x.im * y.re - x.re * y.im));
    }
    advance := Advance(env, cross, p);
  }

  /** The true frequency never strays from its bin by more than half an overlap's worth of bins. */
  lemma AdvanceNear(env: Env, cross: Bin, p: nat)
    requires Sound(env)
    ensures Abs(Frequency(env, Advance(env, cross, p)) - p as real) <= 4.0
  {
    var tau, a := 2.0 * env.pi, Advance(env, cross, p);
    QuotientTimes(a * 8.0, tau);
    StrayBins(tau, a * 8.0 / tau, p as real, a - tau * p as real / 8.0);
  }

  lemma StrayBins(tau: real, bins: real, p: real, stray: real)
    requires tau > 0.0 && bins * tau == (stray + tau * p / 8.0) * 8.0 && -tau <= 2.0 * stray <= tau
    ensures Abs(bins - p) <= 4.0
  {
    var d := bins - p;
    assert d * tau == bins * tau - tau * p;
    assert d * tau == stray * 8.0;
    CancelLoose(tau, d, 4.0);
    CancelLoose(tau, -4.0, d);
  }

  ghost predicate AllBins(xs: seq<seq<Bin>>, bins: nat) {
    forall c :: 0 <= c < |xs| ==> |xs[c]| == bins
  }

  /** The first n moves, summed in every channel. */
  ghost predicate SummedUpTo(env: Env, ms: seq<Move>, xs: seq<seq<Bin>>, ys: seq<seq<Bin>>, bins: nat, n: nat)
    requires n <= |ms| && MovesFit(ms, bins) && AllBins(xs, bins)
  {
    |ys| == |xs| && AllBins(ys, bins)
    && forall c, k :: 0 <= c < |xs| && 0 <= k < bins ==> ys[c][k] == Summed(env, ms, xs[c], k, n)
  }

  /** Apply one move to every channel. */
  method MoveChannels(env: Env, m: Move, xs: seq<seq<Bin>>, ys: seq<seq<Bin>>, ghost ms: seq<Move>, ghost n: nat,
                      ghost bins: nat)
    returns (r: seq<seq<Bin>>)
    requires n < |ms| && MovesFit(ms, bins) && AllBins(xs, bins) && ms[n] == m && SummedUpTo(env, ms, xs, ys, bins, n)
    ensures SummedUpTo(env, ms, xs, r, bins, n + 1)
  {
    hide Contribution, Plus;
    r := ys;
    for c := 0 to |xs|
      invariant |r| == |xs| && AllBins(r, bins)
      invariant forall i, k :: 0 <= i < c && 0 <= k < bins ==> r[i][k] == Summed(env, ms, xs[i], k, n + 1)
      invariant forall i :: c <= i < |xs| ==> r[i] == ys[i]
    {
      var y := AddMoved(env, m, xs[c], r[c]);
      r := r[c := y];
    }
  }

  ghost predicate RotatedUpTo(env: Env, pw: seq<real>, peaks: seq<nat>, ratio: real, rotation: seq<real>,
                              advance: nat -> real,
                              next: seq<real>, upTo: nat)
    requires env.pi > 0.0 && Spaced(peaks, |pw|) && |peaks| > 0 && |rotation| == |pw|
  {
    |next| == |pw| && upTo <= |pw|
    && forall k :: 0 <= k < upTo ==>
         next[k] == MoveOf(env, pw, peaks, Owner(pw, peaks, k, 0), ratio, rotation, advance).theta
  }

  /** Fill the rotation of a region. */
  method FillRotation(next: seq<real>, start: nat, end: nat, theta: real) returns (r: seq<real>)
    requires start <= end < |next|
    ensures |r| == |next| && forall k :: 0 <= k < |next| ==> r[k] == if start <= k <= end then theta else next[k]
  {
    r := next;
    for k := start to end + 1
      invariant |r| == |next| && forall i :: 0 <= i < |next| ==> r[i] == if start <= i < k then theta else next[i]
    {
      r := r[k := theta];
    }
  }

  lemma RotationFilled(env: Env, pw: seq<real>, peaks: seq<nat>, ratio: real, rotation: seq<real>, advance: nat -> real,
                       next: seq<real>, i: nat, next': seq<real>)
    requires env.pi > 0.0 && Spaced(peaks, |pw|) && i < |peaks| && |rotation| == |pw|
    requires RotatedUpTo(env, pw, peaks, ratio, rotation, advance, next, RegionStart(pw, peaks, i))
    requires |next'| == |pw| && forall k :: 0 <= k < |pw| ==>
               next'[k] == if RegionStart(pw, peaks, i) <= k <= RegionEnd(pw, peaks, i)
                           then MoveOf(env, pw, peaks, i, ratio, rotation, advance).theta else next[k]
    ensures RotatedUpTo(env, pw, peaks, ratio, rotation, advance, next', RegionEnd(pw, peaks, i) + 1)
  {
    hide MoveOf, RegionStart, RegionEnd, Owner;
    StartsAtZero(pw, peaks);
    forall k | 0 <= k < RegionEnd(pw, peaks, i) + 1
      ensures next'[k] == MoveOf(env, pw, peaks, Owner(pw, peaks, k, 0), ratio, rotation, advance).theta
    {
      RegionsTile(pw, peaks, k, i);
    }
  }

  lemma StartsAtZero(pw: seq<real>, peaks: seq<nat>)
    requires Spaced(peaks, |pw|) && |peaks| > 0
    ensures RegionStart(pw, peaks, 0) == 0
  {
  }

  /** The move of region i, from one comparison per bin and the cross spectrum of its peak. */
  method ComputeMove(env: Env, pw: seq<real>, peaks: seq<nat>, i: nat, start: nat, xs: seq<seq<Bin>>,
                     before: seq<seq<Bin>>, ratio: real, rotation: seq<real>) returns (m: Move)
    requires env.pi > 0.0 && Spaced(peaks, |pw|) && i < |peaks| && |rotation| == |pw|
    requires start == RegionStart(pw, peaks, i)
    requires |before| == |xs| && AllBins(xs, |pw|) && AllBins(before, |pw|)
    ensures m == MoveOf(env, pw, peaks, i, ratio, rotation, Advances(env, xs, before, |pw|))
  {
    hide Advances, AllBins, Displacement, Frequency, Theta;
    AdvanceIgnored(env, rotation[peaks[i]], Advances(env, xs, before, |pw|)(peaks[i]));
    var p := peaks[i];
    var end := |pw| - 1;
    if i + 1 < |peaks| {
      end := FindLowest(pw, p + 1, peaks[i + 1]);
    }
    var frequency, advance := p as real, 0.0;
    if ratio != 1.0 {
      advance := ComputeAdvance(env, xs, before, p, |pw|);
      frequency := Frequency(env, advance);
    }
    var move := Displacement(ratio, frequency);
    var offset := env.round(move);
    m := Move(start, end, offset, Theta(env, ratio, rotation[p], advance),
              if ratio == 1.0 then 1.0 else env.makeup(move - offset as real));
  }

  lemma AdvanceIgnored(env: Env, before: real, advance: real)
    requires env.pi > 0.0
    ensures Theta(env, 1.0, before, advance) == Theta(env, 1.0, before, 0.0)
  {
  }

  /** shift(): the moved spectrum of every channel, and the rotation of every bin. */
  method Shift(env: Env, xs: seq<seq<Bin>>, before: seq<seq<Bin>>, bins: nat, ratio: real, rotation: seq<real>)
    returns (ys: seq<seq<Bin>>, next: seq<real>)
    requires Sound(env) && bins >= 3 && |rotation| == bins
    requires |before| == |xs| && AllBins(xs, bins) && AllBins(before, bins)
    ensures var pw, advance := Powers(xs, bins), Advances(env, xs, before, bins);
            && Spaced(Peaks(pw), bins)
            && next == NewRotation(env, pw, ratio, rotation, advance)
            && SummedUpTo(env, Moves(env, pw, Peaks(pw), |Peaks(pw)|, ratio, rotation, advance), xs, ys, bins,
                          |Peaks(pw)|)
  {
    hide MoveOf, Moves, Owner, RegionEnd, RegionStart, Peaks, Advances, PowerOf;
    var pw := ComputePowers(xs, bins);
    PeaksSpaced(pw);
    var peaks := FindPeaks(pw);
    ghost var advance := Advances(env, xs, before, bins);
    ghost var ms := Moves(env, pw, peaks, |peaks|, ratio, rotation, advance);
    ys := seq(|xs|, _ => seq(bins, _ => ZERO));
    next := Zeros(bins);
    if |peaks| > 0 {
      StartsAtZero(pw, peaks);
      var start: nat := 0;
      for i := 0 to |peaks|
        invariant SummedUpTo(env, ms, xs, ys, bins, i)
        invariant i < |peaks| ==> start == RegionStart(pw, peaks, i)
        invariant i == |peaks| ==> start == bins
        invariant RotatedUpTo(env, pw, peaks, ratio, rotation, advance, next, start)
      {
        var m := ComputeMove(env, pw, peaks, i, start, xs, before, ratio, rotation);
        MoveIs(env, pw, peaks, i, ratio, rotation, advance);
        NextStart(pw, peaks, i);
        var next' := FillRotation(next, start, m.end, m.theta);
        RotationFilled(env, pw, peaks, ratio, rotation, advance, next, i, next');
        next := next';
        ys := MoveChannels(env, m, xs, ys, ms, i, bins);
        start := m.end + 1;
      }
      RotationIs(env, pw, ratio, rotation, advance, next);
    }
  }

  /**
   * A silent spectrum has no peaks, moves nothing and forgets every rotation, so the transforms of a silent window add
   * nothing to the output.
   */
  lemma SilentShift(env: Env, xs: seq<seq<Bin>>, before: seq<seq<Bin>>, bins: nat, ratio: real, rotation: seq<real>)
    requires Sound(env) && |rotation| == bins && |before| == |xs| && AllBins(xs, bins) && AllBins(before, bins)
    requires forall c, k :: 0 <= c < |xs| && 0 <= k < bins ==> xs[c][k] == ZERO
    ensures var pw := Powers(xs, bins);
            Peaks(pw) == [] && NewRotation(env, pw, ratio, rotation, Advances(env, xs, before, bins)) == Zeros(bins)
  {
    var pw := Powers(xs, bins);
    forall k | 0 <= k < bins
      ensures pw[k] == 0.0
    {
      NoPower(xs, k, |xs|);
    }
    NoTop(pw, |pw|);
  }

  lemma {:induction false} NoPower(xs: seq<seq<Bin>>, k: nat, c: nat)
    requires c <= |xs| && forall i :: 0 <= i < |xs| ==> k < |xs[i]| && xs[i][k] == ZERO
    ensures PowerOf(xs, k, c) == 0.0
  {
    if c > 0 {
      NoPower(xs, k, c - 1);
    }
  }

  lemma {:induction false} NoTop(pw: seq<real>, n: nat)
    requires n <= |pw| && forall k :: 0 <= k < |pw| ==> pw[k] == 0.0
    ensures Top(pw, n) == 0.0
  {
    if n > 0 {
      NoTop(pw, n - 1);
    }
  }

  lemma MoveIs(env: Env, pw: seq<real>, peaks: seq<nat>, i: nat, ratio: real, rotation: seq<real>, advance: nat -> real)
    requires env.pi > 0.0 && Spaced(peaks, |pw|) && i < |peaks| && |rotation| == |pw|
    ensures var m := MoveOf(env, pw, peaks, i, ratio, rotation, advance);
            m.start == RegionStart(pw, peaks, i) && m.end == RegionEnd(pw, peaks, i)
  {
  }

  lemma NextStart(pw: seq<real>, peaks: seq<nat>, i: nat)
    requires Spaced(peaks, |pw|) && i < |peaks|
    ensures i + 1 < |peaks| ==> RegionStart(pw, peaks, i + 1) == RegionEnd(pw, peaks, i) + 1
    ensures RegionStart(pw, peaks, i) <= RegionEnd(pw, peaks, i)
  {
  }

  lemma RotationIs(env: Env, pw: seq<real>, ratio: real, rotation: seq<real>, advance: nat -> real, next: seq<real>)
    requires env.pi > 0.0 && |rotation| == |pw| && Spaced(Peaks(pw), |pw|) && |Peaks(pw)| > 0
    requires RotatedUpTo(env, pw, Peaks(pw), ratio, rotation, advance, next, |pw|)
    ensures next == NewRotation(env, pw, ratio, rotation, advance)
  {
    hide MoveOf, Owner, Peaks;
  }

  // ---------------------------------------------------------------- where the regions go

  /** lround(): the nearest integer. */
  ghost predicate Nearest(env: Env) {
    forall x :: Abs(env.round(x) as real - x) <= 0.5
  }

  /** A peak at bin p that moves by `offset`, against where frequency f belongs at the ratio. */
  ghost predicate LandsNear(p: nat, offset: int, ratio: real, f: real) {
    var landed := (p + offset) as real;
    Abs((landed - p as real) - (ratio * f - f)) <= 0.5 && Abs(landed - ratio * f) <= Abs(p as real - f) + 0.5
  }

  /**
   * At any other ratio a peak moves to the bin nearest to where its measured frequency belongs, counted from its own
   * bin, so to that frequency times the ratio up to half a bin and the distance of the measured one from the bin.
   */
  lemma MoveNearest(env: Env, pw: seq<real>, peaks: seq<nat>, i: nat, ratio: real, rotation: seq<real>,
                    advance: nat -> real)
    requires Sound(env) && Nearest(env) && Spaced(peaks, |pw|) && i < |peaks| && |rotation| == |pw| && ratio != 1.0
    ensures var m, f := MoveOf(env, pw, peaks, i, ratio, rotation, advance), Frequency(env, advance(peaks[i]));
            && LandsNear(peaks[i], m.offset, ratio, f)
            && exists miss :: Abs(miss) <= 0.5 && m.gain == env.makeup(miss)
                              && (peaks[i] + m.offset) as real + miss == peaks[i] as real + (ratio * f - f)
  {
    var p, f := peaks[i], Frequency(env, advance(peaks[i]));
    hide Frequency, Theta, RegionStart, RegionEnd;
    var move := Displacement(ratio, f);
    DisplacementIs(ratio, f, move, ratio * f);
    var offset := env.round(move);
    var miss := move - offset as real;
    Landed(p, offset, move, ratio * f, f);
    assert MoveOf(env, pw, peaks, i, ratio, rotation, advance).offset == offset;
    assert Abs(miss) <= 0.5 && (p + offset) as real + miss == p as real + (ratio * f - f);
  }

  lemma DisplacementIs(ratio: real, f: real, move: real, shifted: real)
    requires move == Displacement(ratio, f) && shifted == ratio * f
    ensures move == shifted - f
  {
  }

  lemma Landed(p: nat, offset: int, move: real, shifted: real, f: real)
    requires Abs(offset as real - move) <= 0.5 && move == shifted - f
    ensures (p + offset) as real + (move - offset as real) == p as real + (shifted - f)
    ensures Abs(((p + offset) as real - p as real) - (shifted - f)) <= 0.5
    ensures Abs((p + offset) as real - shifted) <= Abs(p as real - f) + 0.5
  {
  }

  /** The part of a spectrum that region i owns arrives whole where no other region lands. */
  lemma {:induction false} RegionArrives(env: Env, ms: seq<Move>, x: seq<Bin>, b: nat, i: nat, n: nat)
    requires n <= |ms| && MovesFit(ms, |x|) && i < |ms| && ms[i].start <= b <= ms[i].end
    requires 0 <= b + ms[i].offset < |x|
    requires forall j :: 0 <= j < |ms| && j != i ==> !Lands(ms[j], b + ms[i].offset, |x|)
    ensures Summed(env, ms, x, b + ms[i].offset, n) == if i < n then Rotated(env, ms[i], x[b]) else ZERO
  {
    hide *;
    var k := b + ms[i].offset;
    SummedNext(env, ms, x, k, n);
    if n > 0 {
      RegionArrives(env, ms, x, b, i, n - 1);
      Fit(ms, |x|, n - 1);
      Fit(ms, |x|, i);
      Arrives(env, ms[n - 1], x, k);
      NothingAdded(Rotated(env, ms[i], x[b]));
      if n - 1 == i {
        OwnArrives(ms[i], b, |x|);
      }
    }
  }

  lemma SummedNext(env: Env, ms: seq<Move>, x: seq<Bin>, k: nat, n: nat)
    requires n <= |ms| && MovesFit(ms, |x|) && k < |x|
    ensures Summed(env, ms, x, k, n) ==
            if n == 0 then ZERO else Plus(Summed(env, ms, x, k, n - 1), Contribution(env, ms[n - 1], x, k))
  {
  }

  lemma Fit(ms: seq<Move>, bins: nat, i: nat)
    requires MovesFit(ms, bins) && i < |ms|
    ensures ms[i].start <= ms[i].end < bins
  {
  }

  lemma NothingAdded(x: Bin)
    ensures Plus(ZERO, x) == x == Plus(x, ZERO) && Plus(ZERO, ZERO) == ZERO
  {
  }

  /** Some bin of the region lands on bin k. */
  ghost predicate Lands(m: Move, k: int, bins: nat) {
    bins > 0 && From(m) <= k - m.offset <= UpTo(m, bins - 1)
  }

  lemma Arrives(env: Env, m: Move, x: seq<Bin>, k: nat)
    requires m.start <= m.end < |x| && k < |x|
    ensures Lands(m, k, |x|) ==> 0 <= k - m.offset < |x|
    ensures Contribution(env, m, x, k) == if Lands(m, k, |x|) then Rotated(env, m, x[k - m.offset]) else ZERO
  {
    hide Rotated;
  }

  lemma OwnArrives(m: Move, b: nat, bins: nat)
    requires m.start <= b <= m.end < bins && 0 <= b + m.offset < bins
    ensures Lands(m, b + m.offset, bins)
  {
  }

  /** Whatever arrives is turned by the rotation of its region and scaled by its gain: a complex product. */
  lemma RotatedIs(env: Env, m: Move, x: Bin)
    requires env.cos(0.0) == 1.0 && env.sin(0.0) == 0.0
    ensures Rotated(env, m, x) == C.Mul(x, C.Complex(m.gain * env.cos(m.theta), m.gain * env.sin(m.theta)))
  {
  }

  // ---------------------------------------------------------------- a stationary partial

  /** wrap() takes off whole turns, and atan2() is an angle of its point. */
  ghost predicate Trigonometric(env: Env) {
    && (forall x :: exists k: int :: LessTurns(env, env.wrap(x), x, k))
    && (forall r, a :: r > 0.0 ==> exists k: int :: LessTurns(env, Atan2(env, r, a), a, k))
    && (forall a :: Sq(env.cos(a)) + Sq(env.sin(a)) == 1.0)
  }

  /** a is b less k whole turns. */
  ghost predicate LessTurns(env: Env, a: real, b: real, k: int) {
    a == b - k as real * (2.0 * env.pi)
  }

  /** The point at distance r in direction a, and the angle that it is given. */
  function Polar(env: Env, r: real, a: real): Bin {
    C.Complex(r * env.cos(a), r * env.sin(a))
  }

  function Atan2(env: Env, r: real, a: real): real {
    env.atan2(Polar(env, r, a).im, Polar(env, r, a).re)
  }

  /** Over one hop, bin p has turned by the angle a in every channel. */
  ghost predicate Turned(env: Env, xs: seq<seq<Bin>>, before: seq<seq<Bin>>, p: nat, a: real, n: nat) {
    && n <= |xs| && n <= |before|
    && forall c :: 0 <= c < n ==>
         p < |xs[c]| && p < |before[c]| && xs[c][p] == C.Mul(before[c][p], C.Complex(env.cos(a), env.sin(a)))
  }

  /** The cross spectrum then points in the direction of that angle. */
  lemma {:induction false} CrossTurned(env: Env, xs: seq<seq<Bin>>, before: seq<seq<Bin>>, p: nat, a: real, n: nat)
    requires Turned(env, xs, before, p, a, n) && forall i :: 0 <= i < |before| ==> p < |before[i]|
    ensures Cross(xs, before, p, n) == Polar(env, PowerOf(before, p, n), a)
  {
    if n > 0 {
      CrossTurned(env, xs, before, p, a, n - 1);
      CrossTerm(before[n - 1][p], env.cos(a), env.sin(a), PowerOf(before, p, n - 1), PowerOf(before, p, n));
    }
  }

  lemma CrossTerm(y: Bin, c: real, s: real, r: real, r': real)
    requires r' == r + Sq(y.re) + Sq(y.im)
    ensures var x := C.Mul(y, C.Complex(c, s));
            && r * c + (x.re * y.re + x.im * y.im) == r' * c
            && r * s + (x.im * y.re - x.re * y.im) == r' * s
  {
  }

  /** Two angles within half a turn of a third that differ by whole turns are the same. */
  lemma SameAngle(env: Env, a: real, b: real, near: real, k: int)
    requires env.pi > 0.0 && LessTurns(env, a, b, k)
    requires -env.pi <= a - near <= env.pi && -env.pi < b - near < env.pi
    ensures a == b
  {
    var tau, n := 2.0 * env.pi, k as real;
    if k > 0 {
      MulMonotone(1.0, n, tau);
      TurnOff(a, b, near, tau, n * tau);
    } else if k < 0 {
      MulMonotone(n, -1.0, tau);
      TurnOff(b, a, near, tau, -(n * tau));
    }
  }

  /** A whole turn or more does not fit in between. */
  lemma TurnOff(a: real, b: real, near: real, tau: real, turns: real)
    requires tau > 0.0 && turns >= tau && a == b - turns
    requires Abs(a - near) <= tau / 2.0 && Abs(b - near) <= tau / 2.0
    ensures Abs(a - near) == Abs(b - near) == tau / 2.0
  {
  }

  /** Bin p belongs to a partial of frequency f: it has power, and turns by what f turns over a hop. */
  ghost predicate Stationary(env: Env, xs: seq<seq<Bin>>, before: seq<seq<Bin>>, p: nat, f: real) {
    && Abs(f - p as real) < 4.0 && |before| == |xs| && (forall i :: 0 <= i < |before| ==> p < |before[i]|)
    && Turned(env, xs, before, p, AngleOf(env, f), |xs|) && PowerOf(before, p, |xs|) > 0.0
  }

  /**
   * The measured frequency of a stationary partial is its own: if every channel of a peak with power turns by what a
   * frequency of f bins turns over a hop, and f is less than half an overlap from the peak, the frequency is f.
   */
  lemma FrequencyMeasured(env: Env, xs: seq<seq<Bin>>, before: seq<seq<Bin>>, bins: nat, p: nat, f: real)
    requires Sound(env) && Trigonometric(env) && |before| == |xs| && AllBins(xs, bins) && AllBins(before, bins)
    requires p < bins && Stationary(env, xs, before, p, f)
    ensures Frequency(env, Advances(env, xs, before, bins)(p)) == f
  {
    hide Cross, PowerOf, Trigonometric, Frequency, Turned, Sound, AngleOf, Advance;
    CrossTurned(env, xs, before, p, AngleOf(env, f), |xs|);
    AngleBins(env, f, p as real);
    AdvanceTurned(env, PowerOf(before, p, |xs|), AngleOf(env, f), p);
    BinsOfAngle(env, f);
  }

  /** The advance of a cross spectrum in direction a, near the expected one, is a. */
  lemma AdvanceTurned(env: Env, r: real, a: real, p: nat)
    requires Sound(env) && Trigonometric(env) && r > 0.0 && -env.pi < a - AngleOf(env, p as real) < env.pi
    ensures Advance(env, Polar(env, r, a), p) == a
  {
    hide Sound, Trigonometric, LessTurns, AngleOf, Polar;
    var expected, angle := AngleOf(env, p as real), Atan2(env, r, a);
    var j := Angle(env, r, a);
    var k := Wrapped(env, angle - expected);
    TurnsAdd(env, env.wrap(angle - expected), angle, a, expected, j, k);
    SameAngle(env, Advance(env, Polar(env, r, a), p), a, expected, j + k);
  }

  lemma Angle(env: Env, r: real, a: real) returns (j: int)
    requires Trigonometric(env) && r > 0.0
    ensures LessTurns(env, Atan2(env, r, a), a, j) && Polar(env, r, a) != ZERO
  {
    NotNothing(r, env.cos(a), env.sin(a), Polar(env, r, a).re, Polar(env, r, a).im);
    hide Polar;
    j :| LessTurns(env, Atan2(env, r, a), a, j);
  }

  lemma Wrapped(env: Env, x: real) returns (k: int)
    requires Sound(env) && Trigonometric(env)
    ensures LessTurns(env, env.wrap(x), x, k) && -env.pi <= env.wrap(x) < env.pi && env.pi > 0.0
  {
    k :| LessTurns(env, env.wrap(x), x, k);
  }

  lemma TurnsAdd(env: Env, wrapped: real, angle: real, a: real, expected: real, j: int, k: int)
    requires LessTurns(env, angle, a, j) && LessTurns(env, wrapped, angle - expected, k)
    ensures LessTurns(env, expected + wrapped, a, j + k)
  {
    assert (j + k) as real * (2.0 * env.pi) == j as real * (2.0 * env.pi) + k as real * (2.0 * env.pi);
  }

  lemma NotNothing(r: real, c: real, s: real, x: real, y: real)
    requires r > 0.0 && Sq(c) + Sq(s) == 1.0 && x == r * c && y == r * s
    ensures C.Complex(x, y) != ZERO
  {
    SqProduct(r, c);
    SqProduct(r, s);
    SqPositive(r);
    SumOfSquares(Sq(r), Sq(c), Sq(s), Sq(x), Sq(y));
  }

  lemma SumOfSquares(r: real, c: real, s: real, x: real, y: real)
    requires r > 0.0 && c + s == 1.0 && x == r * c && y == r * s
    ensures x + y > 0.0
  {
    assert x + y == r * (c + s);
  }

  lemma AngleBins(env: Env, f: real, p: real)
    requires Sound(env) && Abs(f - p) < 4.0
    ensures -env.pi < AngleOf(env, f) - AngleOf(env, p) < env.pi
  {
    var w, x := env.pi / 4.0, f - p;
    ProductPositive(4.0 - x, w);
    ProductPositive(x + 4.0, w);
    Difference(w, f, p, x, AngleOf(env, f) - AngleOf(env, p));
  }

  lemma Difference(w: real, f: real, p: real, x: real, d: real)
    requires x == f - p && d == w * f - w * p && (4.0 - x) * w > 0.0 && (x + 4.0) * w > 0.0
    ensures -(4.0 * w) < d < 4.0 * w
  {
    assert d == w * x;
    assert (4.0 - x) * w == 4.0 * w - w * x && (x + 4.0) * w == w * x + 4.0 * w;
  }

  lemma BinsOfAngle(env: Env, f: real)
    requires Sound(env)
    ensures Frequency(env, AngleOf(env, f)) == f
  {
    var tau, a := 2.0 * env.pi, AngleOf(env, f);
    QuotientTimes(a * 8.0, tau);
    CancelLoose(tau, a * 8.0 / tau, f);
    CancelLoose(tau, f, a * 8.0 / tau);
  }

  /** So a stationary partial moves to the bin nearest to where it belongs at the new ratio. */
  lemma PartialMoves(env: Env, xs: seq<seq<Bin>>, before: seq<seq<Bin>>, bins: nat, pw: seq<real>, peaks: seq<nat>,
                     i: nat, ratio: real, rotation: seq<real>, f: real)
    requires Sound(env) && Nearest(env) && Trigonometric(env) && ratio != 1.0 && |rotation| == |pw| == bins
    requires |before| == |xs| && AllBins(xs, bins) && AllBins(before, bins)
    requires Spaced(peaks, bins) && i < |peaks| && Stationary(env, xs, before, peaks[i], f)
    ensures var m := MoveOf(env, pw, peaks, i, ratio, rotation, Advances(env, xs, before, bins));
            LandsNear(peaks[i], m.offset, ratio, f)
  {
    hide Trigonometric, Sound, Nearest, MoveOf, Advance, Frequency, Cross, LandsNear, Stationary;
    FrequencyMeasured(env, xs, before, bins, peaks[i], f);
    MoveNearest(env, pw, peaks, i, ratio, rotation, Advances(env, xs, before, bins));
  }

  /**
   * And its phase goes on: at another ratio, the turn of a peak over a hop and of its rotation come to the ratio times
   * the turn, up to whole turns.
   */
  lemma PhaseGoesOn(env: Env, ratio: real, before: real, advance: real) returns (k: int)
    requires Sound(env) && Trigonometric(env) && ratio != 1.0
    ensures LessTurns(env, advance + (Theta(env, ratio, before, advance) - before), ratio * advance, k)
  {
    var x := before + (ratio - 1.0) * advance;
    k := Wrapped(env, x);
    assert (ratio - 1.0) * advance == ratio * advance - advance;
  }
}
