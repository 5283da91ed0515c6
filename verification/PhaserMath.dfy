/** AudioPhaser: coefficients, contraction rate and the per-frame processor of audio_phaser_dsp.h. */
module PhaserMath {
  import opened Reals
  import opened Lattice
  import opened Ramps

  const MAX_FEEDBACK: real := 0.8
  const STAGES: nat := 6

  // ---------------------------------------------------------------- coefficients

  /** k for r = sqrt(tan(pi corner / rate)), so that t = r^2. */
  function KOf(r: real): real {
    Positive(r);
    (1.0 - Sq(r)) / (1.0 + Sq(r))
  }

  function QOf(r: real): real {
    Positive(r);
    2.0 * r / (1.0 + Sq(r))
  }

  lemma Positive(r: real)
    ensures 1.0 + Sq(r) > 0.0
  {
  }

  /** k^2 + q^2 = 1 for every corner. */
  lemma Orthogonal(r: real)
    ensures Normalised(KOf(r), QOf(r))
  {
    var n := 1.0 + Sq(r);
    QuotientTimes(1.0 - Sq(r), n);
    QuotientTimes(2.0 * r, n);
    SquaresSum(KOf(r), QOf(r), n, r);
  }

  lemma SquaresSum(k: real, q: real, n: real, r: real)
    requires n > 0.0 && n == 1.0 + Sq(r) && k * n == 1.0 - Sq(r) && q * n == 2.0 * r
    ensures Normalised(k, q)
  {
    var e := Sq(k) + Sq(q);
    assert e * Sq(n) == Sq(k * n) + Sq(q * n);
    assert Sq(1.0 - Sq(r)) + Sq(2.0 * r) == Sq(1.0 + Sq(r));
    assert (e - 1.0) * Sq(n) == 0.0;
    ProductPositive(n, n);
    ZeroFactor(e - 1.0, Sq(n));
  }

  /**
   * At the corner a stage turns the phase by -90 degrees.  With t = r^2 the tangent of half the corner's angle, and so
   * c and s its cosine and sine, z^-1 is c - i s there; the claim is z^-1 - k = -i (1 - k z^-1), part by part.
   */
  lemma QuarterTurn(r: real, c: real, s: real)
    requires c * (1.0 + Sq(Sq(r))) == 1.0 - Sq(Sq(r)) && s * (1.0 + Sq(Sq(r))) == 2.0 * Sq(r)
    ensures c - KOf(r) == KOf(r) * s && s == 1.0 - KOf(r) * c
  {
    var t, k := Sq(r), KOf(r);
    QuotientTimes(1.0 - t, 1.0 + t);
    hide Sq;
    TurnedPart(t, k, c, s);
  }

  lemma TurnedPart(t: real, k: real, c: real, s: real)
    requires t >= 0.0 && k * (1.0 + t) == 1.0 - t
    requires c * (1.0 + Sq(t)) == 1.0 - Sq(t) && s * (1.0 + Sq(t)) == 2.0 * t
    ensures c - k == k * s && s == 1.0 - k * c
  {
    var n := 1.0 + Sq(t);
    var e, f := c - k - k * s, s - 1.0 + k * c;
    assert e * n == c * n - k * n - k * (s * n);
    assert k * n + k * (2.0 * t) == (k * (1.0 + t)) * (1.0 + t);
    assert f * n == s * n - n + k * (c * n);
    assert k * (1.0 - Sq(t)) == (k * (1.0 + t)) * (1.0 - t);
    ZeroFactor(e, n);
    ZeroFactor(f, n);
  }

  /** A higher corner has a smaller k. */
  lemma KFalls(a: real, b: real)
    requires 0.0 <= a <= b
    ensures KOf(b) <= KOf(a)
  {
    SqMonotone(a, b);
    QuotientsOrdered(1.0 - Sq(b), 1.0 + Sq(b), 1.0 - Sq(a), 1.0 + Sq(a));
  }

  lemma ZeroFactor(a: real, b: real)
    requires a * b == 0.0 && b > 0.0
    ensures a == 0.0
  {
  }

  /** q falls on both sides of its peak at r = 1, so it is smallest at an end of any range of corners. */
  lemma QSmallestAtEnds(low: real, r: real, high: real)
    requires 0.0 < low <= r <= high
    ensures Min(QOf(low), QOf(high)) <= QOf(r)
  {
    hide QOf;
    if low * r <= 1.0 {
      ProductSign(r - low, 1.0 - low * r);
      QOrdered(low, r);
    } else {
      LargerProduct(low, r, high);
      ProductSign(high - r, high * r - 1.0);
      assert (r - high) * (1.0 - high * r) == (high - r) * (high * r - 1.0);
      QOrdered(high, r);
    }
  }

  lemma LargerProduct(low: real, r: real, high: real)
    requires 0.0 < low <= r <= high && low * r > 1.0
    ensures high * r > 1.0
  {
    MulMonotone(low, high, r);
    Above(1.0, low * r, high * r);
  }

  lemma QOrdered(a: real, r: real)
    requires a > 0.0 && r > 0.0 && (r - a) * (1.0 - a * r) >= 0.0
    ensures QOf(a) <= QOf(r)
  {
    var n, m := 1.0 + Sq(a), 1.0 + Sq(r);
    CrossedDifference(a, r);
    hide Sq;
    QuotientsOrdered(2.0 * a, n, 2.0 * r, m);
  }

  lemma CrossedDifference(a: real, r: real)
    ensures 2.0 * r * (1.0 + Sq(a)) - 2.0 * a * (1.0 + Sq(r)) == 2.0 * ((r - a) * (1.0 - a * r))
  {
  }

  lemma QuotientsOrdered(a: real, n: real, b: real, m: real)
    requires n > 0.0 && m > 0.0 && a * m <= b * n
    ensures a / n <= b / m
  {
    var x, y := a / n, b / m;
    QuotientTimes(a, n);
    QuotientTimes(b, m);
    ProductPositive(n, m);
    assert x * (n * m) == (x * n) * m && y * (n * m) == (y * m) * n;
    CancelLoose(n * m, x, y);
  }

  lemma QPositive(r: real)
    requires r > 0.0
    ensures 0.0 < QOf(r) <= 1.0
  {
    var n := 1.0 + Sq(r);
    QuotientTimes(2.0 * r, n);
    assert n - 2.0 * r == Sq(1.0 - r);
    CancelStrict(n, 0.0, QOf(r));
    CancelLoose(n, QOf(r), 1.0);
  }

  // ---------------------------------------------------------------- the contraction rate

  /** rho is e to the power of minus LogRate. */
  datatype Contraction = Contraction(rho: real, weight: real)

  function CappedSquare(feedback: real): (g2: real)
    ensures 0.0 <= g2 <= 0.64
  {
    Min(Sq(feedback), MAX_FEEDBACK * MAX_FEEDBACK)
  }

  /** d of the header comment. */
  function WeightStep(feedback: real): real {
    var g2 := CappedSquare(feedback);
    if g2 > 0.0 then Min(10.0, 0.9 * (1.0 - g2) / (6.5 * g2)) else 10.0
  }

  /** g^2 (a_1 + d / 2) = g^2 (1 + 6.5 d) is at most 0.9 + 0.1 g^2. */
  lemma StepFits(feedback: real)
    ensures var g2, d := CappedSquare(feedback), WeightStep(feedback);
            0.0 < d <= 10.0 && g2 * (1.0 + 6.5 * d) <= 0.9 + 0.1 * g2
  {
    var g2, d := CappedSquare(feedback), WeightStep(feedback);
    if g2 > 0.0 {
      var n := 6.5 * g2;
      var x := 0.9 * (1.0 - g2) / n;
      QuotientTimes(0.9 * (1.0 - g2), n);
      CancelStrict(n, 0.0, x);
      MulMonotone(d, x, n);
    }
  }

  /** It is the largest such step, up to 10. */
  lemma StepLargest(feedback: real, d: real)
    requires d <= 10.0 && CappedSquare(feedback) * (1.0 + 6.5 * d) <= 0.9 + 0.1 * CappedSquare(feedback)
    ensures d <= WeightStep(feedback)
  {
    var g2 := CappedSquare(feedback);
    if g2 > 0.0 {
      var n, x := 6.5 * g2, 0.9 * (1.0 - g2) / (6.5 * g2);
      QuotientTimes(0.9 * (1.0 - g2), n);
      assert d * n == g2 * (1.0 + 6.5 * d) - g2;
      CancelLoose(n, d, x);
    }
  }

  function PhaserContraction(least: real, feedback: real): Contraction
  {
    StepFits(feedback);
    var g2, d := CappedSquare(feedback), WeightStep(feedback);
    var weight := 1.0 + 6.0 * d;
    var state := 1.0 - d * Sq(least) / (4.0 * weight);
    var loop := if g2 > 0.0 then g2 * (1.0 + 6.5 * d) else state;
    Contraction(Max(state, loop), weight)
  }

  /** The rate holds for the lattice, and it contracts. */
  lemma ContractionHolds(least: real, feedback: real, most: real)
    requires 0.0 < least <= 1.0 && Sq(most) <= CappedSquare(feedback)
    ensures WeightStep(feedback) > 0.0
    ensures var c, d := PhaserContraction(least, feedback), WeightStep(feedback);
            && c.weight == Weight(STAGES, 0, d) >= 1.0
            && StateFactor(c.weight, d, least) <= c.rho && LoopFactor(c.weight, d, most) <= c.rho
            && 0.9 < c.rho < 1.0
  {
    hide CappedSquare, WeightStep, Mul, Sq, StateFactor, PhaserContraction;
    var g2, d := CappedSquare(feedback), WeightStep(feedback);
    var weight := 1.0 + 6.0 * d;
    StepFits(feedback);
    var state, loop := StateFactor(weight, d, least), g2 * (1.0 + 6.5 * d);
    StateBelowOne(d, weight, least);
    LoopBelow(g2, d, loop);
    LoopScaled(Sq(most), g2, d, loop);
    RhoIs(least, feedback, state, loop);
  }

  /** Without feedback the loop term is zero and leaves the state term to set the rate. */
  lemma RhoIs(least: real, feedback: real, state: real, loop: real)
    requires var g2, d := CappedSquare(feedback), WeightStep(feedback);
             d > 0.0 && state == StateFactor(1.0 + 6.0 * d, d, least) > 0.0 && loop == g2 * (1.0 + 6.5 * d)
    ensures PhaserContraction(least, feedback) == Contraction(Max(state, loop), 1.0 + 6.0 * WeightStep(feedback))
  {
    hide WeightStep, Sq;
    if CappedSquare(feedback) <= 0.0 {
      assert loop == 0.0;
    }
  }

  /** The weight step falls as the feedback grows, so it is smallest at the largest feedback. */
  lemma StepFalls(feedback: real)
    requires Abs(feedback) <= MAX_FEEDBACK
    ensures WeightStep(MAX_FEEDBACK) <= WeightStep(feedback)
  {
    LargestSquare();
    var g2 := CappedSquare(feedback);
    if g2 > 0.0 {
      hide CappedSquare, Sq;
      QuotientsOrdered(0.9 * (1.0 - 0.64), 6.5 * 0.64, 0.9 * (1.0 - g2), 6.5 * g2);
    }
  }

  lemma LargestSquare()
    ensures CappedSquare(MAX_FEEDBACK) == 0.64
  {
  }

  /** a_1 at the largest feedback. */
  function BaseWeight(): real {
    1.0 + 6.0 * WeightStep(MAX_FEEDBACK)
  }

  lemma BaseWeightIs()
    ensures 1.4672 < BaseWeight() < 1.4674
  {
    LargestSquare();
  }

  lemma LoopScaled(m2: real, g2: real, d: real, loop: real)
    requires m2 <= g2 && d > 0.0 && loop == g2 * (1.0 + 6.5 * d)
    ensures Mul(m2, 1.0 + 6.0 * d + d / 2.0) <= loop
  {
    MulOrdered(1.0 + 6.0 * d + d / 2.0, m2, g2);
  }

  lemma LoopBelow(g2: real, d: real, loop: real)
    requires 0.0 <= g2 <= 0.64 && g2 * (1.0 + 6.5 * d) <= 0.9 + 0.1 * g2 && loop == g2 * (1.0 + 6.5 * d)
    ensures loop < 1.0
  {
  }

  lemma QuotientRange(x: real, n: real, b: real, f: real)
    requires x > 0.0 && n > 0.0 && x < b * n && f == x / n
    ensures 0.0 < f < b
  {
    QuotientTimes(x, n);
    CancelStrict(n, 0.0, f);
    CancelStrict(n, f, b);
  }

  lemma StateBelowOne(d: real, weight: real, least: real)
    requires d > 0.0 && weight == 1.0 + 6.0 * d && 0.0 < least <= 1.0
    ensures 0.9 < StateFactor(weight, d, least) < 1.0
  {
    var q2 := Sq(least);
    var x := d * q2;
    hide Sq;
    SqPositive(least);
    SqMonotone(least, 1.0);
    OneSquare();
    ProductIs(d, q2, x);
    MulMonotone(q2, 1.0, d);
    QuotientRange(x, 4.0 * weight, 0.1, 1.0 - StateFactor(weight, d, least));
  }

  lemma OneSquare()
    ensures Sq(1.0) == 1.0
  {
  }

  // ---------------------------------------------------------------- smoothed values

  datatype Values = Values(increment: real, centre: real, octaves: real, gain: real, mix: real)

  datatype Ramp = Ramp(now: Values, end: Values, step: Values, left: nat, frames: nat)

  function Stepped(a: Values, step: Values): Values {
    Values(a.increment + step.increment, a.centre + step.centre, a.octaves + step.octaves, a.gain + step.gain,
           a.mix + step.mix)
  }

  /** One frame of the linear ramps, which end on their targets exactly. */
  function Advance(r: Ramp): Ramp {
    if r.left == 0 then r
    else if r.left > 1 then r.(now := Stepped(r.now, r.step), left := r.left - 1)
    else r.(now := r.end, left := 0)
  }

  /** update(): every value ramps from where it is. */
  function Retarget(r: Ramp, target: Values): Ramp
    requires r.frames > 0
  {
    var a := r.now;
    Ramp(a, target,
         Values(StepTo(a.increment, target.increment, r.frames), StepTo(a.centre, target.centre, r.frames),
                StepTo(a.octaves, target.octaves, r.frames), StepTo(a.gain, target.gain, r.frames),
                StepTo(a.mix, target.mix, r.frames)),
         r.frames, r.frames)
  }

  ghost predicate Ramping(r: Ramp) {
    && OnLine(r.now.increment, r.end.increment, r.step.increment, r.left)
    && OnLine(r.now.centre, r.end.centre, r.step.centre, r.left)
    && OnLine(r.now.octaves, r.end.octaves, r.step.octaves, r.left)
    && OnLine(r.now.gain, r.end.gain, r.step.gain, r.left)
    && OnLine(r.now.mix, r.end.mix, r.step.mix, r.left)
    && r.frames > 0
  }

  lemma RampNext(r: Ramp)
    requires Ramping(r)
    ensures Ramping(Advance(r))
  {
    hide OnLine;
    if r.left > 1 {
      LineNext(r.now.increment, r.end.increment, r.step.increment, r.left);
      LineNext(r.now.centre, r.end.centre, r.step.centre, r.left);
      LineNext(r.now.octaves, r.end.octaves, r.step.octaves, r.left);
      LineNext(r.now.gain, r.end.gain, r.step.gain, r.left);
      LineNext(r.now.mix, r.end.mix, r.step.mix, r.left);
    } else if r.left == 1 {
      LineDone(r.end.increment, r.step.increment);
      LineDone(r.end.centre, r.step.centre);
      LineDone(r.end.octaves, r.step.octaves);
      LineDone(r.end.gain, r.step.gain);
      LineDone(r.end.mix, r.step.mix);
    }
  }

  lemma RampStarts(r: Ramp, target: Values)
    requires r.frames > 0
    ensures Ramping(Retarget(r, target))
  {
    hide OnLine, StepTo;
    LineStart(r.now.increment, target.increment, r.frames);
    LineStart(r.now.centre, target.centre, r.frames);
    LineStart(r.now.octaves, target.octaves, r.frames);
    LineStart(r.now.gain, target.gain, r.frames);
    LineStart(r.now.mix, target.mix, r.frames);
  }

  ghost function RampAfter(r: Ramp, n: nat): Ramp {
    if n == 0 then r else Advance(RampAfter(r, n - 1))
  }

  /** Every value of v is n / m of the way from a to b. */
  ghost predicate AllAlong(a: Values, b: Values, v: Values, n: nat, m: nat) {
    && Along(a.increment, b.increment, v.increment, n, m) && Along(a.centre, b.centre, v.centre, n, m)
    && Along(a.octaves, b.octaves, v.octaves, n, m) && Along(a.gain, b.gain, v.gain, n, m)
    && Along(a.mix, b.mix, v.mix, n, m)
  }

  lemma AllAlongStarts(a: Values, b: Values, m: nat)
    ensures AllAlong(a, b, a, 0, m)
  {
  }

  lemma AllAlongNext(r: Ramp, target: Values, v: Values, n: nat)
    requires n < r.frames && AllAlong(r.now, target, v, n, r.frames)
    ensures AllAlong(r.now, target, Stepped(v, Retarget(r, target).step), n + 1, r.frames)
    ensures AllAlong(r.now, target, target, r.frames, r.frames)
  {
    hide StepTo, Along;
    var a, m := r.now, r.frames;
    AlongNext(a.increment, target.increment, v.increment, n, m);
    AlongNext(a.centre, target.centre, v.centre, n, m);
    AlongNext(a.octaves, target.octaves, v.octaves, n, m);
    AlongNext(a.gain, target.gain, v.gain, n, m);
    AlongNext(a.mix, target.mix, v.mix, n, m);
  }

  /** n frames after an edit, every value is n / frames of the way to its target, which it reaches and keeps. */
  lemma {:induction false} RampRuns(r: Ramp, target: Values, n: nat)
    requires r.frames > 0
    ensures var p := RampAfter(Retarget(r, target), n);
            && p == Ramp(p.now, target, Retarget(r, target).step, Left(r.frames, n), r.frames)
            && if n < r.frames then AllAlong(r.now, target, p.now, n, r.frames) else p.now == target
  {
    hide StepTo, AllAlong, Stepped;
    if n == 0 {
      AllAlongStarts(r.now, target, r.frames);
    } else {
      RampRuns(r, target, n - 1);
      if n - 1 < r.frames {
        AllAlongNext(r, target, RampAfter(Retarget(r, target), n - 1).now, n - 1);
      }
    }
  }

  // ---------------------------------------------------------------- bounds over a ramp

  /** Between which octaves a ramp keeps the swept corner, and the feedback it stays within. */
  datatype Bounds = Bounds(low: real, high: real, most: real)

  ghost predicate Inside(v: Values, b: Bounds) {
    b.low <= v.centre - v.octaves && v.centre + v.octaves <= b.high && v.octaves >= 0.0 && Abs(v.gain) <= b.most
  }

  ghost predicate Within(r: Ramp, b: Bounds) {
    Ramping(r) && Inside(r.now, b) && Inside(r.end, b)
  }

  /** refresh_bounds() */
  function RampBounds(r: Ramp): Bounds {
    Bounds(Min(r.now.centre - r.now.octaves, r.end.centre - r.end.octaves),
           Max(r.now.centre + r.now.octaves, r.end.centre + r.end.octaves),
           Max(Abs(r.now.gain), Abs(r.end.gain)))
  }

  lemma WithinStarts(r: Ramp, target: Values)
    requires r.frames > 0 && r.now.octaves >= 0.0 && target.octaves >= 0.0
    ensures Within(Retarget(r, target), RampBounds(Retarget(r, target)))
  {
    hide OnLine, StepTo;
    RampStarts(r, target);
  }

  /** The bounds of refresh_bounds() hold on every frame of the ramp. */
  lemma WithinKept(r: Ramp, b: Bounds)
    requires Within(r, b)
    ensures Within(Advance(r), b)
  {
    RampNext(r);
    if r.left > 1 {
      var n, v, e, s := r.left, r.now, r.end, r.step;
      hide OnLine;
      LineScaled(v.octaves, e.octaves, s.octaves, n);
      LineSum(v.centre, e.centre, s.centre, -v.octaves, -e.octaves, -s.octaves, n);
      LineSum(v.centre, e.centre, s.centre, v.octaves, e.octaves, s.octaves, n);
      LineScaled(v.centre + v.octaves, e.centre + e.octaves, s.centre + s.octaves, n);
      LineScaled(v.gain, e.gain, s.gain, n);
      LineAbove(v.centre - v.octaves, e.centre - e.octaves, s.centre - s.octaves, n, b.low);
      LineAbove(-(v.centre + v.octaves), -(e.centre + e.octaves), -(s.centre + s.octaves), n, -b.high);
      LineAbove(v.octaves, e.octaves, s.octaves, n, 0.0);
      LineAbove(v.gain, e.gain, s.gain, n, -b.most);
      LineAbove(-v.gain, -e.gain, -s.gain, n, -b.most);
    }
  }
}
