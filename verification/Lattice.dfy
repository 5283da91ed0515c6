/**
 * The normalised all-pass lattice of audio_phaser_dsp.h: stages that map (state, input) orthogonally, whatever the
 * coefficients were on the frame before, in a loop with feedback.
 */
module Lattice {
  import opened Reals

  ghost predicate Normalised(k: real, q: real) {
    Sq(k) + Sq(q) == 1.0
  }

  function StageState(k: real, q: real, s: real, u: real): real {
    k * s + q * u
  }

  function StageOut(k: real, q: real, s: real, u: real): real {
    q * s - k * u
  }

  /** The signal behind the first i stages. */
  function Signal(k: real, q: real, ss: seq<real>, u: real, i: nat): real
    requires i <= |ss|
  {
    if i == 0 then u else StageOut(k, q, ss[i - 1], Signal(k, q, ss, u, i - 1))
  }

  function NewStages(k: real, q: real, ss: seq<real>, u: real): (r: seq<real>)
    ensures |r| == |ss| && forall i :: 0 <= i < |ss| ==> r[i] == StageState(k, q, ss[i], Signal(k, q, ss, u, i))
  {
    seq(|ss|, i requires 0 <= i < |ss| => StageState(k, q, ss[i], Signal(k, q, ss, u, i)))
  }

  function Energy(ss: seq<real>, i: nat): (e: real)
    requires i <= |ss|
    ensures e >= 0.0
  {
    if i == 0 then 0.0 else Energy(ss, i - 1) + Sq(ss[i - 1])
  }

  /** a_i of the header comment, counting stages from zero. */
  ghost function Weight(n: nat, i: nat, d: real): real {
    1.0 + (n as real - i as real) * d
  }

  ghost function Weighted(ss: seq<real>, d: real, i: nat): real
    requires i <= |ss|
  {
    if i == 0 then 0.0 else Weighted(ss, d, i - 1) + Mul(Weight(|ss|, i - 1, d), Sq(ss[i - 1]))
  }

  /** The energy that leaves the first i stages. */
  ghost function Passed(k: real, q: real, ss: seq<real>, u: real, i: nat): (e: real)
    requires i <= |ss|
    ensures e >= 0.0
  {
    if i == 0 then 0.0 else Passed(k, q, ss, u, i - 1) + Sq(Signal(k, q, ss, u, i))
  }

  lemma StageLossless(k: real, q: real, s: real, u: real)
    requires Normalised(k, q)
    ensures Sq(StageState(k, q, s, u)) + Sq(StageOut(k, q, s, u)) == Sq(s) + Sq(u)
  {
    hide Sq;
    SquareSum(k * s, q * u, q * s, k * u);
    SameProducts(k, q, s, u);
    SqProduct(k, s);
    SqProduct(q, u);
    SqProduct(q, s);
    SqProduct(k, u);
    FourProducts(Sq(k), Sq(q), Sq(s), Sq(u));
  }

  /**
   * While the corner stands still, a stage is the first-order all-pass H(z) = (z^-1 - k) / (1 - k z^-1): its output y
   * to inputs u and then v has y(v) - k y(u) = u - k v.
   */
  lemma StageTransfer(k: real, q: real, s: real, u: real, v: real)
    requires Normalised(k, q)
    ensures StageOut(k, q, StageState(k, q, s, u), v) - k * StageOut(k, q, s, u) == u - k * v
  {
    assert q * (k * s + q * u) == k * (q * s) + Sq(q) * u;
    assert k * (q * s - k * u) == k * (q * s) - Sq(k) * u;
    assert Sq(k) * u + Sq(q) * u == (Sq(k) + Sq(q)) * u;
  }

  lemma NextSignal(k: real, q: real, ss: seq<real>, u: real, i: nat)
    requires i < |ss|
    ensures Signal(k, q, ss, u, i + 1) == StageOut(k, q, ss[i], Signal(k, q, ss, u, i))
  {
  }

  /** So is every stage of the cascade, between the signals before and behind it. */
  lemma CascadeTransfer(k: real, q: real, ss: seq<real>, u: real, v: real, i: nat)
    requires Normalised(k, q) && i < |ss|
    ensures var next := NewStages(k, q, ss, u);
            Signal(k, q, next, v, i + 1) - k * Signal(k, q, ss, u, i + 1) ==
            Signal(k, q, ss, u, i) - k * Signal(k, q, next, v, i)
  {
    hide *;
    var next := NewStages(k, q, ss, u);
    NextSignal(k, q, ss, u, i);
    NextSignal(k, q, next, v, i);
    StageTransfer(k, q, ss[i], Signal(k, q, ss, u, i), Signal(k, q, next, v, i));
  }

  lemma SquareSum(a: real, b: real, c: real, d: real)
    requires a * b == c * d
    ensures Sq(a + b) + Sq(c - d) == Sq(a) + Sq(b) + Sq(c) + Sq(d)
  {
  }

  lemma SameProducts(k: real, q: real, s: real, u: real)
    ensures (k * s) * (q * u) == (q * s) * (k * u)
  {
  }

  lemma FourProducts(k: real, q: real, s: real, u: real)
    requires k + q == 1.0
    ensures Mul(k, s) + Mul(q, u) + Mul(q, s) + Mul(k, u) == s + u
  {
    assert Mul(k, s) + Mul(q, s) == (k + q) * s;
    assert Mul(k, u) + Mul(q, u) == (k + q) * u;
  }

  lemma SqPart(k: real, q: real)
    requires Normalised(k, q)
    ensures Sq(k) <= 1.0
  {
  }

  lemma OutSum(k: real, q: real, s: real, u: real)
    ensures q * s == StageOut(k, q, s, u) + k * u
  {
  }

  lemma Parallelogram(a: real, b: real, y: real)
    requires a == y + b
    ensures Sq(a) <= 2.0 * Sq(y) + 2.0 * Sq(b)
  {
    assert 2.0 * Sq(y) + 2.0 * Sq(b) - Sq(y + b) == Sq(y - b);
  }

  /** What a stage gives back of its state: q^2 s^2 <= 2 (y^2 + u^2). */
  lemma StageReturns(k: real, q: real, s: real, u: real, least: real)
    requires Normalised(k, q) && 0.0 <= least <= q
    ensures Mul(Sq(least), Sq(s)) <= 2.0 * Sq(StageOut(k, q, s, u)) + 2.0 * Sq(u)
  {
    var y := StageOut(k, q, s, u);
    SqMonotone(least, q);
    hide Sq, Mul, StageOut, Normalised;
    SqPart(k, q);
    MulOrdered(Sq(s), Sq(least), Sq(q));
    MulOrdered(Sq(u), Sq(k), 1.0);
    MulLaws(Sq(u), 1.0, 1.0);
    MulLaws(1.0, Sq(u), 1.0);
    SqProduct(q, s);
    SqProduct(k, u);
    OutSum(k, q, s, u);
    Parallelogram(q * s, k * u, y);
  }

  /** The step of WeightedStep, with Sq(...) as plain numbers. */
  lemma WeighStage(w': real, w: real, p: real, a: real, d: real, s: real, v: real, s': real, y: real, rest: real)
    requires s' + y == s + v
    requires w' + Mul(a, v) + Mul(d, p) == w + rest
    ensures (w' + Mul(a, s')) + Mul(a - d, y) + Mul(d, p + y) == (w + Mul(a, s)) + rest
  {
    assert a * (s' + y) == a * (s + v);
  }

  lemma WeightNext(n: nat, i: nat, d: real)
    ensures Weight(n, i + 1, d) == Weight(n, i, d) - d
  {
  }

  /** The definitions at stage i, once. */
  lemma AtStage(k: real, q: real, ss: seq<real>, u: real, d: real, i: nat)
    requires i < |ss|
    ensures var v := Signal(k, q, ss, u, i);
            && Signal(k, q, ss, u, i + 1) == StageOut(k, q, ss[i], v)
            && Passed(k, q, ss, u, i + 1) == Passed(k, q, ss, u, i) + Sq(StageOut(k, q, ss[i], v))
            && Energy(ss, i + 1) == Energy(ss, i) + Sq(ss[i])
            && Weighted(ss, d, i + 1) == Weighted(ss, d, i) + Mul(Weight(|ss|, i, d), Sq(ss[i]))
            && Weighted(NewStages(k, q, ss, u), d, i + 1) ==
               Weighted(NewStages(k, q, ss, u), d, i) + Mul(Weight(|ss|, i, d), Sq(StageState(k, q, ss[i], v)))
  {
    hide Mul, Sq, Weight;
  }

  lemma AtNoStage(k: real, q: real, ss: seq<real>, u: real, d: real)
    ensures Signal(k, q, ss, u, 0) == u && Passed(k, q, ss, u, 0) == 0.0 == Energy(ss, 0) && Mul(d, 0.0) == 0.0
    ensures Weighted(ss, d, 0) == Weighted(NewStages(k, q, ss, u), d, 0) == 0.0
  {
  }

  /** The weighted energy of the first i stages, with what they pass on, is what they had and were given. */
  lemma {:induction false} WeightedStep(k: real, q: real, ss: seq<real>, u: real, d: real, i: nat)
    requires Normalised(k, q) && i <= |ss|
    ensures Weighted(NewStages(k, q, ss, u), d, i) + Mul(Weight(|ss|, i, d), Sq(Signal(k, q, ss, u, i)))
            + Mul(d, Passed(k, q, ss, u, i)) == Weighted(ss, d, i) + Mul(Weight(|ss|, 0, d), Sq(u))
  {
    hide *;
    if i == 0 {
      AtNoStage(k, q, ss, u, d);
    } else {
      WeightedStep(k, q, ss, u, d, i - 1);
      AtStage(k, q, ss, u, d, i - 1);
      var s, v := ss[i - 1], Signal(k, q, ss, u, i - 1);
      var s', y := StageState(k, q, s, v), StageOut(k, q, s, v);
      StageLossless(k, q, s, v);
      WeighStage(Weighted(NewStages(k, q, ss, u), d, i - 1), Weighted(ss, d, i - 1), Passed(k, q, ss, u, i - 1),
                 Weight(|ss|, i - 1, d), d, Sq(s), Sq(v), Sq(s'), Sq(y), Mul(Weight(|ss|, 0, d), Sq(u)));
      WeightNext(|ss|, i - 1, d);
    }
  }

  lemma {:induction false} PassedBound(k: real, q: real, ss: seq<real>, u: real, least: real, i: nat)
    requires Normalised(k, q) && 0.0 <= least <= q && i <= |ss|
    ensures Mul(Sq(least), Energy(ss, i)) <=
            4.0 * Passed(k, q, ss, u, i) + 2.0 * Sq(u) - 2.0 * Sq(Signal(k, q, ss, u, i))
  {
    hide *;
    if i == 0 {
      AtNoStage(k, q, ss, u, Sq(least));
    } else {
      PassedBound(k, q, ss, u, least, i - 1);
      AtStage(k, q, ss, u, 0.0, i - 1);
      StageReturns(k, q, ss[i - 1], Signal(k, q, ss, u, i - 1), least);
      MulAdds(Sq(least), Energy(ss, i - 1), Sq(ss[i - 1]));
    }
  }

  lemma {:induction false} WeightedBounds(ss: seq<real>, d: real, i: nat)
    requires d >= 0.0 && i <= |ss|
    ensures Energy(ss, i) <= Weighted(ss, d, i) <= Mul(Weight(|ss|, 0, d), Energy(ss, i))
  {
    hide *;
    if i == 0 {
      AtNoStage(0.0, 0.0, ss, 0.0, Weight(|ss|, 0, d));
      AtNoStage(0.0, 0.0, ss, 0.0, d);
    } else {
      WeightedBounds(ss, d, i - 1);
      AtStage(0.0, 0.0, ss, 0.0, d, i - 1);
      var x, a, top := Sq(ss[i - 1]), Weight(|ss|, i - 1, d), Weight(|ss|, 0, d);
      WeightBetween(|ss|, i - 1, d);
      MulOrdered(x, 1.0, a);
      MulOrdered(x, a, top);
      MulLaws(x, 1.0, 1.0);
      MulAdds(top, Energy(ss, i - 1), x);
    }
  }

  /** A larger weight step raises no stage's weight by more than it raises the first one's. */
  lemma WeightsScale(n: nat, i: nat, e: real, d: real)
    requires 0.0 <= e <= d && i <= n
    ensures Mul(Weight(n, 0, e), Weight(n, i, d)) <= Mul(Weight(n, 0, d), Weight(n, i, e))
  {
    var a, b := n as real, n as real - i as real;
    ScaledWeights(a, b, e, d, a * e, a * d, b * e, b * d);
  }

  lemma ScaledWeights(a: real, b: real, e: real, d: real, ae: real, ad: real, be: real, bd: real)
    requires 0.0 <= b <= a && 0.0 <= e <= d && ae == a * e && ad == a * d && be == b * e && bd == b * d
    ensures Mul(1.0 + ae, 1.0 + bd) <= Mul(1.0 + ad, 1.0 + be)
  {
    ProductSign(a - b, d - e);
    assert (a - b) * (d - e) == ad - ae - bd + be;
    assert ae * bd == ad * be;
  }

  lemma {:induction false} WeightedScales(ss: seq<real>, e: real, d: real, i: nat)
    requires 0.0 <= e <= d && i <= |ss|
    ensures Mul(Weight(|ss|, 0, e), Weighted(ss, d, i)) <= Mul(Weight(|ss|, 0, d), Weighted(ss, e, i))
  {
    hide *;
    var n, low, high := |ss|, Weight(|ss|, 0, e), Weight(|ss|, 0, d);
    if i == 0 {
      AtNoStage(0.0, 0.0, ss, 0.0, d);
      AtNoStage(0.0, 0.0, ss, 0.0, e);
      AtNoStage(0.0, 0.0, ss, 0.0, low);
      AtNoStage(0.0, 0.0, ss, 0.0, high);
    } else {
      WeightedScales(ss, e, d, i - 1);
      AtStage(0.0, 0.0, ss, 0.0, d, i - 1);
      AtStage(0.0, 0.0, ss, 0.0, e, i - 1);
      var x, a, b := Sq(ss[i - 1]), Weight(n, i - 1, d), Weight(n, i - 1, e);
      WeightsScale(n, i - 1, e, d);
      MulOrdered(x, Mul(low, a), Mul(high, b));
      MulLaws(low, a, x);
      MulLaws(high, b, x);
      MulAdds(low, Weighted(ss, d, i - 1), Mul(a, x));
      MulAdds(high, Weighted(ss, e, i - 1), Mul(b, x));
    }
  }

  lemma WeightBetween(n: nat, i: nat, d: real)
    requires d >= 0.0 && i <= n
    ensures 1.0 <= Weight(n, i, d) <= Weight(n, 0, d)
  {
    MulMonotone(n as real - i as real, n as real, d);
    MulMonotone(0.0, n as real - i as real, d);
  }

  // ---------------------------------------------------------------- a channel: the cascade in its feedback loop

  datatype Channel = Channel(stages: seq<real>, loop: real)

  /** What the cascade is fed: the input and its own last output, times the feedback. */
  function Fed(g: real, ch: Channel, x: real): real {
    x + g * ch.loop
  }

  /** One frame of a channel. */
  function ChannelStep(k: real, q: real, g: real, ch: Channel, x: real): (r: Channel)
    ensures |r.stages| == |ch.stages|
  {
    var u := Fed(g, ch, x);
    Channel(NewStages(k, q, ch.stages, u), Signal(k, q, ch.stages, u, |ch.stages|))
  }

  lemma {:induction false} SignalFromRest(k: real, q: real, ss: seq<real>, u: real, i: nat)
    requires i <= |ss| && forall j :: 0 <= j < |ss| ==> ss[j] == 0.0
    ensures Signal(k, q, ss, u, i) == Pow(-k, i) * u
  {
    if i > 0 {
      SignalFromRest(k, q, ss, u, i - 1);
      assert Pow(-k, i) * u == -k * (Pow(-k, i - 1) * u);
    }
  }

  /** The first thing that resting stages let through: the input and the fed back loop, times -k for each of them. */
  lemma FirstThrough(k: real, q: real, g: real, ch: Channel, x: real)
    requires forall j :: 0 <= j < |ch.stages| ==> ch.stages[j] == 0.0
    ensures ChannelStep(k, q, g, ch, x).loop == Pow(-k, |ch.stages|) * (x + g * ch.loop)
  {
    hide Pow, Signal, NewStages;
    SignalFromRest(k, q, ch.stages, Fed(g, ch, x), |ch.stages|);
  }

  function Stored(ch: Channel): (e: real)
    ensures e >= 0.0
  {
    Energy(ch.stages, |ch.stages|) + Sq(ch.loop)
  }

  ghost function WeightedState(d: real, ch: Channel): real {
    Weighted(ch.stages, d, |ch.stages|)
  }

  /** V of the header comment. */
  ghost function Value(d: real, ch: Channel): real {
    WeightedState(d, ch) + Sq(ch.loop)
  }

  /** a_1 */
  ghost function Top(d: real, ch: Channel): real {
    Weight(|ch.stages|, 0, d)
  }

  lemma TopAtLeastOne(d: real, ch: Channel)
    requires d >= 0.0
    ensures Top(d, ch) >= 1.0
  {
    WeightBetween(|ch.stages|, 0, d);
  }

  /** E <= V <= a_1 E */
  lemma ValueBounds(d: real, ch: Channel)
    requires d >= 0.0
    ensures Stored(ch) <= Value(d, ch) <= Mul(Top(d, ch), Stored(ch))
  {
    hide Mul, Weight, Sq, Weighted, Energy;
    var n := |ch.stages|;
    WeightedBounds(ch.stages, d, n);
    TopAtLeastOne(d, ch);
    MulOrdered(Sq(ch.loop), 1.0, Top(d, ch));
    MulLaws(Sq(ch.loop), Top(d, ch), 0.0);
    MulLaws(Sq(ch.loop), 1.0, 0.0);
    MulAdds(Top(d, ch), Energy(ch.stages, n), Sq(ch.loop));
  }

  /** V under a larger weight step, against V under a smaller one. */
  lemma ValueScales(e: real, d: real, ch: Channel)
    requires 0.0 <= e <= d
    ensures Mul(Top(e, ch), Value(d, ch)) <= Mul(Top(d, ch), Value(e, ch))
  {
    hide Weighted, Sq, Mul, Weight;
    WeightedScales(ch.stages, e, d, |ch.stages|);
    TopsOrdered(e, d, ch);
    MulOrdered(Sq(ch.loop), Top(e, ch), Top(d, ch));
    MulAdds(Top(e, ch), WeightedState(d, ch), Sq(ch.loop));
    MulAdds(Top(d, ch), WeightedState(e, ch), Sq(ch.loop));
  }

  lemma TopsOrdered(e: real, d: real, ch: Channel)
    requires e <= d
    ensures Top(e, ch) <= Top(d, ch)
  {
    MulMonotone(e, d, |ch.stages| as real);
  }

  ghost function PassedOn(k: real, q: real, g: real, ch: Channel, x: real): (e: real)
    ensures e >= 0.0
  {
    Passed(k, q, ch.stages, Fed(g, ch, x), |ch.stages|)
  }

  /** A frame keeps all weighted energy but for what the stages pass on. */
  lemma ValueStep(k: real, q: real, g: real, ch: Channel, x: real, d: real)
    requires Normalised(k, q)
    ensures Value(d, ChannelStep(k, q, g, ch, x)) + Mul(d, PassedOn(k, q, g, ch, x)) ==
            WeightedState(d, ch) + Mul(Top(d, ch), Sq(Fed(g, ch, x)))
  {
    hide Mul, Sq, Weighted, Passed, Fed, Normalised, Signal;
    var n := |ch.stages|;
    WeightedStep(k, q, ch.stages, Fed(g, ch, x), d, n);
    LastWeight(n, d, Sq(Signal(k, q, ch.stages, Fed(g, ch, x), n)));
  }

  lemma LastWeight(n: nat, d: real, x: real)
    ensures Mul(Weight(n, n, d), x) == x
  {
  }

  lemma {:induction false} UnweightedEnergy(ss: seq<real>, i: nat)
    requires i <= |ss|
    ensures Weighted(ss, 0.0, i) == Energy(ss, i)
  {
    if i == 0 {
    } else {
      UnweightedEnergy(ss, i - 1);
    }
  }

  /** |S'|^2 + y^2 = |S|^2 + u^2, for any coefficients on any frame. */
  lemma Lossless(k: real, q: real, g: real, ch: Channel, x: real)
    requires Normalised(k, q)
    ensures Stored(ChannelStep(k, q, g, ch, x)) == Energy(ch.stages, |ch.stages|) + Sq(Fed(g, ch, x))
  {
    hide Sq, Weighted, Passed, Fed, Normalised, Energy, ChannelStep;
    var ch' := ChannelStep(k, q, g, ch, x);
    ValueStep(k, q, g, ch, x, 0.0);
    UnweightedEnergy(ch.stages, |ch.stages|);
    UnweightedEnergy(ch'.stages, |ch'.stages|);
  }

  /** Without input the stored energy never grows. */
  lemma SilentNeverGrows(k: real, q: real, g: real, ch: Channel)
    requires Normalised(k, q) && Abs(g) <= 1.0
    ensures Stored(ChannelStep(k, q, g, ch, 0.0)) <= Stored(ch)
  {
    hide Sq, Normalised, Energy, ChannelStep, Fed, Mul;
    Lossless(k, q, g, ch, 0.0);
    FedBack(g, 1.0, ch);
    OneSquared(Sq(ch.loop));
  }

  lemma OneSquared(x: real)
    ensures Mul(Sq(1.0), x) == x
  {
  }

  lemma FedBack(g: real, most: real, ch: Channel)
    requires Abs(g) <= most
    ensures Sq(Fed(g, ch, 0.0)) <= Mul(Sq(most), Sq(ch.loop))
  {
    var w := ch.loop;
    SqMonotone(g, most);
    MulMonotone(Sq(g), Sq(most), Sq(w));
    assert Sq(g * w) == Sq(g) * Sq(w);
  }

  /** 1 - d q^2 / (4 a_1), and g^2 (a_1 + d / 2), for a_1 = top. */
  ghost function StateFactor(top: real, d: real, least: real): real
    requires top >= 1.0
  {
    1.0 - d * Sq(least) / (4.0 * top)
  }

  ghost function LoopFactor(top: real, d: real, most: real): real {
    Mul(Sq(most), top + d / 2.0)
  }

  /** V' <= (1 - d q^2 / (4 a_1)) W + (a_1 + d / 2) u^2. */
  lemma ValueBelow(k: real, q: real, g: real, ch: Channel, x: real, d: real, least: real)
    requires Normalised(k, q) && 0.0 <= least <= q && d >= 0.0 && Top(d, ch) >= 1.0
    ensures Value(d, ChannelStep(k, q, g, ch, x)) <=
            Mul(StateFactor(Top(d, ch), d, least), WeightedState(d, ch))
            + Mul(Top(d, ch) + d / 2.0, Sq(Fed(g, ch, x)))
  {
    hide Mul, Sq, Weighted, Passed, Fed, Normalised, Energy, Weight, StateFactor, ChannelStep, Value;
    var n, u := |ch.stages|, Fed(g, ch, x);
    ValueStep(k, q, g, ch, x, d);
    PassedBound(k, q, ch.stages, u, least, n);
    WeightedBounds(ch.stages, d, n);
    LossBelow(Top(d, ch), d, least, WeightedState(d, ch), Energy(ch.stages, n), PassedOn(k, q, g, ch, x), Sq(u));
  }

  lemma LossBelow(a: real, d: real, least: real, w: real, e: real, p: real, u2: real)
    requires a >= 1.0 && d >= 0.0 && w <= Mul(a, e) && Mul(Sq(least), e) <= 4.0 * p + 2.0 * u2
    ensures w + Mul(a, u2) - Mul(d, p) <= Mul(StateFactor(a, d, least), w) + Mul(a + d / 2.0, u2)
  {
    var q2 := Sq(least);
    var f := d * q2 / (4.0 * a);
    ProductSign(d, q2);
    LossFactor(a, d * q2, f);
    MulMonotone(w, a * e, f);
    LossTerm(f, a, e, d, q2);
    MulMonotone(q2 * e, 4.0 * p + 2.0 * u2, d);
    assert f * w <= d * p + d / 2.0 * u2;
  }

  lemma LossTerm(f: real, a: real, e: real, d: real, q2: real)
    requires 4.0 * (f * a) == d * q2
    ensures 4.0 * (f * (a * e)) == d * (q2 * e)
  {
    assert f * (a * e) == (f * a) * e;
    assert (d * q2) * e == d * (q2 * e);
  }

  lemma LossFactor(a: real, x: real, f: real)
    requires a >= 1.0 && x >= 0.0 && f == x / (4.0 * a)
    ensures f >= 0.0 && 4.0 * (f * a) == x
  {
    var b := 4.0 * a;
    assert f * b == x;
  }

  /** Without input, V' <= rho V for any corner of at least the least q and any feedback of at most the most. */
  lemma SilentContracts(k: real, q: real, g: real, ch: Channel, d: real, least: real, most: real, rho: real)
    requires Normalised(k, q) && 0.0 <= least <= q && Abs(g) <= most && d >= 0.0 && Top(d, ch) >= 1.0
    requires StateFactor(Top(d, ch), d, least) <= rho && LoopFactor(Top(d, ch), d, most) <= rho
    ensures Value(d, ChannelStep(k, q, g, ch, 0.0)) <= Mul(rho, Value(d, ch))
  {
    hide Mul, Sq, Weighted, Fed, Normalised, Energy, Weight, StateFactor, ChannelStep;
    ValueBelow(k, q, g, ch, 0.0, d, least);
    WeightedBounds(ch.stages, d, |ch.stages|);
    FedBack(g, most, ch);
    ContractTerms(StateFactor(Top(d, ch), d, least), WeightedState(d, ch), Top(d, ch) + d / 2.0, Sq(most),
                  Sq(Fed(g, ch, 0.0)), Sq(ch.loop), rho);
  }

  lemma ContractTerms(f: real, w: real, c: real, m2: real, u2: real, l2: real, rho: real)
    requires f <= rho && Mul(m2, c) <= rho && u2 <= Mul(m2, l2) && w >= 0.0 && c >= 0.0 && l2 >= 0.0
    ensures Mul(f, w) + Mul(c, u2) <= Mul(rho, w + l2)
  {
    MulMonotone(f, rho, w);
    MulMonotone(u2, m2 * l2, c);
    assert (m2 * l2) * c == (m2 * c) * l2;
    MulMonotone(m2 * c, rho, l2);
  }

  // ---------------------------------------------------------------- runs without input

  datatype Coefficients = Coefficients(k: real, q: real, g: real)

  ghost predicate Bounded(c: Coefficients, least: real, most: real) {
    Normalised(c.k, c.q) && least <= c.q && Abs(c.g) <= most
  }

  ghost function SilentRun(cs: seq<Coefficients>, ch: Channel): (r: Channel)
    ensures |r.stages| == |ch.stages|
    decreases |cs|
  {
    if cs == [] then ch
    else
      var c := cs[|cs| - 1];
      ChannelStep(c.k, c.q, c.g, SilentRun(cs[..|cs| - 1], ch), 0.0)
  }

  lemma RunUnfolds(cs: seq<Coefficients>, ch: Channel, d: real)
    ensures cs == [] ==> SilentRun(cs, ch) == ch
    ensures cs != [] ==> var c := cs[|cs| - 1];
                         SilentRun(cs, ch) == ChannelStep(c.k, c.q, c.g, SilentRun(cs[..|cs| - 1], ch), 0.0)
    ensures Top(d, SilentRun(cs, ch)) == Top(d, ch)
  {
  }

  lemma {:induction false} SilentRunContracts(cs: seq<Coefficients>, ch: Channel, d: real, least: real, most: real,
                                              rho: real)
    requires forall c :: c in cs ==> Bounded(c, least, most)
    requires 0.0 <= least && d >= 0.0 && rho >= 0.0 && Top(d, ch) >= 1.0
    requires StateFactor(Top(d, ch), d, least) <= rho && LoopFactor(Top(d, ch), d, most) <= rho
    ensures Value(d, SilentRun(cs, ch)) <= Mul(Pow(rho, |cs|), Value(d, ch))
    decreases |cs|
  {
    hide Mul, Sq, Weighted, Normalised, Weight, StateFactor, ChannelStep, Value, Pow, SilentRun, Top, LoopFactor;
    RunUnfolds(cs, ch, d);
    PowUnfolds(rho, |cs|);
    if cs == [] {
      MulLaws(Value(d, ch), 1.0, 1.0);
    } else {
      var c, before := cs[|cs| - 1], cs[..|cs| - 1];
      assert c in cs && forall e :: e in before ==> e in cs;
      SilentRunContracts(before, ch, d, least, most, rho);
      RunUnfolds(before, ch, d);
      SilentContracts(c.k, c.q, c.g, SilentRun(before, ch), d, least, most, rho);
      MulOrdered(rho, Value(d, SilentRun(before, ch)), Mul(Pow(rho, |before|), Value(d, ch)));
      MulLaws(rho, Pow(rho, |before|), Value(d, ch));
    }
  }

  /** Over any run of silent frames, the stored energy is at most a_1 rho^n times its start. */
  lemma EnergyDecays(cs: seq<Coefficients>, ch: Channel, d: real, least: real, most: real, rho: real)
    requires forall c :: c in cs ==> Bounded(c, least, most)
    requires 0.0 <= least && d >= 0.0 && rho > 0.0 && Top(d, ch) >= 1.0
    requires StateFactor(Top(d, ch), d, least) <= rho && LoopFactor(Top(d, ch), d, most) <= rho
    ensures Stored(SilentRun(cs, ch)) <= Top(d, ch) * Pow(rho, |cs|) * Stored(ch)
  {
    hide Sq, Weighted, Normalised, Weight, StateFactor, ChannelStep, Value, Pow, SilentRun, Top, LoopFactor, Stored,
         Mul;
    SilentRunContracts(cs, ch, d, least, most, rho);
    ValueBounds(d, ch);
    ValueBounds(d, SilentRun(cs, ch));
    PowPositive(rho, |cs|);
    MulOrdered(Pow(rho, |cs|), Value(d, ch), Mul(Top(d, ch), Stored(ch)));
    Regroup(Pow(rho, |cs|), Top(d, ch), Stored(ch));
  }

  lemma Regroup(a: real, b: real, c: real)
    ensures Mul(a, Mul(b, c)) == b * a * c
  {
    assert a * (b * c) == (b * a) * c;
  }

  /** Without input, every later output stays below what the stored energy allows now. */
  lemma {:induction false} LaterOutputBelow(cs: seq<Coefficients>, ch: Channel, least: real, residual: real)
    requires forall c :: c in cs ==> Bounded(c, least, 1.0)
    requires residual >= 0.0 && Stored(ch) <= Sq(residual)
    ensures Stored(SilentRun(cs, ch)) <= Sq(residual)
    ensures Abs(SilentRun(cs, ch).loop) <= residual
    decreases |cs|
  {
    hide Sq, Normalised, ChannelStep, SilentRun, Stored;
    RunUnfolds(cs, ch, 0.0);
    if cs == [] {
    } else {
      var c, before := cs[|cs| - 1], cs[..|cs| - 1];
      assert c in cs && forall e :: e in before ==> e in cs;
      LaterOutputBelow(before, ch, least, residual);
      SilentNeverGrows(c.k, c.q, c.g, SilentRun(before, ch));
    }
    LoopStored(SilentRun(cs, ch));
    SqReflects(SilentRun(cs, ch).loop, residual);
  }

  lemma LoopStored(ch: Channel)
    ensures Sq(ch.loop) <= Stored(ch)
  {
  }

  // ---------------------------------------------------------------- bounded input

  /** Every stage adds up its inputs and states. */
  lemma {:induction false} SignalAdds(k: real, q: real, a: seq<real>, b: seq<real>, c: seq<real>, ua: real, ub: real,
                                      i: nat)
    requires |a| == |b| == |c| && forall j :: 0 <= j < |c| ==> c[j] == a[j] + b[j]
    requires i <= |c|
    ensures Signal(k, q, c, ua + ub, i) == Signal(k, q, a, ua, i) + Signal(k, q, b, ub, i)
  {
    hide StageOut;
    if i == 0 {
    } else {
      SignalAdds(k, q, a, b, c, ua, ub, i - 1);
      StageAdds(k, q, a[i - 1], Signal(k, q, a, ua, i - 1), b[i - 1], Signal(k, q, b, ub, i - 1));
    }
  }

  lemma StageAdds(k: real, q: real, s1: real, u1: real, s2: real, u2: real)
    ensures StageOut(k, q, s1 + s2, u1 + u2) == StageOut(k, q, s1, u1) + StageOut(k, q, s2, u2)
    ensures StageState(k, q, s1 + s2, u1 + u2) == StageState(k, q, s1, u1) + StageState(k, q, s2, u2)
  {
  }

  /** s (1 - s) c is at most (1 - s) a + s b. */
  ghost predicate Between(s: real, a: real, b: real, c: real) {
    s * (1.0 - s) * c <= (1.0 - s) * a + s * b
  }

  lemma SplitSquare(s: real, a: real, b: real)
    ensures Between(s, Sq(a), Sq(b), Sq(a + b))
  {
    assert (1.0 - s) * Sq(a) + s * Sq(b) - s * (1.0 - s) * Sq(a + b) == Sq((1.0 - s) * a - s * b);
  }

  lemma WeighSplit(s: real, w: real, a: real, b: real, c: real)
    requires w >= 0.0 && Between(s, a, b, c)
    ensures Between(s, Mul(w, a), Mul(w, b), Mul(w, c))
  {
    var l, r := s * (1.0 - s) * c, (1.0 - s) * a + s * b;
    MulMonotone(l, r, w);
    assert l * w == s * (1.0 - s) * (w * c);
    assert r * w == (1.0 - s) * (w * a) + s * (w * b);
  }

  lemma AddSplit(s: real, a1: real, a2: real, b1: real, b2: real, c1: real, c2: real)
    requires Between(s, a1, b1, c1) && Between(s, a2, b2, c2)
    ensures Between(s, a1 + a2, b1 + b2, c1 + c2)
  {
    assert s * (1.0 - s) * (c1 + c2) == s * (1.0 - s) * c1 + s * (1.0 - s) * c2;
  }

  lemma {:induction false} WeightedSplits(a: seq<real>, b: seq<real>, c: seq<real>, d: real, s: real, i: nat)
    requires |a| == |b| == |c| && forall j :: 0 <= j < |c| ==> c[j] == a[j] + b[j]
    requires i <= |c| && d >= 0.0
    ensures Between(s, Weighted(a, d, i), Weighted(b, d, i), Weighted(c, d, i))
  {
    hide *;
    if i == 0 {
      NothingSplits(s, a, b, c, d);
    } else {
      WeightedSplits(a, b, c, d, s, i - 1);
      var w := Weight(|c|, i - 1, d);
      WeightBetween(|c|, i - 1, d);
      SplitSquare(s, a[i - 1], b[i - 1]);
      WeighSplit(s, w, Sq(a[i - 1]), Sq(b[i - 1]), Sq(c[i - 1]));
      AtStage(0.0, 0.0, a, 0.0, d, i - 1);
      AtStage(0.0, 0.0, b, 0.0, d, i - 1);
      AtStage(0.0, 0.0, c, 0.0, d, i - 1);
      AddSplit(s, Weighted(a, d, i - 1), Mul(w, Sq(a[i - 1])), Weighted(b, d, i - 1), Mul(w, Sq(b[i - 1])),
               Weighted(c, d, i - 1), Mul(w, Sq(c[i - 1])));
    }
  }

  lemma NothingSplits(s: real, a: seq<real>, b: seq<real>, c: seq<real>, d: real)
    ensures Between(s, Weighted(a, d, 0), Weighted(b, d, 0), Weighted(c, d, 0))
  {
  }

  function Rest(n: nat): (ch: Channel)
    ensures |ch.stages| == n && ch.loop == 0.0 && forall i :: 0 <= i < n ==> ch.stages[i] == 0.0
  {
    Channel(seq(n, _ => 0.0), 0.0)
  }

  lemma {:induction false} RestIsEmpty(n: nat, d: real, i: nat)
    requires i <= n
    ensures Weighted(Rest(n).stages, d, i) == 0.0
  {
    if i == 0 {
    } else {
      RestIsEmpty(n, d, i - 1);
    }
  }

  lemma StatesAdd(k: real, q: real, g: real, ch: Channel, x: real)
    ensures var r := Rest(|ch.stages|);
            var a, b, c := ChannelStep(k, q, g, ch, 0.0), ChannelStep(k, q, g, r, x), ChannelStep(k, q, g, ch, x);
            && (forall j :: 0 <= j < |ch.stages| ==> c.stages[j] == a.stages[j] + b.stages[j])
            && c.loop == a.loop + b.loop
  {
    hide StageState, StageOut, Signal;
    var n := |ch.stages|;
    var r := Rest(n);
    var a, b, c := ChannelStep(k, q, g, ch, 0.0), ChannelStep(k, q, g, r, x), ChannelStep(k, q, g, ch, x);
    var ua, ub := Fed(g, ch, 0.0), Fed(g, r, x);
    assert ua + ub == Fed(g, ch, x);
    SignalAdds(k, q, ch.stages, r.stages, ch.stages, ua, ub, n);
    forall j | 0 <= j < n
      ensures c.stages[j] == a.stages[j] + b.stages[j]
    {
      SignalAdds(k, q, ch.stages, r.stages, ch.stages, ua, ub, j);
      StageAdds(k, q, ch.stages[j], Signal(k, q, ch.stages, ua, j), 0.0, Signal(k, q, r.stages, ub, j));
    }
  }

  /** A frame is the sum of what the history alone and what the input alone would give. */
  lemma FrameSplits(k: real, q: real, g: real, ch: Channel, x: real, d: real, s: real)
    requires d >= 0.0
    ensures Between(s, Value(d, ChannelStep(k, q, g, ch, 0.0)), Value(d, ChannelStep(k, q, g, Rest(|ch.stages|), x)),
                    Value(d, ChannelStep(k, q, g, ch, x)))
  {
    hide StageState, StageOut, Signal, ChannelStep, Sq, Weighted, Between, Rest, Fed;
    var n := |ch.stages|;
    var a, b, c := ChannelStep(k, q, g, ch, 0.0), ChannelStep(k, q, g, Rest(n), x), ChannelStep(k, q, g, ch, x);
    StatesAdd(k, q, g, ch, x);
    WeightedSplits(a.stages, b.stages, c.stages, d, s, n);
    SplitSquare(s, a.loop, b.loop);
    AddSplit(s, Weighted(a.stages, d, n), Sq(a.loop), Weighted(b.stages, d, n), Sq(b.loop),
             Weighted(c.stages, d, n), Sq(c.loop));
  }

  /** The input alone adds at most a_1 x^2. */
  lemma InputAlone(k: real, q: real, g: real, n: nat, x: real, d: real)
    requires Normalised(k, q) && d >= 0.0
    ensures Value(d, ChannelStep(k, q, g, Rest(n), x)) <= Mul(Weight(n, 0, d), Sq(x))
  {
    hide Sq, Weighted, ChannelStep, Weight, Mul, Value, PassedOn;
    ValueStep(k, q, g, Rest(n), x, d);
    RestIsEmpty(n, d, n);
    assert Fed(g, Rest(n), x) == x;
    MulSign(d, PassedOn(k, q, g, Rest(n), x));
  }

  /** sqrt(V) never exceeds sqrt(a_1) / (1 - sqrt(rho)) times the input peak, whatever the settings do. */
  lemma HeadroomKept(k: real, q: real, g: real, ch: Channel, x: real, d: real, least: real, most: real, s: real,
                     h: real, peak: real)
    requires Normalised(k, q) && 0.0 <= least <= q && Abs(g) <= most && d >= 0.0 && Top(d, ch) >= 1.0
    requires 0.0 < s < 1.0
    requires StateFactor(Top(d, ch), d, least) <= s * s && LoopFactor(Top(d, ch), d, most) <= s * s
    requires Top(d, ch) <= Mul(h, Sq(1.0 - s)) && Abs(x) <= peak
    requires Value(d, ch) <= Mul(h, Sq(peak))
    ensures Value(d, ChannelStep(k, q, g, ch, x)) <= Mul(h, Sq(peak))
  {
    hide Sq, ChannelStep, Weight, Mul, Value, StateFactor, LoopFactor, Normalised, Between, Rest;
    var n := |ch.stages|;
    var a1, v, top := Top(d, ch), Value(d, ch), Mul(h, Sq(peak));
    var v', vl, vb := Value(d, ChannelStep(k, q, g, ch, x)), Value(d, ChannelStep(k, q, g, ch, 0.0)),
      Value(d, ChannelStep(k, q, g, Rest(n), x));
    FrameSplits(k, q, g, ch, x, d, s);
    SilentContracts(k, q, g, ch, d, least, most, s * s);
    InputAlone(k, q, g, n, x, d);
    SqMonotone(x, peak);
    MulOrdered(a1, Sq(x), Sq(peak));
    MulOrdered(Sq(peak), a1, Mul(h, Sq(1.0 - s)));
    Rearrange(h, Sq(1.0 - s), Sq(peak));
    ProductSign(s, s);
    MulOrdered(s * s, v, top);
    Balance(s, v', vl, vb, top);
  }

  lemma Rearrange(h: real, a: real, b: real)
    ensures Mul(Mul(h, a), b) == Mul(a, Mul(h, b))
  {
    assert (h * a) * b == a * (h * b);
  }

  lemma Balance(s: real, v': real, vl: real, vb: real, top: real)
    requires 0.0 < s < 1.0 && vl <= Mul(s * s, top) && vb <= Mul(Sq(1.0 - s), top)
    requires Between(s, vl, vb, v')
    ensures v' <= top
  {
    hide Mul, Sq, Between;
    var r := 1.0 - s;
    ProductPositive(s, r);
    MulOrdered(r, vl, Mul(s * s, top));
    MulOrdered(s, vb, Mul(Sq(r), top));
    BalanceSum(s, r, top);
    BetweenIs(s, r, vl, vb, v');
    Cancel(s * r, v', top);
  }

  lemma BetweenIs(s: real, r: real, a: real, b: real, c: real)
    requires Between(s, a, b, c) && r == 1.0 - s
    ensures Mul(s * r, c) <= Mul(a, r) + Mul(b, s)
  {
  }

  lemma Cancel(m: real, a: real, b: real)
    requires m > 0.0 && Mul(m, a) <= Mul(m, b)
    ensures a <= b
  {
    if a > b {
      ProductPositive(m, a - b);
    }
  }

  lemma BalanceSum(s: real, r: real, top: real)
    requires s + r == 1.0
    ensures Mul(Mul(s * s, top), r) + Mul(Mul(Sq(r), top), s) == Mul(s * r, top)
  {
    assert ((s * s) * top) * r + (Sq(r) * top) * s == ((s * r) * top) * (s + r);
  }
}
