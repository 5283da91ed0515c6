/**
 * The AudioPhaser processor, frame by frame: feedback lattices per channel, smoothed settings and a history that
 * retires itself.  Frame() is the specification of one frame; the class computes it as the source does.
 */
module PhaserProcessors {
  import opened AudioFrames
  import opened Ramps
  import opened Reals
  import opened Lattice
  import opened PhaserMath

  /**
   * What the processor takes from the mathematics library: the sine, and root(x) = sqrt(tan(pi corner / rate)) for
   * the clamped corner of octave position x, which grows with x.
   */
  datatype Library = Library(sin: real -> real, root: real -> real, lowest: real, highest: real, circle: real)

  ghost predicate Sine(lib: Library) {
    forall p :: -1.0 <= lib.sin(p) <= 1.0
  }

  ghost predicate Growing(lib: Library) {
    forall x, y :: x <= y ==> lib.root(x) <= lib.root(y)
  }

  ghost predicate Sound(lib: Library) {
    && Sine(lib) && Growing(lib) && 0.0 < lib.lowest
    && forall x :: lib.lowest <= lib.root(x) <= lib.highest
  }

  datatype Phaser = Phaser(channels: seq<Channel>, phase: real, ramp: Ramp, reference: real, energy: real, live: bool)

  // ---------------------------------------------------------------- one frame

  /** The swept corner, in octaves. */
  function Swing(lib: Library, v: Values, phase: real): real {
    v.centre + v.octaves * lib.sin(phase)
  }

  /** phaser_coefficients() at the instantaneous corner, and the feedback gain. */
  function CoefficientsAt(lib: Library, v: Values, phase: real): Coefficients {
    var r := lib.root(Swing(lib, v, phase));
    Coefficients(KOf(r), QOf(r), v.gain)
  }

  function SteppedAll(c: Coefficients, chs: seq<Channel>, dry: seq<real>): (r: seq<Channel>)
    requires |dry| == |chs|
    ensures |r| == |chs| && forall i :: 0 <= i < |chs| ==> r[i] == ChannelStep(c.k, c.q, c.g, chs[i], dry[i])
  {
    seq(|chs|, i requires 0 <= i < |chs| => ChannelStep(c.k, c.q, c.g, chs[i], dry[i]))
  }

  function TotalStored(chs: seq<Channel>, i: nat): (e: real)
    requires i <= |chs|
    ensures e >= 0.0
  {
    if i == 0 then 0.0 else TotalStored(chs, i - 1) + Stored(chs[i - 1])
  }

  function Cleared(n: nat): (chs: seq<Channel>)
    ensures |chs| == n && forall i :: 0 <= i < n ==> chs[i] == Rest(STAGES)
  {
    seq(n, _ => Rest(STAGES))
  }

  function Live(p: Phaser, dry: seq<real>): bool {
    p.live || InputSet(dry)
  }

  /** The channels of a frame before history may retire; without history they are not computed. */
  function Computed(lib: Library, p: Phaser, dry: seq<real>): (chs: seq<Channel>)
    requires |dry| == |p.channels|
    ensures |chs| == |p.channels|
  {
    if Live(p, dry) then SteppedAll(CoefficientsAt(lib, p.ramp.now, p.phase), p.channels, dry) else p.channels
  }

  /** Retire once the stored energy is within the residual. */
  predicate Retires(lib: Library, p: Phaser, dry: seq<real>)
    requires |dry| == |p.channels|
  {
    var chs := Computed(lib, p, dry);
    Live(p, dry) && TotalStored(chs, |chs|) <= Sq(Residual(Peak(p.reference, dry, |dry|)))
  }

  /** The dry input and the wet output of every channel, blended. */
  function Mixed(mix: real, dry: seq<real>, chs: seq<Channel>, wet: bool): (out: seq<real>)
    requires |dry| == |chs|
    ensures |out| == |dry|
  {
    seq(|dry|, i requires 0 <= i < |dry| => (1.0 - mix) * dry[i] + mix * (if wet then chs[i].loop else 0.0))
  }

  function Output(lib: Library, p: Phaser, x: seq<real>): (out: seq<real>)
    requires |x| == |p.channels|
    ensures |out| == |x|
  {
    var dry, mix := Clamped(x), p.ramp.now.mix;
    var chs := Computed(lib, p, dry);
    Mixed(mix, dry, chs, Live(p, dry))
  }

  function Frame(lib: Library, p: Phaser, x: seq<real>): (p': Phaser)
    requires |x| == |p.channels|
    ensures |p'.channels| == |p.channels|
  {
    var dry := Clamped(x);
    var chs := Computed(lib, p, dry);
    var phase, ramp := WrappedPhase(p.phase + p.ramp.now.increment, lib.circle), Advance(p.ramp);
    if Retires(lib, p, dry) then
      Phaser(Cleared(|x|), phase, ramp, 0.0, 0.0, false)
    else
      Phaser(chs, phase, ramp, Peak(p.reference, dry, |dry|),
             if Live(p, dry) then TotalStored(chs, |chs|) else p.energy, Live(p, dry))
  }

  function Run(lib: Library, p: Phaser, xs: seq<seq<real>>): (p': Phaser)
    requires forall x :: x in xs ==> |x| == |p.channels|
    ensures |p'.channels| == |p.channels|
    decreases |xs|
  {
    if xs == [] then p
    else
      assert xs[|xs| - 1] in xs && forall x :: x in xs[..|xs| - 1] ==> x in xs;
      Frame(lib, Run(lib, p, xs[..|xs| - 1]), xs[|xs| - 1])
  }

  // ---------------------------------------------------------------- what is heard

  /** The wet signal of channel i: what the cascade leaves in its loop while there is history, and silence without. */
  function WetOf(lib: Library, p: Phaser, x: seq<real>, i: nat): (wet: real)
    requires |x| == |p.channels| && i < |x|
    ensures !p.live && !InputSet(Clamped(x)) ==> wet == 0.0
    ensures Frame(lib, p, x).live ==> wet == Frame(lib, p, x).channels[i].loop
  {
    if Live(p, Clamped(x)) then Computed(lib, p, Clamped(x))[i].loop else 0.0
  }

  /** The output is the dry input at mix 0, the wet signal at mix 1, and on the line from one to the other between. */
  lemma OutputBlends(lib: Library, p: Phaser, x: seq<real>, i: nat)
    requires |x| == |p.channels| && i < |x|
    ensures var mix, dry, wet, y := p.ramp.now.mix, Clamp(x[i]), WetOf(lib, p, x, i), Output(lib, p, x)[i];
            && (mix == 0.0 ==> y == dry) && (mix == 1.0 ==> y == wet) && y - dry == mix * (wet - dry)
  {
    hide Computed, Clamp, Frame, Live;
    MixBlends(p.ramp.now.mix, Clamp(x[i]), WetOf(lib, p, x, i), Output(lib, p, x)[i]);
  }

  lemma MixBlends(mix: real, dry: real, wet: real, y: real)
    requires y == (1.0 - mix) * dry + mix * wet
    ensures (mix == 0.0 ==> y == dry) && (mix == 1.0 ==> y == wet) && y - dry == mix * (wet - dry)
  {
  }

  /**
   * What is first heard of a frame after silence, fully wet: the clamped input, times -k for each of the six stages at
   * the corner of that frame.
   */
  lemma FirstHeard(lib: Library, p: Phaser, x: seq<real>, i: nat)
    requires |x| == |p.channels| && i < |x| && p.channels[i] == Rest(STAGES)
    requires p.ramp.now.mix == 1.0 && InputSet(Clamped(x))
    ensures Output(lib, p, x)[i] == Pow(-CoefficientsAt(lib, p.ramp.now, p.phase).k, 6) * Clamp(x[i])
  {
    hide Pow, Clamp, CoefficientsAt, ChannelStep, InputSet, Frame;
    var c := CoefficientsAt(lib, p.ramp.now, p.phase);
    OutputBlends(lib, p, x, i);
    FirstThrough(c.k, c.q, c.g, p.channels[i], Clamp(x[i]));
    assert Clamp(x[i]) + c.g * 0.0 == Clamp(x[i]);
  }

  /** The sweep is centred, moves by the depth in octaves either way, and upwards with the sine; k falls as it rises. */
  lemma Sweeps(lib: Library, v: Values, from: real, to: real)
    requires Sound(lib) && v.octaves >= 0.0 && lib.sin(from) <= lib.sin(to)
    ensures lib.sin(from) == 0.0 ==> CoefficientsAt(lib, v, from).k == KOf(lib.root(v.centre))
    ensures lib.sin(from) == -1.0 ==> CoefficientsAt(lib, v, from).k == KOf(lib.root(v.centre - v.octaves))
    ensures lib.sin(to) == 1.0 ==> CoefficientsAt(lib, v, to).k == KOf(lib.root(v.centre + v.octaves))
    ensures CoefficientsAt(lib, v, to).k <= CoefficientsAt(lib, v, from).k
  {
    hide KOf;
    MulMonotone(lib.sin(from), lib.sin(to), v.octaves);
    var low, high := Swing(lib, v, from), Swing(lib, v, to);
    assert low <= high;
    RootsOrdered(lib, low, low, high);
    KFalls(lib.root(low), lib.root(high));
  }

  /** With settled values the phase turns by the increment a frame, around the circle. */
  lemma {:induction false} PhaseTurns(lib: Library, p: Phaser, xs: seq<seq<real>>) returns (turns: nat)
    requires forall x :: x in xs ==> |x| == |p.channels|
    requires p.ramp.left == 0 && 0.0 <= p.phase < lib.circle && 0.0 <= p.ramp.now.increment < lib.circle
    ensures var q := Run(lib, p, xs);
            q.ramp == p.ramp && Turned(q.phase, p.phase, p.ramp.now.increment, lib.circle, |xs|, turns)
    decreases |xs|
  {
    hide Frame, WrappedPhase, InputSet, Turned;
    if xs == [] {
      turns := 0;
      NoTurn(p.phase, p.ramp.now.increment, lib.circle);
    } else {
      var before, x := xs[..|xs| - 1], xs[|xs| - 1];
      assert x in xs;
      turns := PhaseTurns(lib, p, before);
      FramePhase(lib, Run(lib, p, before), x);
      turns := NextTurn(Run(lib, p, before).phase, p.phase, p.ramp.now.increment, lib.circle, |before|, turns);
    }
  }

  lemma FramePhase(lib: Library, p: Phaser, x: seq<real>)
    requires |x| == |p.channels| && p.ramp.left == 0
    ensures Frame(lib, p, x).phase == WrappedPhase(p.phase + p.ramp.now.increment, lib.circle)
    ensures Frame(lib, p, x).ramp == p.ramp
  {
    hide Computed, Retires, InputSet, WrappedPhase;
  }

  // ---------------------------------------------------------------- coefficients on a ramp

  /** The smallest q between two corners. */
  function LeastQ(low: real, high: real): real {
    Min(QOf(low), QOf(high))
  }

  lemma LeastQRange(low: real, high: real)
    requires low > 0.0 && high > 0.0
    ensures 0.0 < LeastQ(low, high) <= 1.0
  {
    hide QOf;
    QPositive(low);
    QPositive(high);
  }

  lemma RootsPositive(lib: Library, b: Bounds)
    requires Sound(lib)
    ensures 0.0 < lib.root(b.low) && 0.0 < lib.root(b.high) && 0.0 < lib.lowest <= lib.highest
  {
    assert 0.0 < lib.lowest <= lib.root(b.low) <= lib.highest;
  }

  lemma CornerBounded(low: real, r: real, high: real, gain: real, most: real)
    requires 0.0 < low <= r <= high && Abs(gain) <= most
    ensures Bounded(Coefficients(KOf(r), QOf(r), gain), LeastQ(low, high), most)
  {
    hide KOf, QOf, Normalised;
    Orthogonal(r);
    QSmallestAtEnds(low, r, high);
  }

  /** Every frame of a ramp computes with a q of at least that of its lowest and highest corners. */
  lemma CoefficientsBounded(lib: Library, r: Ramp, b: Bounds, phase: real)
    requires Sound(lib) && Inside(r.now, b)
    ensures Bounded(CoefficientsAt(lib, r.now, phase), LeastQ(lib.root(b.low), lib.root(b.high)), b.most)
  {
    hide KOf, QOf, Bounded, LeastQ, Sound, Inside, Swing;
    var v, x := r.now, Swing(lib, r.now, phase);
    Swept(lib, v, b, phase);
    RootsOrdered(lib, b.low, x, b.high);
    CornerBounded(lib.root(b.low), lib.root(x), lib.root(b.high), v.gain, b.most);
  }

  lemma RootsOrdered(lib: Library, low: real, x: real, high: real)
    requires Sound(lib) && low <= x <= high
    ensures 0.0 < lib.root(low) <= lib.root(x) <= lib.root(high)
  {
    assert lib.lowest <= lib.root(low);
  }

  lemma Swept(lib: Library, v: Values, b: Bounds, phase: real)
    requires Sound(lib) && Inside(v, b)
    ensures b.low <= Swing(lib, v, phase) <= b.high && Abs(v.gain) <= b.most
  {
    var s := lib.sin(phase);
    assert Sine(lib);
    MulMonotone(s, 1.0, v.octaves);
    MulMonotone(-1.0, s, v.octaves);
  }

  /** Whatever the settings, q is at least that of the extreme corners. */
  lemma CoefficientsClamped(lib: Library, v: Values, phase: real)
    requires Sound(lib) && Abs(v.gain) <= MAX_FEEDBACK
    ensures Bounded(CoefficientsAt(lib, v, phase), LeastQ(lib.lowest, lib.highest), MAX_FEEDBACK)
  {
    hide KOf, QOf, Bounded, LeastQ, Swing;
    var x := Swing(lib, v, phase);
    assert lib.lowest <= lib.root(x) <= lib.highest;
    CornerBounded(lib.lowest, lib.root(x), lib.highest, v.gain, MAX_FEEDBACK);
  }

  // ---------------------------------------------------------------- invariant

  /** h is the square of phaser_headroom(), for s = sqrt(rho) at the extreme corners and the largest feedback. */
  ghost predicate Headroom(lib: Library, s: real, h: real) {
    var least := LeastQ(lib.lowest, lib.highest);
    && 0.0 < s < 1.0
    && s * s == PhaserContraction(least, MAX_FEEDBACK).rho
    && PhaserContraction(least, MAX_FEEDBACK).weight <= Mul(h, Sq(1.0 - s))
  }

  /** sqrt(V) of a channel is within the headroom of the input peak. */
  ghost predicate ChannelWithin(h: real, reference: real, ch: Channel) {
    |ch.stages| == STAGES && Value(WeightStep(MAX_FEEDBACK), ch) <= Mul(h, Sq(reference))
  }

  /** Channels hold history within the headroom, or nothing. */
  ghost predicate Stable(p: Phaser, h: real) {
    && p.reference >= 0.0
    && (forall i :: 0 <= i < |p.channels| ==> ChannelWithin(h, p.reference, p.channels[i]))
    && (!p.live ==> forall i :: 0 <= i < |p.channels| ==> p.channels[i] == Rest(STAGES))
    && (p.live ==> p.energy == TotalStored(p.channels, |p.channels|))
  }

  /** The values ramp inside the bounds of refresh_bounds(), whose feedback is within the published limit. */
  ghost predicate Bounding(p: Phaser, b: Bounds) {
    Within(p.ramp, b) && b.most <= MAX_FEEDBACK
  }

  lemma MaxFeedbackSquare()
    ensures Sq(MAX_FEEDBACK) == CappedSquare(MAX_FEEDBACK)
  {
  }

  lemma RestValue(d: real)
    ensures Value(d, Rest(STAGES)) == 0.0
  {
    RestIsEmpty(STAGES, d, STAGES);
  }

  lemma RestWithin(h: real, reference: real)
    requires h >= 0.0
    ensures ChannelWithin(h, reference, Rest(STAGES))
  {
    RestValue(WeightStep(MAX_FEEDBACK));
    MulSign(h, Sq(reference));
  }

  lemma WithinGrows(h: real, reference: real, larger: real, ch: Channel)
    requires ChannelWithin(h, reference, ch) && h >= 0.0 && 0.0 <= reference <= larger
    ensures ChannelWithin(h, larger, ch)
  {
    hide Value, Mul, Sq;
    SqMonotone(reference, larger);
    MulOrdered(h, Sq(reference), Sq(larger));
  }

  lemma HeadroomPositive(lib: Library, s: real, h: real)
    requires Headroom(lib, s, h) && Sound(lib)
    ensures h > 0.0
  {
    hide Sq, PhaserContraction;
    var least := LeastQ(lib.lowest, lib.highest);
    assert lib.lowest <= lib.root(0.0) <= lib.highest;
    QPositive(lib.lowest);
    QPositive(lib.highest);
    MaxFeedbackSquare();
    ContractionHolds(least, MAX_FEEDBACK, MAX_FEEDBACK);
    SqPositive(1.0 - s);
    PositiveFactor(h, Sq(1.0 - s));
  }

  lemma PositiveFactor(a: real, b: real)
    requires Mul(a, b) >= 1.0 && b > 0.0
    ensures a > 0.0
  {
    if a <= 0.0 {
      ProductSign(-a, b);
    }
  }

  /** One channel on one frame, whatever the settings. */
  lemma ChannelStays(lib: Library, v: Values, phase: real, s: real, h: real, ch: Channel, x: real, peak: real)
    requires Sound(lib) && Headroom(lib, s, h) && Abs(v.gain) <= MAX_FEEDBACK && Abs(x) <= peak
    requires ChannelWithin(h, peak, ch)
    ensures var c := CoefficientsAt(lib, v, phase); ChannelWithin(h, peak, ChannelStep(c.k, c.q, c.g, ch, x))
  {
    hide PhaserContraction, CoefficientsAt, ChannelStep, Normalised, Value, Mul, Sq, QOf, StateFactor, LoopFactor,
         Weight, WeightStep, CappedSquare;
    var c, d := CoefficientsAt(lib, v, phase), WeightStep(MAX_FEEDBACK);
    var least := LeastQ(lib.lowest, lib.highest);
    CoefficientsClamped(lib, v, phase);
    RootsPositive(lib, Bounds(0.0, 0.0, 0.0));
    LeastQRange(lib.lowest, lib.highest);
    MaxFeedbackSquare();
    ContractionHolds(least, MAX_FEEDBACK, MAX_FEEDBACK);
    HeadroomKept(c.k, c.q, c.g, ch, x, d, least, MAX_FEEDBACK, s, h, peak);
  }

  /** Every frame keeps the history within the headroom, for any settings and any input. */
  lemma FrameStays(lib: Library, p: Phaser, b: Bounds, s: real, h: real, x: seq<real>)
    requires Sound(lib) && Headroom(lib, s, h) && Stable(p, h) && Bounding(p, b) && |x| == |p.channels|
    ensures Stable(Frame(lib, p, x), h) && Bounding(Frame(lib, p, x), b)
  {
    hide Headroom, ChannelWithin, CoefficientsAt, TotalStored, Peak, Residual, ChannelStep, Ramping, Advance, Value,
         Sq, Mul;
    var dry := Clamped(x);
    var peak := Peak(p.reference, dry, |dry|);
    var chs := Computed(lib, p, dry);
    HeadroomPositive(lib, s, h);
    WithinKept(p.ramp, b);
    RestWithin(h, 0.0);
    forall i | 0 <= i < |chs|
      ensures ChannelWithin(h, peak, chs[i])
    {
      WithinGrows(h, p.reference, peak, p.channels[i]);
      if Live(p, dry) {
        ChannelStays(lib, p.ramp.now, p.phase, s, h, p.channels[i], dry[i], peak);
      }
    }
  }

  /** An edit changes the ramp and its bounds, not the history. */
  lemma UpdateStays(p: Phaser, target: Values, h: real)
    requires Stable(p, h) && p.ramp.frames > 0 && p.ramp.now.octaves >= 0.0 && target.octaves >= 0.0
    requires Abs(p.ramp.now.gain) <= MAX_FEEDBACK && Abs(target.gain) <= MAX_FEEDBACK
    ensures var p' := p.(ramp := Retarget(p.ramp, target));
            Stable(p', h) && Bounding(p', RampBounds(p'.ramp))
  {
    hide ChannelWithin, TotalStored, StepTo;
    WithinStarts(p.ramp, target);
  }

  // ---------------------------------------------------------------- the fast form without history

  lemma {:induction false} RestSignal(k: real, q: real, i: nat)
    requires i <= STAGES
    ensures Signal(k, q, Rest(STAGES).stages, 0.0, i) == 0.0
  {
    if i == 0 {
    } else {
      RestSignal(k, q, i - 1);
    }
  }

  /** Without history and input, skipping the coefficients and the cascade gives what computing them would. */
  lemma SkippedIsExact(lib: Library, p: Phaser, h: real, x: seq<real>)
    requires Stable(p, h) && |x| == |p.channels| && !Live(p, Clamped(x))
    ensures SteppedAll(CoefficientsAt(lib, p.ramp.now, p.phase), p.channels, Clamped(x)) == p.channels
    ensures forall i :: 0 <= i < |x| ==> p.channels[i].loop == 0.0
  {
    var dry, c := Clamped(x), CoefficientsAt(lib, p.ramp.now, p.phase);
    hide CoefficientsAt, Clamped;
    forall i | 0 <= i < |x|
      ensures ChannelStep(c.k, c.q, c.g, p.channels[i], dry[i]) == p.channels[i]
    {
      RestStep(c.k, c.q, c.g);
    }
  }

  lemma RestStep(k: real, q: real, g: real)
    ensures ChannelStep(k, q, g, Rest(STAGES), 0.0) == Rest(STAGES)
  {
    var r := Rest(STAGES);
    assert Fed(g, r, 0.0) == 0.0;
    forall i | 0 <= i <= STAGES
      ensures Signal(k, q, r.stages, 0.0, i) == 0.0
    {
      RestSignal(k, q, i);
    }
    assert NewStages(k, q, r.stages, 0.0) == r.stages;
  }

  // ---------------------------------------------------------------- retirement

  lemma {:induction false} StoredOfTotal(chs: seq<Channel>, i: nat, n: nat)
    requires i < n <= |chs|
    ensures Stored(chs[i]) <= TotalStored(chs, n)
  {
    if n == i + 1 {
    } else {
      StoredOfTotal(chs, i, n - 1);
    }
  }

  /**
   * A history is retired only once it is inaudible: had the processor kept it, no later wet output without input would
   * exceed the residual, whatever the coefficients and any feedback up to unity.
   */
  lemma RetiredInaudible(lib: Library, p: Phaser, x: seq<real>, i: nat, cs: seq<Coefficients>)
    requires |x| == |p.channels| && Retires(lib, p, Clamped(x)) && i < |x|
    requires forall c :: c in cs ==> Bounded(c, 0.0, 1.0)
    ensures Abs(SilentRun(cs, Computed(lib, p, Clamped(x))[i]).loop) <=
            Residual(Peak(p.reference, Clamped(x), |x|))
  {
    hide Computed, SilentRun, Peak, Residual, Stored, Normalised, Clamped;
    var chs := Computed(lib, p, Clamped(x));
    StoredOfTotal(chs, i, |chs|);
    LaterOutputBelow(cs, chs[i], 0.0, Residual(Peak(p.reference, Clamped(x), |x|)));
  }

  // ---------------------------------------------------------------- the tail

  function SilentFrames(lib: Library, p: Phaser, n: nat): (p': Phaser)
    ensures |p'.channels| == |p.channels|
  {
    if n == 0 then p else Frame(lib, SilentFrames(lib, p, n - 1), Silence(|p.channels|))
  }

  ghost function TotalValue(d: real, chs: seq<Channel>, i: nat): real
    requires i <= |chs|
  {
    if i == 0 then 0.0 else TotalValue(d, chs, i - 1) + Value(d, chs[i - 1])
  }

  lemma {:induction false} TotalContracts(chs: seq<Channel>, chs': seq<Channel>, d: real, rho: real, i: nat)
    requires i <= |chs| == |chs'|
    requires forall j :: 0 <= j < |chs| ==> Value(d, chs'[j]) <= Mul(rho, Value(d, chs[j]))
    ensures TotalValue(d, chs', i) <= Mul(rho, TotalValue(d, chs, i))
  {
    hide Value, Mul;
    if i == 0 {
      NothingTimes(rho);
    } else {
      TotalContracts(chs, chs', d, rho, i - 1);
      MulAdds(rho, TotalValue(d, chs, i - 1), Value(d, chs[i - 1]));
    }
  }

  lemma NothingTimes(rho: real)
    ensures Mul(rho, 0.0) == 0.0
  {
  }

  lemma {:induction false} StoredBelowValue(chs: seq<Channel>, d: real, i: nat)
    requires i <= |chs| && d >= 0.0
    ensures TotalStored(chs, i) <= TotalValue(d, chs, i)
  {
    hide Value, Stored;
    if i == 0 {
    } else {
      StoredBelowValue(chs, d, i - 1);
      ValueBounds(d, chs[i - 1]);
    }
  }

  lemma {:induction false} TotalWithin(chs: seq<Channel>, d: real, weight: real, h: real, reference: real, i: nat)
    requires i <= |chs| && d >= WeightStep(MAX_FEEDBACK) && weight == Weight(STAGES, 0, d)
    requires forall j :: 0 <= j < |chs| ==> ChannelWithin(h, reference, chs[j])
    ensures Mul(BaseWeight(), TotalValue(d, chs, i)) <= Mul(i as real, Mul(weight, Mul(h, Sq(reference))))
  {
    hide Value, Mul, Sq, Weight, WeightStep, BaseWeight;
    var base, e := BaseWeight(), WeightStep(MAX_FEEDBACK);
    if i == 0 {
      NothingOf(Mul(weight, Mul(h, Sq(reference))));
      NothingTimes(base);
    } else {
      TotalWithin(chs, d, weight, h, reference, i - 1);
      var ch := chs[i - 1];
      assert ChannelWithin(h, reference, ch);
      StepFits(MAX_FEEDBACK);
      ValueScales(e, d, ch);
      BaseIsTop(ch);
      WeightBetween(STAGES, 0, d);
      MulOrdered(weight, Value(e, ch), Mul(h, Sq(reference)));
      MulAdds(base, TotalValue(d, chs, i - 1), Value(d, ch));
      OneMore(i, Mul(weight, Mul(h, Sq(reference))));
    }
  }

  lemma BaseIsTop(ch: Channel)
    requires |ch.stages| == STAGES
    ensures Top(WeightStep(MAX_FEEDBACK), ch) == BaseWeight()
  {
    hide WeightStep;
  }

  lemma NothingOf(x: real)
    ensures Mul(0.0, x) == 0.0
  {
  }

  lemma OneMore(i: nat, x: real)
    requires i > 0
    ensures Mul(i as real, x) == Mul((i - 1) as real, x) + x
  {
  }

  lemma SilentStep(lib: Library, p: Phaser)
    ensures var p', dry := Frame(lib, p, Silence(|p.channels|)), Silence(|p.channels|);
            && Clamped(Silence(|p.channels|)) == dry
            && (!p.live ==> !p'.live)
            && (p.live && p.reference >= 0.0 ==> Live(p, dry) && Peak(p.reference, dry, |dry|) == p.reference)
  {
    hide CoefficientsAt, TotalStored, Residual, ChannelStep;
    SilentDry(|p.channels|);
    if p.reference >= 0.0 {
      SilentPeak(p.reference, |p.channels|, |p.channels|);
    }
  }

  /** A silent frame that does not retire contracts the total by rho. */
  lemma SilentFrameContracts(lib: Library, p: Phaser, b: Bounds, d: real, least: real, rho: real)
    requires Sound(lib) && Inside(p.ramp.now, b) && least == LeastQ(lib.root(b.low), lib.root(b.high)) && d >= 0.0
    requires Weight(STAGES, 0, d) >= 1.0
    requires StateFactor(Weight(STAGES, 0, d), d, least) <= rho && LoopFactor(Weight(STAGES, 0, d), d, b.most) <= rho
    requires p.live && p.reference >= 0.0 && forall i :: 0 <= i < |p.channels| ==> |p.channels[i].stages| == STAGES
    ensures var p' := Frame(lib, p, Silence(|p.channels|));
            p'.live ==>
              && p'.reference == p.reference
              && TotalValue(d, p'.channels, |p.channels|) <= Mul(rho, TotalValue(d, p.channels, |p.channels|))
              && TotalStored(p'.channels, |p.channels|) > Sq(Residual(p.reference))
  {
    hide CoefficientsAt, TotalStored, Residual, ChannelStep, Value, Mul, StateFactor, LoopFactor, Weight, Normalised,
         QOf, Peak,
         Sq, Advance, TotalValue, Clamped;
    var dry, p' := Silence(|p.channels|), Frame(lib, p, Silence(|p.channels|));
    var c := CoefficientsAt(lib, p.ramp.now, p.phase);
    SilentStep(lib, p);
    CoefficientsBounded(lib, p.ramp, b, p.phase);
    RootsPositive(lib, b);
    LeastQRange(lib.root(b.low), lib.root(b.high));
    if p'.live {
      assert p'.channels == SteppedAll(c, p.channels, dry);
      forall j | 0 <= j < |p.channels|
        ensures Value(d, p'.channels[j]) <= Mul(rho, Value(d, p.channels[j]))
      {
        SilentContracts(c.k, c.q, c.g, p.channels[j], d, least, b.most, rho);
      }
      TotalContracts(p.channels, p'.channels, d, rho, |p.channels|);
    }
  }

  ghost predicate StageCounts(chs: seq<Channel>) {
    forall i :: 0 <= i < |chs| ==> |chs[i].stages| == STAGES
  }

  lemma FrameShape(lib: Library, p: Phaser, x: seq<real>, b: Bounds)
    requires |x| == |p.channels| && StageCounts(p.channels) && Within(p.ramp, b)
    ensures StageCounts(Frame(lib, p, x).channels) && Within(Frame(lib, p, x).ramp, b)
  {
    hide CoefficientsAt, TotalStored, Residual, ChannelStep, Advance, Ramping, Peak, Clamped;
    WithinKept(p.ramp, b);
  }

  lemma {:induction false} SilentShape(lib: Library, p: Phaser, b: Bounds, n: nat)
    requires StageCounts(p.channels) && Within(p.ramp, b)
    ensures StageCounts(SilentFrames(lib, p, n).channels) && Within(SilentFrames(lib, p, n).ramp, b)
  {
    hide Frame, StageCounts, Within;
    if n == 0 {
    } else {
      SilentShape(lib, p, b, n - 1);
      FrameShape(lib, SilentFrames(lib, p, n - 1), Silence(|p.channels|), b);
    }
  }

  /** While the history survives silence, its weighted energy has fallen by rho on every frame. */
  lemma {:induction false} SilentFramesContract(lib: Library, p: Phaser, b: Bounds, d: real, least: real, rho: real,
                                                n: nat)
    requires Sound(lib) && least == LeastQ(lib.root(b.low), lib.root(b.high)) && d >= 0.0 && rho >= 0.0
    requires Weight(STAGES, 0, d) >= 1.0
    requires StateFactor(Weight(STAGES, 0, d), d, least) <= rho && LoopFactor(Weight(STAGES, 0, d), d, b.most) <= rho
    requires StageCounts(p.channels) && Within(p.ramp, b) && p.reference >= 0.0
    requires SilentFrames(lib, p, n).live
    ensures var q := SilentFrames(lib, p, n);
            && q.reference == p.reference
            && TotalValue(d, q.channels, |p.channels|) <= Mul(Pow(rho, n), TotalValue(d, p.channels, |p.channels|))
            && (n > 0 ==> TotalStored(q.channels, |p.channels|) > Sq(Residual(p.reference)))
  {
    hide TotalStored, Residual, Value, Mul, StateFactor, LoopFactor, Weight, QOf, Sq, TotalValue, Frame, Pow, Ramping,
         Sound;
    PowUnfolds(rho, n);
    if n == 0 {
      MulLaws(TotalValue(d, p.channels, |p.channels|), 1.0, 1.0);
    } else {
      var r := SilentFrames(lib, p, n - 1);
      SilentStep(lib, r);
      SilentFramesContract(lib, p, b, d, least, rho, n - 1);
      SilentShape(lib, p, b, n - 1);
      SilentFrameContracts(lib, r, b, d, least, rho);
      MulOrdered(rho, TotalValue(d, r.channels, |p.channels|),
                 Mul(Pow(rho, n - 1), TotalValue(d, p.channels, |p.channels|)));
      MulLaws(rho, Pow(rho, n - 1), TotalValue(d, p.channels, |p.channels|));
    }
  }

  /**
   * n frames are enough if rho^n times the largest weighted energy that the headroom allows, summed over the
   * channels, is within the residual.
   */
  ghost predicate TailBound(c: Contraction, h: real, channels: nat, n: nat) {
    && n > 0
    && Mul(Pow(c.rho, n), Mul(channels as real, Mul(c.weight, h))) <= Mul(BaseWeight(), Sq(RESIDUAL))
  }

  lemma TailEndsWithin(lib: Library, p: Phaser, b: Bounds, s: real, h: real, n: nat)
    requires Sound(lib) && Headroom(lib, s, h) && Stable(p, h) && Bounding(p, b)
    requires TailBound(PhaserContraction(LeastQ(lib.root(b.low), lib.root(b.high)), b.most), h, |p.channels|, n)
    ensures !SilentFrames(lib, p, n).live
  {
    hide TotalStored, Residual, Value, Mul, StateFactor, LoopFactor, Weight, QOf, Sq, TotalValue, Frame, Pow, Ramping;
    hide Sound, PhaserContraction, WeightStep, CappedSquare, Headroom, SilentFrames, BaseWeight;
    var least, d := LeastQ(lib.root(b.low), lib.root(b.high)), WeightStep(b.most);
    var c := PhaserContraction(least, b.most);
    CoefficientsBounded(lib, p.ramp, b, p.phase);
    RootsPositive(lib, b);
    LeastQRange(lib.root(b.low), lib.root(b.high));
    MostSquare(b.most, p.ramp.now.gain);
    ContractionHolds(least, b.most, b.most);
    StepFalls(b.most);
    if SilentFrames(lib, p, n).live {
      var base, pow, total := BaseWeight(), Pow(c.rho, n), TotalValue(d, p.channels, |p.channels|);
      var m, top := |p.channels| as real, Mul(c.weight, Mul(h, Sq(p.reference)));
      SilentFramesContract(lib, p, b, d, least, c.rho, n);
      StoredBelowValue(SilentFrames(lib, p, n).channels, d, |p.channels|);
      TotalWithin(p.channels, d, c.weight, h, p.reference, |p.channels|);
      PowPositive(c.rho, n);
      BaseWeightIs();
      TailArithmetic(pow, m, c.weight, h, p.reference, base);
      Rebased(base, pow, total, Mul(m, top), Sq(Residual(p.reference)));
      assert false;
    }
  }

  lemma Rebased(base: real, pow: real, total: real, most: real, residual: real)
    requires base > 0.0 && pow > 0.0 && Mul(base, total) <= most && Mul(pow, most) <= Mul(base, residual)
    ensures Mul(pow, total) <= residual
  {
    hide Mul;
    MulOrdered(pow, Mul(base, total), most);
    MulLaws(pow, base, total);
    MulLaws(base, pow, total);
    Cancel(base, Mul(pow, total), residual);
  }

  lemma MostSquare(most: real, gain: real)
    requires Abs(gain) <= most <= MAX_FEEDBACK
    ensures Sq(most) <= CappedSquare(most)
  {
    SqMonotone(most, MAX_FEEDBACK);
  }

  lemma TailArithmetic(pow: real, m: real, weight: real, h: real, reference: real, base: real)
    requires Mul(pow, Mul(m, Mul(weight, h))) <= Mul(base, Sq(RESIDUAL)) && reference >= 0.0 && base > 0.0
    ensures Mul(pow, Mul(m, Mul(weight, Mul(h, Sq(reference))))) <= Mul(base, Sq(Residual(reference)))
  {
    hide Sq, Residual, Mul;
    var r2 := Sq(reference);
    MulLaws(weight, h, r2);
    MulLaws(m, Mul(weight, h), r2);
    MulLaws(pow, Mul(m, Mul(weight, h)), r2);
    MulOrdered(r2, Mul(pow, Mul(m, Mul(weight, h))), Mul(base, Sq(RESIDUAL)));
    MulLaws(base, Sq(RESIDUAL), r2);
    SqProduct(RESIDUAL, reference);
    ProductSign(reference, RESIDUAL);
    SqMonotone(RESIDUAL * reference, Residual(reference));
    MulOrdered(base, Mul(Sq(RESIDUAL), r2), Sq(Residual(reference)));
  }

  // ---------------------------------------------------------------- the source's bound

  /**
   * phaser_decay_bound(): n is at least 1.01 ln(ratio) / -ln(rho), where ratio is weight H^2 / residual^2, which says
   * that rho^(100 n) ratio^101 is at most one.
   */
  ghost predicate DecayBound(c: Contraction, h: real, ratio: real, n: nat) {
    && n > 0 && ratio * Sq(RESIDUAL) == c.weight * h
    && Mul(Pow(c.rho, n * 100), Pow(ratio, 101)) <= 1.0
  }

  /** The ratio is enormous, as the contraction is slow and the residual small. */
  lemma RatioLarge(lib: Library, s: real, h: real, c: Contraction, ratio: real)
    requires Sound(lib) && Headroom(lib, s, h) && c.weight >= BaseWeight() && ratio * Sq(RESIDUAL) == c.weight * h
    ensures ratio > 100000000000000.0 && h > 100.0
  {
    hide QOf, CappedSquare, WeightStep, PhaserContraction, BaseWeight, LeastQ, Sound;
    var least := LeastQ(lib.lowest, lib.highest);
    RootsPositive(lib, Bounds(0.0, 0.0, 0.0));
    LeastQRange(lib.lowest, lib.highest);
    MaxFeedbackSquare();
    ContractionHolds(least, MAX_FEEDBACK, MAX_FEEDBACK);
    BaseWeightIs();
    RootLarge(s);
    ExtremeWeight(least);
    HeadroomLarge(s, h, BaseWeight());
    LargeRatio(c.weight, h, ratio);
  }

  lemma ExtremeWeight(least: real)
    ensures PhaserContraction(least, MAX_FEEDBACK).weight == BaseWeight()
  {
    hide WeightStep;
  }

  lemma RootLarge(s: real)
    requires 0.0 < s < 1.0 && s * s > 0.9
    ensures s > 0.9
  {
    if s <= 0.9 {
      ProductsMonotone(s, 0.9);
    }
  }

  lemma HeadroomLarge(s: real, h: real, weight: real)
    requires 0.9 < s < 1.0 && weight > 1.4672 && weight <= Mul(h, Sq(1.0 - s))
    ensures h > 100.0
  {
    var e := 1.0 - s;
    ProductsMonotone(e, 0.1);
    var x := Sq(e);
    if h <= 100.0 {
      ProductSign(e, e);
      MulMonotone(h, 100.0, x);
    }
  }

  lemma LargeRatio(weight: real, h: real, ratio: real)
    requires weight > 1.4672 && h > 100.0 && ratio * Sq(RESIDUAL) == weight * h
    ensures ratio > 100000000000000.0
  {
    MulMonotone(1.4672, weight, h);
    var x := weight * h;
    assert x > 146.0;
    assert Sq(RESIDUAL) == 0.000000000001;
  }

  /** 0.7336^100 by repeated squares. */
  lemma SmallPower(y: real)
    requires y >= 0.7336
    ensures Pow(y, 100) >= 0.00000000000003
  {
    hide Pow;
    var r := 0.7336;
    PowUnfolds(r, 0);
    PowUnfolds(r, 1);
    MulLaws(r, 1.0, 1.0);
    MulLaws(1.0, r, 1.0);
    Joined(r, 0.7336, 1, 0.7336, 1, 0.538);
    Joined(r, 0.538, 2, 0.538, 2, 0.2894);
    Joined(r, 0.2894, 4, 0.2894, 4, 0.0837);
    Joined(r, 0.0837, 8, 0.0837, 8, 0.007);
    Joined(r, 0.007, 16, 0.007, 16, 0.000049);
    Joined(r, 0.000049, 32, 0.000049, 32, 0.0000000024);
    Joined(r, 0.0000000024, 64, 0.000049, 32, 0.00000000000011);
    Joined(r, 0.00000000000011, 96, 0.2894, 4, 0.00000000000003);
    PowOrdered(r, y, 100);
  }

  lemma Joined(r: real, a: real, m: nat, b: real, n: nat, low: real)
    requires Pow(r, m) >= a >= 0.0 && Pow(r, n) >= b >= 0.0 && low <= a * b
    ensures Pow(r, m + n) >= low
  {
    hide Pow;
    PowSum(r, m, n);
    MulOrdered(a, b, Pow(r, n));
    MulOrdered(Pow(r, n), a, Pow(r, m));
  }

  /** If the tail bound failed, rho^n times the ratio would be above 0.7336. */
  lemma FailingBound(c: Contraction, h: real, ratio: real, channels: nat, n: nat, x: real)
    requires channels <= 2 && n > 0 && ratio > 0.0 && ratio * Sq(RESIDUAL) == c.weight * h
    requires x == Pow(c.rho, n) > 0.0 && !TailBound(c, h, channels, n)
    ensures Mul(x, ratio) >= 0.7336
  {
    hide Pow, BaseWeight, Mul, Sq;
    BaseWeightIs();
    var m, r2, y := channels as real, Sq(RESIDUAL), Mul(x, ratio);
    SqPositive(RESIDUAL);
    MulIs(ratio, r2);
    MulIs(c.weight, h);
    assert Mul(c.weight, h) == Mul(ratio, r2);
    MulLaws(m, ratio, r2);
    MulLaws(x, Mul(m, ratio), r2);
    MulLaws(x, m, ratio);
    MulLaws(m, x, ratio);
    MulSign(x, ratio);
    if Mul(m, y) <= BaseWeight() {
      MulOrdered(r2, Mul(m, y), BaseWeight());
      assert false;
    }
    MulOrdered(y, m, 2.0);
    MulIs(2.0, y);
  }

  /** The source's bound is enough for two channels, whose energies it sums: its margin of 1% makes up for the sum. */
  lemma BoundSuffices(c: Contraction, h: real, ratio: real, channels: nat, n: nat)
    requires c.rho > 0.0 && channels <= 2 && ratio > 100000000000000.0 && DecayBound(c, h, ratio, n)
    ensures TailBound(c, h, channels, n)
  {
    hide Pow, TailBound, Mul, Sq;
    var x, p := Pow(c.rho, n), Pow(ratio, 100);
    PowPositive(c.rho, n);
    if !TailBound(c, h, channels, n) {
      FailingBound(c, h, ratio, channels, n, x);
      SmallPower(Mul(x, ratio));
      PowProduct(x, ratio, 100);
      PowPower(c.rho, n, 100);
      PowUnfolds(ratio, 101);
      MulLaws(Pow(x, 100), ratio, p);
      MulLaws(ratio, Pow(x, 100), p);
      AboveOne(ratio, Mul(Pow(x, 100), p));
      assert false;
    }
  }

  lemma AboveOne(ratio: real, x: real)
    requires ratio > 100000000000000.0 && x >= 0.00000000000003
    ensures Mul(ratio, x) > 1.0
  {
    MulMonotone(100000000000000.0, ratio, x);
  }

  /** After input ends, with no further edit, the history retires within tail_frames(), so pending() is false. */
  lemma TailEnds(lib: Library, p: Phaser, b: Bounds, s: real, h: real, ratio: real, n: nat)
    requires Sound(lib) && Headroom(lib, s, h) && Stable(p, h) && Bounding(p, b) && |p.channels| <= 2
    requires DecayBound(PhaserContraction(LeastQ(lib.root(b.low), lib.root(b.high)), b.most), h, ratio, n)
    ensures !SilentFrames(lib, p, n).live
  {
    hide Headroom, Stable, Sound, DecayBound, TailBound, PhaserContraction, SilentFrames, Ramping, WeightStep,
         CappedSquare;
    hide QOf, Sq, Frame;
    var least := LeastQ(lib.root(b.low), lib.root(b.high));
    var c := PhaserContraction(least, b.most);
    RootsPositive(lib, b);
    LeastQRange(lib.root(b.low), lib.root(b.high));
    MostSquare(b.most, p.ramp.now.gain);
    ContractionHolds(least, b.most, b.most);
    WeightAtLeast(least, b.most);
    BoundParts(c, h, ratio, n);
    RatioLarge(lib, s, h, c, ratio);
    BoundSuffices(c, h, ratio, |p.channels|, n);
    TailEndsWithin(lib, p, b, s, h, n);
  }

  lemma BoundParts(c: Contraction, h: real, ratio: real, n: nat)
    requires DecayBound(c, h, ratio, n)
    ensures ratio * Sq(RESIDUAL) == c.weight * h
  {
    hide Pow, Mul;
  }

  lemma WeightAtLeast(least: real, most: real)
    requires 0.0 <= most <= MAX_FEEDBACK
    ensures PhaserContraction(least, most).weight >= BaseWeight()
  {
    hide WeightStep;
    StepFalls(most);
  }

  // ---------------------------------------------------------------- runs of frames and edits

  datatype Event = Input(x: seq<real>) | Edit(target: Values)

  /** The processor with the bounds that its last edit left. */
  datatype Tracked = Tracked(p: Phaser, b: Bounds)

  /** Settings as phaser_target() derives them, and frames of the right width. */
  predicate Acceptable(e: Event, channels: nat) {
    match e
    case Input(x) => |x| == channels
    case Edit(target) => target.octaves >= 0.0 && Abs(target.gain) <= MAX_FEEDBACK
  }

  function Apply(lib: Library, s: Tracked, e: Event): (s': Tracked)
    requires Acceptable(e, |s.p.channels|) && s.p.ramp.frames > 0
    ensures |s'.p.channels| == |s.p.channels| && s'.p.ramp.frames == s.p.ramp.frames
  {
    match e
    case Input(x) => Tracked(Frame(lib, s.p, x), s.b)
    case Edit(target) =>
      var p' := s.p.(ramp := Retarget(s.p.ramp, target));
      Tracked(p', RampBounds(p'.ramp))
  }

  function After(lib: Library, s: Tracked, es: seq<Event>): (s': Tracked)
    requires s.p.ramp.frames > 0 && forall e :: e in es ==> Acceptable(e, |s.p.channels|)
    ensures |s'.p.channels| == |s.p.channels| && s'.p.ramp.frames == s.p.ramp.frames
    decreases |es|
  {
    if es == [] then s
    else
      assert es[|es| - 1] in es && forall e :: e in es[..|es| - 1] ==> e in es;
      Apply(lib, After(lib, s, es[..|es| - 1]), es[|es| - 1])
  }

  lemma ApplyStays(lib: Library, at: Tracked, e: Event, s: real, h: real)
    requires Sound(lib) && Headroom(lib, s, h) && Stable(at.p, h) && Bounding(at.p, at.b)
    requires at.p.ramp.frames > 0 && Acceptable(e, |at.p.channels|)
    ensures Stable(Apply(lib, at, e).p, h) && Bounding(Apply(lib, at, e).p, Apply(lib, at, e).b)
  {
    hide Headroom, Stable, Frame, Sound, Ramping, Retarget, RampBounds;
    if e.Input? {
      FrameStays(lib, at.p, at.b, s, h, e.x);
    } else {
      UpdateStays(at.p, e.target, h);
    }
  }

  lemma {:induction false} AlwaysStable(lib: Library, start: Tracked, es: seq<Event>, s: real, h: real)
    requires Sound(lib) && Headroom(lib, s, h) && Stable(start.p, h) && Bounding(start.p, start.b)
    requires start.p.ramp.frames > 0 && forall e :: e in es ==> Acceptable(e, |start.p.channels|)
    ensures Stable(After(lib, start, es).p, h) && Bounding(After(lib, start, es).p, After(lib, start, es).b)
    decreases |es|
  {
    hide Headroom, Stable, Sound, Apply, Bounding, Acceptable;
    if es == [] {
    } else {
      var e, before := es[|es| - 1], es[..|es| - 1];
      assert e in es && forall f :: f in before ==> f in es;
      AlwaysStable(lib, start, before, s, h);
      ApplyStays(lib, After(lib, start, before), e, s, h);
    }
  }

  /**
   * Over every run of frames and edits the history stays within the headroom, and
   * once input ends it retires in time.
   */
  lemma TailEndsAfterAnyRun(lib: Library, start: Tracked, es: seq<Event>, s: real, h: real, ratio: real, n: nat)
    requires Sound(lib) && Headroom(lib, s, h) && Stable(start.p, h) && Bounding(start.p, start.b)
    requires start.p.ramp.frames > 0 && forall e :: e in es ==> Acceptable(e, |start.p.channels|)
    requires |start.p.channels| <= 2
    requires var at := After(lib, start, es);
             DecayBound(PhaserContraction(LeastQ(lib.root(at.b.low), lib.root(at.b.high)), at.b.most), h, ratio, n)
    ensures !SilentFrames(lib, After(lib, start, es).p, n).live
  {
    hide Headroom, Stable, Frame, Sound, Ramping, DecayBound, PhaserContraction, WeightStep, After, SilentFrames,
         Within;
    AlwaysStable(lib, start, es, s, h);
    TailEnds(lib, After(lib, start, es).p, After(lib, start, es).b, s, h, ratio, n);
  }

  // ---------------------------------------------------------------- the processor

  lemma {:induction false} EnergyPrefix(a: seq<real>, b: seq<real>, i: nat)
    requires i <= |a| && i <= |b| && forall j :: 0 <= j < i ==> a[j] == b[j]
    ensures Energy(a, i) == Energy(b, i)
  {
    if i == 0 {
    } else {
      EnergyPrefix(a, b, i - 1);
    }
  }

  lemma {:induction false} TotalPrefix(a: seq<Channel>, b: seq<Channel>, i: nat)
    requires i <= |a| && i <= |b| && forall j :: 0 <= j < i ==> a[j] == b[j]
    ensures TotalStored(a, i) == TotalStored(b, i)
  {
    if i == 0 {
    } else {
      TotalPrefix(a, b, i - 1);
    }
  }

  lemma CascadeStart(k: real, q: real, u: real, ss: seq<real>)
    ensures Signal(k, q, ss, u, 0) == u && Energy(ss, 0) == 0.0
  {
  }

  lemma CascadeNext(k: real, q: real, u: real, ss: seq<real>, state: seq<real>, i: nat)
    requires i < |ss| == |state|
    ensures Signal(k, q, ss, u, i + 1) == StageOut(k, q, ss[i], Signal(k, q, ss, u, i))
    ensures Energy(state, i + 1) == Energy(state, i) + Sq(state[i])
  {
    hide StageOut, Sq;
  }

  lemma {:induction false} RampFollows(lib: Library, p: Phaser, xs: seq<seq<real>>)
    requires forall x :: x in xs ==> |x| == |p.channels|
    ensures Run(lib, p, xs).ramp == RampAfter(p.ramp, |xs|)
    decreases |xs|
  {
    hide Computed, Retires, InputSet, Advance, WrappedPhase;
    if xs != [] {
      assert xs[|xs| - 1] in xs;
      RampFollows(lib, p, xs[..|xs| - 1]);
    }
  }

  /** An edit takes effect along a line, and is complete after the frames of a ramp. */
  lemma EditTakesEffect(lib: Library, p: Phaser, target: Values, xs: seq<seq<real>>)
    requires p.ramp.frames > 0 && forall x :: x in xs ==> |x| == |p.channels|
    ensures var v, m := Run(lib, p.(ramp := Retarget(p.ramp, target)), xs).ramp.now, p.ramp.frames;
            if |xs| < m then AllAlong(p.ramp.now, target, v, |xs|, m) else v == target
  {
    hide Run, AllAlong, Retarget, RampAfter;
    RampFollows(lib, p.(ramp := Retarget(p.ramp, target)), xs);
    RampRuns(p.ramp, target, |xs|);
  }

  /** A run of silent frames. */
  lemma {:induction false} SilentBuffer(lib: Library, p: Phaser, xs: seq<seq<real>>)
    requires forall x :: x in xs ==> |x| == |p.channels| && x == Silence(|p.channels|)
    ensures Run(lib, p, xs) == SilentFrames(lib, p, |xs|)
  {
    hide Frame;
    if xs != [] {
      assert xs[|xs| - 1] in xs;
      SilentBuffer(lib, p, xs[..|xs| - 1]);
    }
  }

  class PhaserProcessor {
    const lib: Library
    var channels: seq<Channel>
    var phase: real
    var ramp: Ramp
    var reference: real         // What the residual of Frame() is relative to
    var energy: real            // TotalStored() of all channels, while live
    var live: bool              // Without it, every channel is at rest
    var active: bool

    ghost function Now(): Phaser
      reads this
    {
      Phaser(channels, phase, ramp, reference, energy, live)
    }

    /** reset(): no history, and the committed values without a ramp. */
    constructor (lib: Library, channelCount: nat, target: Values, rampFrames: nat, active: bool,
                 ghost h: real)
      requires rampFrames > 0 && h >= 0.0
      ensures this.lib == lib && this.active == active && |channels| == channelCount
      ensures Stable(Now(), h) && !live && ramp.now == target == ramp.end && ramp.frames == rampFrames && Ramping(ramp)
    {
      this.lib := lib;
      channels := Cleared(channelCount);
      phase := 0.0;
      ramp := Ramp(target, target, Values(0.0, 0.0, 0.0, 0.0, 0.0), 0, rampFrames);
      reference, energy, live := 0.0, 0.0, false;
      this.active := active;
      new;
      RestWithin(h, 0.0);
    }

    /** pending() */
    predicate Pending()
      reads this
    {
      active && live
    }

    /** Discard history. */
    method Retire()
      modifies this`live, this`reference, this`energy, this`channels
      ensures !live && reference == 0.0 && energy == 0.0 && channels == Cleared(|old(channels)|)
    {
      live := false;
      reference := 0.0;
      energy := 0.0;
      channels := Cleared(|channels|);
    }

    /** After any run of frames and edits, the silence that tail_frames() allows for leaves nothing pending. */
    lemma NothingPending(start: Tracked, es: seq<Event>, silence: seq<seq<real>>, s: real, h: real, ratio: real)
      requires Sound(lib) && Headroom(lib, s, h) && Stable(start.p, h) && Bounding(start.p, start.b)
      requires start.p.ramp.frames > 0 && forall e :: e in es ==> Acceptable(e, |start.p.channels|)
      requires |start.p.channels| <= 2
      requires var at := After(lib, start, es);
               DecayBound(PhaserContraction(LeastQ(lib.root(at.b.low), lib.root(at.b.high)), at.b.most), h, ratio,
                          |silence|)
      requires var n := |After(lib, start, es).p.channels|;
               forall x :: x in silence ==> |x| == n && x == Silence(n)
      requires Now() == Run(lib, After(lib, start, es).p, silence)
      ensures !Pending()
    {
      hide Headroom, Stable, Frame, Sound, Ramping, DecayBound, PhaserContraction, After, SilentFrames, Run;
      TailEndsAfterAnyRun(lib, start, es, s, h, ratio, |silence|);
      SilentBuffer(lib, After(lib, start, es).p, silence);
    }

    /** An edit, which is ignored while a reset is pending or if its target is not for the current rate. */
    method Update(target: Values, resetPending: bool, current: bool)
      requires ramp.frames > 0
      modifies this`ramp
      ensures Now() ==
              if active && !resetPending && current then old(Now()).(ramp := Retarget(old(ramp), target))
              else old(Now())
    {
      if !active || resetPending || !current {
        return;
      }
      ramp := Retarget(ramp, target);
    }

    /** One channel through its stages. */
    static method Cascade(k: real, q: real, u0: real, stages: seq<real>)
      returns (state: seq<real>, u: real, stored: real)
      ensures state == NewStages(k, q, stages, u0) && u == Signal(k, q, stages, u0, |stages|)
      ensures stored == Energy(state, |state|) + Sq(u)
    {
      hide StageOut, StageState, Sq, Signal, Energy;
      state, u, stored := stages, u0, 0.0;
      CascadeStart(k, q, u0, stages);
      for i := 0 to |stages|
        invariant |state| == |stages| && u == Signal(k, q, stages, u0, i) && stored == Energy(state, i)
        invariant forall j :: 0 <= j < i ==> state[j] == StageState(k, q, stages[j], Signal(k, q, stages, u0, j))
        invariant forall j :: i <= j < |stages| ==> state[j] == stages[j]
      {
        var y := StageOut(k, q, state[i], u);
        var before := state;
        state := state[i := StageState(k, q, state[i], u)];
        EnergyPrefix(before, state, i);
        CascadeNext(k, q, u0, stages, state, i);
        stored := stored + Sq(state[i]);
        u := y;
      }
      stored := stored + Sq(u);
    }

    /** The input of a frame, clamped, and its peak. */
    method ReadInput(x: seq<real>) returns (dry: seq<real>, inputSet: bool)
      modifies this`reference
      ensures dry == Clamped(x) && inputSet == InputSet(dry) && reference == Peak(old(reference), dry, |dry|)
    {
      dry, inputSet := Clamped(x), false;
      for c := 0 to |x|
        invariant reference == Peak(old(reference), dry, c)
        invariant inputSet == exists i :: 0 <= i < c && dry[i] != 0.0
      {
        inputSet := inputSet || dry[c] != 0.0;
        reference := Max(reference, Abs(dry[c]));
      }
    }

    /** Coefficients once for the frame, then every channel through the cascade. */
    method RunCascade(dry: seq<real>)
      requires |dry| == |channels|
      modifies this`channels, this`energy
      ensures channels == SteppedAll(CoefficientsAt(lib, ramp.now, phase), old(channels), dry)
      ensures energy == TotalStored(channels, |channels|)
    {
      hide CoefficientsAt, Signal, NewStages, Sq, Energy;
      var co := CoefficientsAt(lib, ramp.now, phase);
      energy := 0.0;
      for c := 0 to |dry|
        invariant |channels| == |dry| && energy == TotalStored(channels, c)
        invariant forall j :: 0 <= j < c ==> channels[j] == ChannelStep(co.k, co.q, co.g, old(channels)[j], dry[j])
        invariant forall j :: c <= j < |dry| ==> channels[j] == old(channels)[j]
      {
        var state, u, stored := Cascade(co.k, co.q, Fed(co.g, channels[c], dry[c]), channels[c].stages);
        ghost var before := channels;
        channels := channels[c := Channel(state, u)];
        TotalPrefix(before, channels, c);
        energy := energy + stored;
      }
    }

    method ProcessFrame(x: seq<real>) returns (out: seq<real>)
      requires |x| == |channels|
      modifies this`channels, this`phase, this`ramp, this`reference, this`energy, this`live
      ensures Now() == Frame(lib, old(Now()), x) && out == Output(lib, old(Now()), x)
    {
      hide CoefficientsAt, TotalStored, Peak, Residual, Advance, Sq, InputSet, ChannelStep;
      var dry, inputSet := ReadInput(x);
      if inputSet {
        live := true;
      }
      if live {
        RunCascade(dry);
      }
      var mix := ramp.now.mix;
      out := Mixed(mix, dry, channels, live);
      assert channels == Computed(lib, old(Now()), dry);
      phase := WrappedPhase(phase + ramp.now.increment, lib.circle);
      ramp := Advance(ramp);
      if live {
        var residual := Residual(reference);
        if energy <= Sq(residual) {
          Retire();
        }
      }
    }

    /** Process a buffer of frames in place. */
    method Process(buffer: array<seq<real>>)
      requires forall f :: 0 <= f < buffer.Length ==> |buffer[f]| == |channels|
      modifies this`channels, this`phase, this`ramp, this`reference, this`energy, this`live, buffer
      ensures !active ==> Now() == old(Now()) && buffer[..] == old(buffer[..])
      ensures active ==> Now() == Run(lib, old(Now()), old(buffer[..]))
      ensures active ==> forall f :: 0 <= f < buffer.Length ==>
                           buffer[f] == Output(lib, Run(lib, old(Now()), old(buffer[..f])), old(buffer[f]))
    {
      hide Frame, Output;
      if !active {
        return;
      }
      ghost var input := buffer[..];
      for f := 0 to buffer.Length
        invariant forall g :: f <= g < buffer.Length ==> buffer[g] == input[g]
        invariant |channels| == old(|channels|) && Now() == Run(lib, old(Now()), input[..f])
        invariant forall g :: 0 <= g < f ==> buffer[g] == Output(lib, Run(lib, old(Now()), input[..g]), input[g])
      {
        assert input[..f + 1][..f] == input[..f];
        buffer[f] := ProcessFrame(buffer[f]);
      }
      assert input[..buffer.Length] == input;
    }
  }
}
