/**
 * AudioDelay: a filtered feedback delay with ping-pong routing, frame by frame.  Frame() is the specification of one
 * frame; the class computes it in a ring that is cleared lazily.
 */
module Delays {
  import opened AudioFrames
  import opened DelayLines
  import opened Ramps
  import opened Reals

  const MAX_FEEDBACK: real := 0.95
  const HEADROOM: real := 20.0

  /** The prepared storage and the frames of a ramp. */
  datatype Setup = Setup(channels: nat, capacity: nat, frames: nat)

  ghost predicate Sound(s: Setup) {
    1 <= s.channels <= 2 && s.capacity >= 3 && s.frames > 0
  }

  datatype Delay = Delay(memory: Memory, filter: seq<real>, heads: Heads, gain: Line, coefficient: Line, blend: Line,
                         mix: Line, routing: Line, left: nat)

  /** Storage of the prepared width, and read distances of at least one frame inside the ring. */
  ghost predicate Shaped(s: Setup, p: Delay) {
    && Sound(s) && Wide(p.memory.hist, s.channels) && |p.filter| == s.channels
    && HeadsIn(p.heads, 1.0, s.capacity as real - 2.0, s.frames) && p.heads.fading >= 1.0
  }

  // ---------------------------------------------------------------- one frame

  /** The delayed signal of every channel; without history there is none. */
  function Delayed(s: Setup, p: Delay): (d: seq<real>)
    requires Shaped(s, p)
    ensures |d| == s.channels
  {
    if p.memory.live then
      var h := BeginFrame(p.heads, s.frames);
      seq(s.channels, c requires 0 <= c < s.channels =>
        Crossfaded(p.memory.hist, h.delay, h.fading, h.left, s.frames, c))
    else Silence(s.channels)
  }

  /** One-pole low-pass, kept out of the denormal range. */
  function LowPass(s: real, a: real, d: real): real {
    Flush(s + a * (d - s))
  }

  function Filtered(p: Delay, d: seq<real>): (f: seq<real>)
    requires |d| == |p.filter|
    ensures |f| == |d|
    ensures p.memory.live ==> forall c :: 0 <= c < |d| ==>
                                f[c] == LowPass(p.filter[c], p.coefficient.now, d[c])
    ensures !p.memory.live ==> f == p.filter
  {
    if p.memory.live then
      seq(|d|, c requires 0 <= c < |d| => LowPass(p.filter[c], p.coefficient.now, d[c]))
    else p.filter
  }

  /** The blend of the delayed and the filtered signal. */
  function Feedback(d: seq<real>, f: seq<real>, blend: real): (fb: seq<real>)
    requires |d| == |f|
    ensures |fb| == |d| && forall c :: 0 <= c < |d| ==> fb[c] == d[c] + blend * (f[c] - d[c])
  {
    seq(|d|, c requires 0 <= c < |d| => d[c] + blend * (f[c] - d[c]))
  }

  /** A row of a routing matrix on its way from the normal mode to ping-pong. */
  function Route(w: real, normal: real, pingPong: real): real {
    (1.0 - w) * normal + w * pingPong
  }

  function Fed(x: real, fb: real, gain: real): real {
    x + gain * fb
  }

  /** Input and feedback through the routing matrices, which cross from normal at 0 to ping-pong at 1. */
  function Inject(dry: seq<real>, fb: seq<real>, gain: real, w: real): (value: seq<real>)
    requires |dry| == |fb| && 1 <= |dry| <= 2
    ensures |value| == |dry|
  {
    if |dry| == 1 then [Fed(dry[0], fb[0], gain)]
    else
      [Fed(Route(w, dry[0], 0.5 * (dry[0] + dry[1])), Route(w, fb[0], fb[1]), gain),
       Fed(Route(w, dry[1], 0.0), Route(w, fb[1], fb[0]), gain)]
  }

  function Mixed(dry: seq<real>, mix: real, d: seq<real>): (out: seq<real>)
    requires |dry| == |d|
    ensures |out| == |dry|
  {
    seq(|dry|, c requires 0 <= c < |dry| => (1.0 - mix) * dry[c] + mix * d[c])
  }

  function NewFilter(s: Setup, p: Delay): (f: seq<real>)
    requires Shaped(s, p)
    ensures |f| == s.channels
  {
    Filtered(p, Delayed(s, p))
  }

  function Value(s: Setup, p: Delay, x: seq<real>): (value: seq<real>)
    requires Shaped(s, p) && |x| == s.channels
    ensures |value| == s.channels
  {
    var d, f := Delayed(s, p), NewFilter(s, p);
    Inject(Clamped(x), Feedback(d, f, p.blend.now), p.gain.now, p.routing.now)
  }

  /** The largest magnitude of what is written and of the filters. */
  function FramePeak(s: Setup, p: Delay, x: seq<real>): (peak: real)
    requires Shaped(s, p) && |x| == s.channels
  {
    var value, f := Value(s, p, x), NewFilter(s, p);
    Max(Peak(0.0, f, |f|), Loudest(value, |value|))
  }

  function Kept(s: Setup, p: Delay, x: seq<real>): Memory
    requires Shaped(s, p) && |x| == s.channels
  {
    Remembered(p.memory, Clamped(x), Value(s, p, x), FramePeak(s, p, x), s.capacity)
  }

  /** Retiring clears the filters with the history. */
  function KeptFilter(s: Setup, p: Delay, x: seq<real>): (f: seq<real>)
    requires Shaped(s, p) && |x| == s.channels
    ensures |f| == s.channels
  {
    if (p.memory.live || InputSet(Clamped(x))) && !Kept(s, p, x).live then Silence(s.channels) else NewFilter(s, p)
  }

  function Frame(s: Setup, p: Delay, x: seq<real>): (p': Delay)
    requires Shaped(s, p) && |x| == s.channels
    ensures Shaped(s, p')
  {
    KeptWide(s, p, x);
    HeadsStay(p.heads, 1.0, s.capacity as real - 2.0, s.frames);
    HeadsStay(BeginFrame(p.heads, s.frames), 1.0, s.capacity as real - 2.0, s.frames);
    Delay(Kept(s, p, x), KeptFilter(s, p, x), EndFrame(BeginFrame(p.heads, s.frames)), Moved(p.gain, p.left),
          Moved(p.coefficient, p.left), Moved(p.blend, p.left), Moved(p.mix, p.left), Moved(p.routing, p.left),
          Countdown(p.left))
  }

  lemma KeptWide(s: Setup, p: Delay, x: seq<real>)
    requires Shaped(s, p) && |x| == s.channels
    ensures Wide(Kept(s, p, x).hist, s.channels)
  {
    hide Value, FramePeak, Peak, Residual, Flush, InputSet;
  }

  function Output(s: Setup, p: Delay, x: seq<real>): (out: seq<real>)
    requires Shaped(s, p) && |x| == s.channels
  {
    Mixed(Clamped(x), p.mix.now, Delayed(s, p))
  }

  /** DSP-ready values of an edit. */
  datatype Target = Target(delay: real, feedback: real, coefficient: real, blend: real, mix: real, pingPong: bool)

  /** As delay_target() derives them, with a published time of at least one frame. */
  predicate Supported(s: Setup, t: Target) {
    && 1.0 <= t.delay <= s.capacity as real - 2.0 && 0.0 <= t.feedback <= MAX_FEEDBACK
    && 0.0 < t.coefficient <= 1.0 && 0.0 <= t.blend <= 1.0
  }

  function RoutingOf(s: Setup, t: Target): real {
    if s.channels == 2 && t.pingPong then 1.0 else 0.0
  }

  function Updated(s: Setup, p: Delay, t: Target): (p': Delay)
    requires Shaped(s, p) && Supported(s, t)
    ensures Shaped(s, p')
  {
    EditedIn(p.heads, t.delay, 1.0, s.capacity as real - 2.0, s.frames);
    p.(heads := Edited(p.heads, t.delay, s.frames), gain := Aimed(p.gain, t.feedback, s.frames),
       coefficient := Aimed(p.coefficient, t.coefficient, s.frames), blend := Aimed(p.blend, t.blend, s.frames),
       mix := Aimed(p.mix, t.mix, s.frames), routing := Aimed(p.routing, RoutingOf(s, t), s.frames), left := s.frames)
  }

  // ---------------------------------------------------------------- bounds of the values in use

  /** The largest feedback, the smallest filter coefficient and the longest time in use, ramping or queued. */
  datatype Bounds = Bounds(most: real, least: real, longest: real)

  ghost predicate Within(s: Setup, p: Delay, b: Bounds) {
    && Between(p.gain, p.left, 0.0, b.most)
    && Between(p.coefficient, p.left, b.least, 1.0)
    && Between(p.blend, p.left, 0.0, 1.0)
    && Between(p.routing, p.left, 0.0, 1.0)
    && HeadsIn(p.heads, 1.0, b.longest, s.frames)
    && 0.0 < b.least
  }

  /** delay_reach() */
  function Reach(b: Bounds): (k: nat)
    requires b.longest >= 0.0
    ensures k > 0
  {
    Whole(b.longest) + 1
  }

  /** refresh_bounds() */
  function Refreshed(p: Delay, target: real): Bounds {
    var l0 := Max(p.heads.delay, target);
    var l1 := if p.heads.left > 0 then Max(l0, p.heads.fading) else l0;
    var l2 := if p.heads.queued then Max(l1, p.heads.pending) else l1;
    Bounds(Max(p.gain.now, p.gain.end), Min(p.coefficient.now, p.coefficient.end), l2)
  }

  lemma UpdateWithin(s: Setup, p: Delay, t: Target, b: Bounds)
    requires Shaped(s, p) && Within(s, p, b) && Supported(s, t)
    ensures Within(s, Updated(s, p, t), Refreshed(Updated(s, p, t), t.delay))
  {
    hide OnLine, StepTo;
    var p' := Updated(s, p, t);
    var b' := Refreshed(p', t.delay);
    AimedBetween(p.gain, t.feedback, s.frames, 0.0, b'.most);
    AimedBetween(p.coefficient, t.coefficient, s.frames, b'.least, 1.0);
    AimedBetween(p.blend, t.blend, s.frames, 0.0, 1.0);
    AimedBetween(p.routing, RoutingOf(s, t), s.frames, 0.0, 1.0);
  }

  lemma FrameWithin(s: Setup, p: Delay, x: seq<real>, b: Bounds)
    requires Shaped(s, p) && Within(s, p, b) && |x| == s.channels
    ensures Within(s, Frame(s, p, x), b)
  {
    hide OnLine, Kept, KeptFilter;
    MovedBetween(p.gain, p.left, 0.0, b.most);
    MovedBetween(p.coefficient, p.left, b.least, 1.0);
    MovedBetween(p.blend, p.left, 0.0, 1.0);
    MovedBetween(p.routing, p.left, 0.0, 1.0);
    HeadsStay(p.heads, 1.0, b.longest, s.frames);
    HeadsStay(BeginFrame(p.heads, s.frames), 1.0, b.longest, s.frames);
  }

  /** A bound on what the heads can reach bounds the delayed signal. */
  lemma DelayedWithin(s: Setup, p: Delay, b: Bounds, bound: real)
    requires Shaped(s, p) && Within(s, p, b) && bound >= 0.0
    requires forall d, c :: 1 <= d <= Reach(b) && 0 <= c < s.channels ==> Abs(Past(p.memory.hist, d, c)) <= bound
    ensures forall c :: 0 <= c < s.channels ==> Abs(Delayed(s, p)[c]) <= bound
  {
    hide Past, Crossfaded, Whole, OnLine;
    var h := BeginFrame(p.heads, s.frames);
    HeadsStay(p.heads, 1.0, b.longest, s.frames);
    WholeMonotone(h.delay, b.longest);
    if h.left > 0 {
      WholeMonotone(h.fading, b.longest);
    }
    forall c | 0 <= c < s.channels
      ensures Abs(Delayed(s, p)[c]) <= bound
    {
      if p.memory.live {
        CrossfadedWithin(p.memory.hist, h.delay, h.fading, h.left, s.frames, c, Reach(b), bound);
      }
    }
  }

  /** The routing never amplifies in the largest channel. */
  lemma Routed(dry: seq<real>, fb: seq<real>, gain: real, w: real, peak: real, most: real, bound: real, total: real)
    requires |dry| == |fb| && 1 <= |dry| <= 2 && 0.0 <= gain <= most && 0.0 <= w <= 1.0 && bound >= 0.0
    requires forall c :: 0 <= c < |dry| ==> Abs(dry[c]) <= peak && Abs(fb[c]) <= bound
    requires peak + most * bound <= total
    ensures forall c :: 0 <= c < |dry| ==> Abs(Inject(dry, fb, gain, w)[c]) <= total
  {
    hide Route, Fed, Abs;
    if |dry| == 1 {
      FedSum(dry[0], fb[0], gain, peak, most, bound, total);
    } else {
      HalfSum(dry[0], dry[1], peak);
      RouteWithin(w, dry[0], 0.5 * (dry[0] + dry[1]), peak);
      RouteWithin(w, dry[1], 0.0, peak);
      RouteWithin(w, fb[0], fb[1], bound);
      RouteWithin(w, fb[1], fb[0], bound);
      FedSum(Route(w, dry[0], 0.5 * (dry[0] + dry[1])), Route(w, fb[0], fb[1]), gain, peak, most, bound, total);
      FedSum(Route(w, dry[1], 0.0), Route(w, fb[1], fb[0]), gain, peak, most, bound, total);
    }
  }

  lemma HalfSum(a: real, b: real, bound: real)
    requires Abs(a) <= bound && Abs(b) <= bound
    ensures Abs(0.5 * (a + b)) <= bound && Abs(0.0) <= bound
  {
  }

  lemma FedSum(x: real, fb: real, gain: real, peak: real, most: real, bound: real, total: real)
    requires Abs(x) <= peak && Abs(fb) <= bound && 0.0 <= gain <= most && peak + most * bound <= total
    ensures Abs(Fed(x, fb, gain)) <= total
  {
    var z := gain * fb;
    GainWithin(gain, fb, most, bound, z);
  }

  lemma RouteWithin(w: real, a: real, b: real, bound: real)
    requires 0.0 <= w <= 1.0 && Abs(a) <= bound && Abs(b) <= bound
    ensures Abs(Route(w, a, b)) <= bound
  {
    Blended(a, b, w, bound);
    RouteIs(w, a, b);
  }

  lemma RouteIs(w: real, a: real, b: real)
    ensures Route(w, a, b) == a + (b - a) * w
  {
  }

  // ---------------------------------------------------------------- headroom

  /**
   * The injection and feedback matrices: straight through, or both inputs into
   * one side and the echoes swapping sides.
   */
  lemma RoutingMatrices(dry: seq<real>, fb: seq<real>, gain: real)
    requires |dry| == |fb| == 2
    ensures var normal, pingPong := Inject(dry, fb, gain, 0.0), Inject(dry, fb, gain, 1.0);
            && normal[0] == dry[0] + gain * fb[0] && normal[1] == dry[1] + gain * fb[1]
            && pingPong[0] == 0.5 * (dry[0] + dry[1]) + gain * fb[1] && pingPong[1] == gain * fb[0]
  {
    hide Route, Fed;
    var sum := 0.5 * (dry[0] + dry[1]);
    RouteEnds(dry[0], sum);
    RouteEnds(dry[1], 0.0);
    RouteEnds(fb[0], fb[1]);
    RouteEnds(fb[1], fb[0]);
    FedIs(dry[0], fb[0], gain);
    FedIs(dry[1], fb[1], gain);
    FedIs(sum, fb[1], gain);
    FedIs(0.0, fb[0], gain);
  }

  lemma FedIs(x: real, fb: real, gain: real)
    ensures Fed(x, fb, gain) == x + gain * fb && (x == 0.0 ==> Fed(x, fb, gain) == gain * fb)
  {
  }

  lemma RouteEnds(a: real, b: real)
    ensures Route(0.0, a, b) == a && Route(1.0, a, b) == b
  {
  }

  /** Between its ends, every routing weight blends the matrices of the two modes. */
  lemma RoutingCrossfades(dry: seq<real>, fb: seq<real>, gain: real, w: real, c: nat)
    requires |dry| == |fb| == 2 && c < 2
    ensures Inject(dry, fb, gain, w)[c] ==
            (1.0 - w) * Inject(dry, fb, gain, 0.0)[c] + w * Inject(dry, fb, gain, 1.0)[c]
  {
    hide Route, Fed;
    RoutingMatrices(dry, fb, gain);
    if c == 0 {
      FedCrossfades(w, gain, dry[0], 0.5 * (dry[0] + dry[1]), fb[0], fb[1]);
    } else {
      FedCrossfades(w, gain, dry[1], 0.0, fb[1], fb[0]);
    }
  }

  lemma FedCrossfades(w: real, gain: real, x: real, x': real, fb: real, fb': real)
    ensures Fed(Route(w, x, x'), Route(w, fb, fb'), gain) == (1.0 - w) * (x + gain * fb) + w * (x' + gain * fb')
  {
  }

  ghost predicate FilterWithin(f: seq<real>, bound: real) {
    forall c :: 0 <= c < |f| ==> Abs(f[c]) <= bound
  }

  lemma LowPassWithin(s: real, a: real, d: real, bound: real)
    requires 0.0 <= a <= 1.0 && Abs(s) <= bound && Abs(d) <= bound
    ensures Abs(LowPass(s, a, d)) <= bound
  {
    BlendedBy(s, d, a, bound, s + a * (d - s));
  }

  lemma FilteredWithin(p: Delay, d: seq<real>, bound: real)
    requires |d| == |p.filter| && 0.0 <= p.coefficient.now <= 1.0
    requires FilterWithin(p.filter, bound) && FilterWithin(d, bound)
    ensures FilterWithin(Filtered(p, d), bound)
  {
    hide LowPass, Abs;
    var f := Filtered(p, d);
    forall c | 0 <= c < |f|
      ensures Abs(f[c]) <= bound
    {
      LowPassWithin(p.filter[c], p.coefficient.now, d[c], bound);
    }
  }

  lemma BlendedBy(x: real, y: real, t: real, bound: real, z: real)
    requires 0.0 <= t <= 1.0 && Abs(x) <= bound && Abs(y) <= bound && z == x + t * (y - x)
    ensures Abs(z) <= bound
  {
    Blended(x, y, t, bound);
    assert z == x + (y - x) * t;
  }

  lemma FeedbackWithin(d: seq<real>, f: seq<real>, blend: real, bound: real)
    requires |d| == |f| && 0.0 <= blend <= 1.0 && FilterWithin(d, bound) && FilterWithin(f, bound)
    ensures FilterWithin(Feedback(d, f, blend), bound)
  {
    hide Abs;
    forall c | 0 <= c < |d|
      ensures Abs(Feedback(d, f, blend)[c]) <= bound
    {
      BlendedBy(d[c], f[c], blend, bound, Feedback(d, f, blend)[c]);
    }
  }

  /** What a frame writes, for bounds on the input and on the fed-back signal. */
  lemma ValueWithin(s: Setup, p: Delay, b: Bounds, x: seq<real>, peak: real, bound: real, total: real)
    requires Shaped(s, p) && Within(s, p, b) && |x| == s.channels && bound >= 0.0
    requires FilterWithin(Clamped(x), peak) && peak + b.most * bound <= total
    requires FilterWithin(Feedback(Delayed(s, p), NewFilter(s, p), p.blend.now), bound)
    ensures FilterWithin(Value(s, p, x), total)
  {
    hide OnLine, Inject, Feedback, Delayed, NewFilter, Abs;
    Routed(Clamped(x), Feedback(Delayed(s, p), NewFilter(s, p), p.blend.now), p.gain.now, p.routing.now, peak, b.most,
           bound, total);
  }

  /** Nothing stored exceeds the headroom over the input peak, and the quiet frames are what the counter says. */
  ghost predicate Stable(s: Setup, p: Delay) {
    && Shaped(s, p) && Tracked(p.memory, s.channels, s.capacity)
    && AllWithin(p.memory.hist, s.channels, HEADROOM * p.memory.reference)
    && FilterWithin(p.filter, HEADROOM * p.memory.reference)
    && (!p.memory.live ==> FilterWithin(p.filter, 0.0))
  }

  lemma PastWithin(hist: seq<Samples>, channels: nat, bound: real, d: nat, c: nat)
    requires AllWithin(hist, channels, bound) && Wide(hist, channels) && bound >= 0.0 && d > 0 && c < channels
    ensures Abs(Past(hist, d, c)) <= bound
  {
  }

  /** The signals of a frame are within the headroom of the history. */
  lemma SignalsWithin(s: Setup, p: Delay, b: Bounds, bound: real)
    requires Shaped(s, p) && Within(s, p, b) && bound >= 0.0
    requires AllWithin(p.memory.hist, s.channels, bound) && FilterWithin(p.filter, bound)
    ensures FilterWithin(NewFilter(s, p), bound)
    ensures FilterWithin(Feedback(Delayed(s, p), NewFilter(s, p), p.blend.now), bound)
  {
    hide OnLine, Delayed, Past, Filtered, Feedback, Abs, Reach;
    forall d, c | 1 <= d <= Reach(b) && 0 <= c < s.channels
      ensures Abs(Past(p.memory.hist, d, c)) <= bound
    {
      PastWithin(p.memory.hist, s.channels, bound, d, c);
    }
    DelayedWithin(s, p, b, bound);
    FilteredWithin(p, Delayed(s, p), bound);
    FeedbackWithin(Delayed(s, p), NewFilter(s, p), p.blend.now, bound);
  }

  lemma InputPeak(x: seq<real>, reference: real)
    requires reference >= 0.0
    ensures FilterWithin(Clamped(x), Peak(reference, Clamped(x), |x|))
  {
    hide Peak;
  }

  lemma LargerFilter(f: seq<real>, bound: real, larger: real)
    requires FilterWithin(f, bound) && bound <= larger
    ensures FilterWithin(f, larger)
  {
  }

  lemma FrameTracked(s: Setup, p: Delay, x: seq<real>)
    requires Shaped(s, p) && Tracked(p.memory, s.channels, s.capacity) && |x| == s.channels
    ensures Tracked(Kept(s, p, x), s.channels, s.capacity)
  {
    hide Value, Residual, Loudest, Flush, Peak, Tracked, Remembered;
    RememberedTracked(p.memory, Clamped(x), Value(s, p, x), FramePeak(s, p, x), s.channels, s.capacity);
  }

  /** What is kept stays within the larger headroom. */
  lemma KeptWithin(s: Setup, p: Delay, b: Bounds, x: seq<real>)
    requires Within(s, p, b) && b.most <= MAX_FEEDBACK && Stable(s, p) && |x| == s.channels
    ensures AllWithin(Kept(s, p, x).hist, s.channels, HEADROOM * Kept(s, p, x).reference)
    ensures FilterWithin(KeptFilter(s, p, x), HEADROOM * Kept(s, p, x).reference)
  {
    hide OnLine, Value, NewFilter, Feedback, Delayed, Within, FramePeak, Residual, Peak, Tracked, Flushed, InputSet,
         Abs, Reach;
    TrackedParts(p.memory, s.channels, s.capacity);
    var m := p.memory;
    var peak := Peak(m.reference, Clamped(x), |x|);
    var bound, total := HEADROOM * m.reference, HEADROOM * peak;
    SignalsWithin(s, p, b, bound);
    InputPeak(x, m.reference);
    HeadroomSum(bound, peak, b.most, MAX_FEEDBACK, HEADROOM);
    ValueWithin(s, p, b, x, peak, bound, total);
    LargerBound(m.hist, s.channels, bound, total);
    LargerFilter(NewFilter(s, p), bound, total);
    AppendWithin(m.hist, Value(s, p, x), s.channels, total);
    ZeroWithin(s.channels);
  }

  lemma ZeroWithin(n: nat)
    ensures FilterWithin(Silence(n), 0.0)
  {
  }

  /** Without history the filters stay at rest. */
  lemma DeadFilter(s: Setup, p: Delay, x: seq<real>)
    requires Shaped(s, p) && |x| == s.channels && (!p.memory.live ==> FilterWithin(p.filter, 0.0))
    ensures !Kept(s, p, x).live ==> FilterWithin(KeptFilter(s, p, x), 0.0)
  {
    hide Value, FramePeak, Residual, Peak, InputSet, Abs, Delayed;
    ZeroWithin(s.channels);
  }

  /** Every frame keeps what is stored within the headroom, whatever the input, the edits and the crossfades. */
  lemma FrameStable(s: Setup, p: Delay, b: Bounds, x: seq<real>)
    requires Within(s, p, b) && b.most <= MAX_FEEDBACK && Stable(s, p) && |x| == s.channels
    ensures Stable(s, Frame(s, p, x)) && Within(s, Frame(s, p, x), b)
  {
    hide Within, Kept, KeptFilter, Tracked, AllWithin, FilterWithin;
    FrameWithin(s, p, x, b);
    FrameTracked(s, p, x);
    KeptWithin(s, p, b, x);
    DeadFilter(s, p, x);
  }

  // ---------------------------------------------------------------- decay after input ends

  /** q and r of the proof outline: g <= q r^K and (1 - a) / r + a q <= 1, the latter times r. */
  ghost predicate RateHolds(g: real, a: real, k: nat, q: real, r: real) {
    && 0.0 < r <= 1.0 && 0.0 <= q <= 1.0
    && g <= Mul(q, Pow(r, k))
    && (1.0 - a) + Mul(a, Mul(q, r)) <= r
  }

  /** C r^n. */
  ghost function Envelope(c: real, r: real, n: nat): real {
    Mul(Pow(r, n), c)
  }

  lemma EnvelopeFacts(c: real, r: real, m: nat, n: nat)
    requires 0.0 < r <= 1.0 && c >= 0.0 && m <= n
    ensures 0.0 <= Envelope(c, r, n) <= Envelope(c, r, m)
    ensures Envelope(c, r, 0) == c
    ensures Envelope(c, r, n + 1) == Mul(r, Envelope(c, r, n))
  {
    hide Mul, Pow;
    PowShrinks(r, m, n);
    PowShrinks(r, 0, n);
    MulSign(Pow(r, n), c);
    MulOrdered(c, Pow(r, n), Pow(r, m));
    PowUnfolds(r, n + 1);
    MulLaws(r, Pow(r, n), c);
    MulLaws(c, 1.0, 1.0);
    MulLaws(1.0, c, 1.0);
  }

  /** Writes since the silence began are within g C r^m, and what came before within g C. */
  ghost predicate Decaying(hist: seq<Samples>, channels: nat, g: real, c: real, r: real, start: nat) {
    forall i, ch :: 0 <= i < |hist| && 0 <= ch < channels && ch < |hist[i]| ==>
      Abs(hist[i][ch]) <= Mul(g, Envelope(c, r, if i < start then 0 else i - start))
  }

  /** g C r^(n - d) is within q C r^n for every distance d up to K. */
  lemma ReachedEnvelope(g: real, k: nat, q: real, c: real, r: real, m: nat, n: nat)
    requires 0.0 < r <= 1.0 && c >= 0.0 && q >= 0.0 && g <= Mul(q, Pow(r, k)) && n <= m + k
    ensures Mul(g, Envelope(c, r, m)) <= Mul(q, Envelope(c, r, n))
  {
    hide Mul, Pow, Envelope;
    EnvelopeFacts(c, r, m, m);
    EnvelopeFacts(c, r, n, m + k);
    MulOrdered(Envelope(c, r, m), g, Mul(q, Pow(r, k)));
    ShiftEnvelope(q, k, c, r, m);
    MulOrdered(q, Envelope(c, r, m + k), Envelope(c, r, n));
  }

  lemma ShiftEnvelope(q: real, k: nat, c: real, r: real, m: nat)
    ensures Mul(Mul(q, Pow(r, k)), Envelope(c, r, m)) == Mul(q, Envelope(c, r, m + k))
  {
    hide Mul, Pow;
    PowSum(r, m, k);
    MulLaws(q, Pow(r, k), Mul(Pow(r, m), c));
    MulLaws(Pow(r, k), Pow(r, m), c);
    MulLaws(Pow(r, k), Pow(r, m), 1.0);
  }

  lemma ReachableDecays(hist: seq<Samples>, channels: nat, g: real, k: nat, q: real, c: real, r: real, start: nat,
                        d: nat, ch: nat)
    requires Decaying(hist, channels, g, c, r, start) && Wide(hist, channels) && start <= |hist|
    requires 0.0 < r <= 1.0 && c >= 0.0 && q >= 0.0 && g <= Mul(q, Pow(r, k)) && 1 <= d <= k && ch < channels
    ensures Abs(Past(hist, d, ch)) <= Mul(q, Envelope(c, r, |hist| - start))
  {
    hide Mul, Pow, Envelope;
    var n := |hist| - start;
    EnvelopeFacts(c, r, n, n);
    MulSign(q, Envelope(c, r, n));
    if d <= |hist| {
      var i := |hist| - d;
      var m := if i < start then 0 else i - start;
      assert Abs(hist[i][ch]) <= Mul(g, Envelope(c, r, m));
      ReachedEnvelope(g, k, q, c, r, m, n);
    }
  }

  /** One step of the slowest filter: r |s| <= C r^n and |d| <= q C r^n give |s'| <= C r^n. */
  lemma FilterDecays(s: real, a: real, d: real, least: real, q: real, r: real, e: real)
    requires 0.0 < r <= 1.0 && 0.0 <= q <= 1.0 && least <= a <= 1.0 && 0.0 < least && e >= 0.0
    requires (1.0 - least) + Mul(least, Mul(q, r)) <= r
    requires Mul(r, Abs(s)) <= e && Abs(d) <= Mul(q, e)
    ensures Abs(LowPass(s, a, d)) <= e
  {
    hide Mul, LowPass, Abs;
    var z, qr := LowPass(s, a, d), Mul(q, r);
    LowPassBound(s, a, d);
    SlowestFilter(a, least, q, r);
    MulOrdered(1.0 - a, Mul(r, Abs(s)), e);
    MulOrdered(r, Abs(d), Mul(q, e));
    MulOrdered(a, Mul(r, Abs(d)), Mul(r, Mul(q, e)));
    MulOrdered(e, (1.0 - a) + Mul(a, qr), r);
    MulOrdered(r, Abs(z), Mul(1.0 - a, Abs(s)) + Mul(a, Abs(d)));
    FilterTerms(r, a, Abs(s), Abs(d), q, e);
    CancelMul(r, Abs(z), e);
  }

  lemma LowPassBound(s: real, a: real, d: real)
    requires 0.0 <= a <= 1.0
    ensures Abs(LowPass(s, a, d)) <= Mul(1.0 - a, Abs(s)) + Mul(a, Abs(d))
  {
    var z, b := s + a * (d - s), 1.0 - a;
    hide Mul;
    FilterSum(s, a, d, b, z);
    MulAbs(b, s);
    MulAbs(a, d);
  }

  lemma FilterSum(s: real, a: real, d: real, b: real, z: real)
    requires z == s + a * (d - s) && b == 1.0 - a
    ensures z == Mul(b, s) + Mul(a, d)
  {
  }

  lemma MulAbs(a: real, x: real)
    requires a >= 0.0
    ensures -Mul(a, Abs(x)) <= Mul(a, x) <= Mul(a, Abs(x))
  {
    MulMonotone(x, Abs(x), a);
    MulMonotone(-x, Abs(x), a);
  }

  lemma SlowestFilter(a: real, least: real, q: real, r: real)
    requires 0.0 < r <= 1.0 && 0.0 <= q <= 1.0 && least <= a
    requires (1.0 - least) + Mul(least, Mul(q, r)) <= r
    ensures (1.0 - a) + Mul(a, Mul(q, r)) <= r
  {
    var qr := Mul(q, r);
    hide Mul;
    MulOrdered(r, q, 1.0);
    MulLaws(1.0, r, 1.0);
    MulLaws(r, 1.0, 1.0);
    MulOrdered(a - least, qr, 1.0);
    MulLaws(a - least, 1.0, 1.0);
    MulLaws(1.0, a - least, 1.0);
    MulAdds(qr, least, a - least);
  }

  lemma FilterTerms(r: real, a: real, s: real, d: real, q: real, e: real)
    ensures Mul(r, Mul(1.0 - a, s) + Mul(a, d)) == Mul(1.0 - a, Mul(r, s)) + Mul(a, Mul(r, d))
    ensures Mul(1.0 - a, e) + Mul(a, Mul(r, Mul(q, e))) == Mul((1.0 - a) + Mul(a, Mul(q, r)), e)
  {
  }

  lemma CancelMul(r: real, x: real, y: real)
    requires r > 0.0 && Mul(r, x) <= Mul(r, y)
    ensures x <= y
  {
    CancelLoose(r, x, y);
  }

  // ---------------------------------------------------------------- silent frames

  function SilentFrames(s: Setup, p: Delay, n: nat): (p': Delay)
    requires Shaped(s, p)
    ensures Shaped(s, p')
  {
    if n == 0 then p else Frame(s, SilentFrames(s, p, n - 1), Silence(s.channels))
  }

  lemma {:induction false} SilentFramesKeep(s: Setup, p: Delay, b: Bounds, n: nat)
    requires Shaped(s, p) && Within(s, p, b) && Tracked(p.memory, s.channels, s.capacity)
    ensures Within(s, SilentFrames(s, p, n), b) && Tracked(SilentFrames(s, p, n).memory, s.channels, s.capacity)
  {
    hide Within, Kept, KeptFilter, Tracked, Shaped;
    if n == 0 {
    } else {
      SilentFramesKeep(s, p, b, n - 1);
      FrameWithin(s, SilentFrames(s, p, n - 1), Silence(s.channels), b);
      FrameTracked(s, SilentFrames(s, p, n - 1), Silence(s.channels));
    }
  }

  lemma SilentStaysDead(s: Setup, p: Delay)
    requires Shaped(s, p) && !p.memory.live
    ensures !Frame(s, p, Silence(s.channels)).memory.live
  {
    hide Value, FramePeak, Peak;
    SilentDry(s.channels);
  }

  /** A silent frame that leaves history: what it appends, its filters and when it counts as quiet. */
  lemma SilentFrameLive(s: Setup, p: Delay)
    requires Shaped(s, p) && Tracked(p.memory, s.channels, s.capacity) && p.memory.live
    ensures var m, m', x := p.memory, Kept(s, p, Silence(s.channels)), Silence(s.channels);
            m'.live ==>
              && m'.reference == m.reference && m'.hist == m.hist + [Flushed(Value(s, p, x))]
              && KeptFilter(s, p, x) == NewFilter(s, p)
              && (FramePeak(s, p, x) <= Residual(m.reference) ==> m'.quiet == m.quiet + 1)
  {
    hide Value, FramePeak, Peak, Residual, Tracked, NewFilter, Flushed;
    TrackedParts(p.memory, s.channels, s.capacity);
    SilentDry(s.channels);
    SilentPeak(p.memory.reference, s.channels, s.channels);
  }

  // ---------------------------------------------------------------- the echoes of one frame

  /** Unfiltered, straight routing at a settled whole distance. */
  ghost predicate Steady(p: Delay, distance: nat, gain: real) {
    && p.left == 0 && p.heads.left == 0 && !p.heads.queued && p.heads.delay == distance as real
    && p.gain.now == gain && p.blend.now == 0.0 && p.routing.now == 0.0
  }

  /** A sample recorded at frame 0 returns every distance frames, scaled by the gain each time. */
  ghost function Echo(x: real, gain: real, distance: nat, i: nat): real
    requires distance > 0
  {
    if i == 0 then x else if i < distance then 0.0 else gain * Echo(x, gain, distance, i - distance)
  }

  lemma {:induction false} EchoAt(x: real, gain: real, distance: nat, j: nat)
    requires distance > 0
    ensures Echo(x, gain, distance, j * distance) == Pow(gain, j) * x
  {
    if j > 0 {
      assert j * distance - distance == (j - 1) * distance >= 0;
      EchoAt(x, gain, distance, j - 1);
    }
  }

  lemma {:induction false} EchoBetween(x: real, gain: real, distance: nat, j: nat, i: nat)
    requires distance > 0 && 0 < i < distance
    ensures Echo(x, gain, distance, j * distance + i) == 0.0
  {
    if j > 0 {
      assert j * distance + i - distance == (j - 1) * distance + i >= 0;
      EchoBetween(x, gain, distance, j - 1, i);
    }
  }

  lemma FlushTwice(gain: real, x: real)
    requires 0.0 <= gain <= 1.0
    ensures Flush(gain * Flush(x)) == Flush(gain * x)
  {
    if Abs(x) < FLOOR {
      GainWithin(gain, x, 1.0, Abs(x), gain * x);
    }
  }

  lemma SteadyDelayed(s: Setup, p: Delay, distance: nat, gain: real, c: nat)
    requires Shaped(s, p) && Steady(p, distance, gain) && 1 <= distance && c < s.channels
    requires !p.memory.live ==> p.memory.hist == []
    ensures Delayed(s, p)[c] == Past(p.memory.hist, distance, c)
  {
    WholeTap(p.memory.hist, distance, c);
  }

  lemma UnfilteredFeedback(d: seq<real>, f: seq<real>)
    requires |d| == |f|
    ensures Feedback(d, f, 0.0) == d
  {
  }

  lemma StraightInject(dry: seq<real>, fb: seq<real>, gain: real, c: nat)
    requires |dry| == |fb| && 1 <= |dry| <= 2 && c < |dry|
    ensures Inject(dry, fb, gain, 0.0)[c] == dry[c] + gain * fb[c]
  {
    if |dry| == 2 {
      RoutingMatrices(dry, fb, gain);
    }
  }

  /** A steady frame of history: the echo returns at the distance, scaled by the gain, and the input joins it. */
  lemma SteadyFrame(s: Setup, p: Delay, distance: nat, gain: real, x: seq<real>, c: nat)
    requires Shaped(s, p) && Steady(p, distance, gain) && 1 <= distance && |x| == s.channels && c < s.channels
    requires !p.memory.live ==> p.memory.hist == []
    ensures Value(s, p, x)[c] == Clamp(x[c]) + gain * Past(p.memory.hist, distance, c)
    ensures Output(s, p, x)[c] == (1.0 - p.mix.now) * Clamp(x[c]) + p.mix.now * Past(p.memory.hist, distance, c)
  {
    hide Past, Filtered, Delayed, Inject, Feedback;
    var d, f := Delayed(s, p), NewFilter(s, p);
    SteadyDelayed(s, p, distance, gain, c);
    UnfilteredFeedback(d, f);
    StraightInject(Clamped(x), d, gain, c);
  }

  ghost predicate EchoFrame(frame: seq<real>, x: seq<real>, gain: real, distance: nat, i: nat)
    requires distance > 0
  {
    |frame| == |x| && forall c :: 0 <= c < |x| ==> frame[c] == Flush(Echo(Clamp(x[c]), gain, distance, i))
  }

  ghost predicate Echoing(hist: seq<Samples>, x: seq<real>, gain: real, distance: nat)
    requires distance > 0
  {
    forall i :: 0 <= i < |hist| ==> EchoFrame(hist[i], x, gain, distance, i)
  }

  lemma SteadyStays(s: Setup, p: Delay, distance: nat, gain: real, x: seq<real>)
    requires Shaped(s, p) && Steady(p, distance, gain) && |x| == s.channels
    ensures Steady(Frame(s, p, x), distance, gain)
  {
    hide Kept, KeptFilter;
  }

  lemma EchoingAppend(hist: seq<Samples>, value: seq<real>, x: seq<real>, gain: real, distance: nat)
    requires distance > 0 && Echoing(hist, x, gain, distance) && EchoFrame(Flushed(value), x, gain, distance, |hist|)
    ensures Echoing(hist + [Flushed(value)], x, gain, distance)
  {
    hide EchoFrame, Flushed;
  }

  lemma PastEcho(hist: seq<Samples>, x: seq<real>, gain: real, distance: nat, c: nat)
    requires distance > 0 && Echoing(hist, x, gain, distance) && c < |x|
    requires forall i :: 0 <= i < |hist| ==> c < |hist[i]|
    ensures Past(hist, distance, c) ==
            if distance > |hist| then 0.0 else Flush(Echo(Clamp(x[c]), gain, distance, |hist| - distance))
  {
    if distance <= |hist| {
      assert EchoFrame(hist[|hist| - distance], x, gain, distance, |hist| - distance);
    }
  }

  lemma ReturnedEcho(value: real, past: real, x: real, gain: real, distance: nat, i: nat)
    requires 0 < i && 0 < distance && 0.0 <= gain <= 1.0 && value == gain * past
    requires past == if distance > i then 0.0 else Flush(Echo(x, gain, distance, i - distance))
    ensures Flush(value) == Flush(Echo(x, gain, distance, i))
  {
    if i >= distance {
      FlushTwice(gain, Echo(x, gain, distance, i - distance));
    }
  }

  lemma FirstEcho(s: Setup, p: Delay, x: seq<real>, distance: nat, gain: real)
    requires Shaped(s, p) && p.memory == NOTHING && Steady(p, distance, gain) && distance >= 1
    requires |x| == s.channels && InputSet(Clamped(x)) && Frame(s, p, x).memory.live
    ensures Frame(s, p, x).memory.hist == [Flushed(Value(s, p, x))]
    ensures Echoing([Flushed(Value(s, p, x))], x, gain, distance)
  {
    hide FramePeak, Peak, Residual, NewFilter, Flushed, Flush, Clamp, Clamped, Value;
    assert Frame(s, p, x).memory.hist == p.memory.hist + [Flushed(Value(s, p, x))];
    forall c | 0 <= c < s.channels ensures Value(s, p, x)[c] == Clamp(x[c]) {
      SteadyFrame(s, p, distance, gain, x, c);
    }
    assert EchoFrame(Flushed(Value(s, p, x)), x, gain, distance, 0);
    EchoingAppend([], Value(s, p, x), x, gain, distance);
    assert [] + [Flushed(Value(s, p, x))] == [Flushed(Value(s, p, x))];
  }

  lemma NextEcho(s: Setup, p: Delay, x: seq<real>, distance: nat, gain: real)
    requires Shaped(s, p) && p.memory.live && p.memory.hist != [] && Steady(p, distance, gain) && distance >= 1
    requires |x| == s.channels && 0.0 <= gain <= 1.0 && Echoing(p.memory.hist, x, gain, distance)
    ensures Echoing(p.memory.hist + [Flushed(Value(s, p, Silence(s.channels)))], x, gain, distance)
  {
    hide Flush, Clamp, Clamped, Value, Steady, Flushed, Echo, Output;
    var silence, i := Silence(s.channels), |p.memory.hist|;
    SilentDry(s.channels);
    forall c | 0 <= c < s.channels
      ensures Flush(Value(s, p, silence)[c]) == Flush(Echo(Clamp(x[c]), gain, distance, i))
    {
      SteadyFrame(s, p, distance, gain, silence, c);
      assert Clamped(silence)[c] == 0.0;
      PastEcho(p.memory.hist, x, gain, distance, c);
      ReturnedEcho(Value(s, p, silence)[c], Past(p.memory.hist, distance, c), Clamp(x[c]), gain, distance, i);
    }
    assert EchoFrame(Flushed(Value(s, p, silence)), x, gain, distance, i);
    EchoingAppend(p.memory.hist, Value(s, p, silence), x, gain, distance);
  }

  /**
   * After one frame of input and n of silence, the ring holds the input frame at every multiple of the distance, scaled
   * by the gain once per repeat, and zeros between.
   */
  lemma {:induction false} EchoTrain(s: Setup, p: Delay, x: seq<real>, distance: nat, gain: real, n: nat)
    requires Shaped(s, p) && p.memory == NOTHING && Steady(p, distance, gain) && distance >= 1
    requires |x| == s.channels && InputSet(Clamped(x)) && 0.0 <= gain <= 1.0
    requires SilentFrames(s, Frame(s, p, x), n).memory.live
    ensures var q := SilentFrames(s, Frame(s, p, x), n);
            && Steady(q, distance, gain) && Tracked(q.memory, s.channels, s.capacity)
            && |q.memory.hist| == n + 1 && Echoing(q.memory.hist, x, gain, distance)
  {
    hide Tracked, Echoing, Steady, Value, Shaped, Kept, KeptFilter, InputSet, Clamped;
    if n == 0 {
      SteadyStays(s, p, distance, gain, x);
      EmptyTracked(s);
      FrameTracked(s, p, x);
      FirstEcho(s, p, x, distance, gain);
    } else {
      var p1 := SilentFrames(s, Frame(s, p, x), n - 1);
      if !p1.memory.live {
        SilentStaysDead(s, p1);
        assert false;
      }
      EchoTrain(s, p, x, distance, gain, n - 1);
      SteadyStays(s, p1, distance, gain, Silence(s.channels));
      FrameTracked(s, p1, Silence(s.channels));
      SilentFrameLive(s, p1);
      NextEcho(s, p1, x, distance, gain);
    }
  }

  lemma EmptyTracked(s: Setup)
    ensures Tracked(NOTHING, s.channels, s.capacity)
  {
  }

  /** What is then heard: the wet share of that train, one distance later. */
  lemma EchoHeard(s: Setup, p: Delay, x: seq<real>, distance: nat, gain: real, n: nat, c: nat)
    requires Shaped(s, p) && p.memory == NOTHING && Steady(p, distance, gain) && distance >= 1 && c < s.channels
    requires |x| == s.channels && InputSet(Clamped(x)) && 0.0 <= gain <= 1.0
    requires SilentFrames(s, Frame(s, p, x), n).memory.live
    ensures var q := SilentFrames(s, Frame(s, p, x), n);
            Output(s, q, Silence(s.channels))[c] ==
            q.mix.now * if n + 1 < distance then 0.0 else Flush(Echo(Clamp(x[c]), gain, distance, n + 1 - distance))
  {
    hide Frame, SilentFrames, Steady, Flush, Clamped, Clamp, InputSet, Output, Value, Past, Echoing;
    var q := SilentFrames(s, Frame(s, p, x), n);
    EchoTrain(s, p, x, distance, gain, n);
    SilentDry(s.channels);
    SteadyFrame(s, q, distance, gain, Silence(s.channels), c);
    PastEcho(q.memory.hist, x, gain, distance, c);
    assert Clamped(Silence(s.channels))[c] == 0.0;
    DryShare(q.mix.now);
  }

  lemma DryShare(mix: real)
    ensures (1.0 - mix) * 0.0 == 0.0
  {
  }

  // ---------------------------------------------------------------- the damped echo

  /** The filter follows what it is given: between the old state and it, and 1 - a of the way behind. */
  lemma LowPassFollows(f: real, a: real, d: real)
    requires 0.0 <= a <= 1.0
    ensures Min(f, d) - FLOOR <= LowPass(f, a, d) <= Max(f, d) + FLOOR
    ensures Abs((LowPass(f, a, d) - d) - (1.0 - a) * (f - d)) < FLOOR
    ensures a == 1.0 ==> LowPass(f, a, d) == Flush(d)
    ensures a == 0.0 ==> LowPass(f, a, d) == Flush(f)
  {
    hide LowPass, Flush;
    var z := f + a * (d - f);
    LowPassIs(f, a, d, z);
    OnTheWay(f, a, d, z);
    Remains(f, a, d, z);
    NearFlush(z, d, (1.0 - a) * (f - d));
  }

  lemma OnTheWay(f: real, a: real, d: real, z: real)
    requires 0.0 <= a <= 1.0 && z == f + a * (d - f)
    ensures Min(f, d) <= z <= Max(f, d) && (a == 1.0 ==> z == d) && (a == 0.0 ==> z == f)
  {
    if f <= d {
      Scaled(a, d - f, z - f);
    } else {
      Opposite(a, d - f, f - d);
      Scaled(a, f - d, f - z);
    }
  }

  lemma Opposite(a: real, x: real, y: real)
    requires y == -x
    ensures a * y == -(a * x)
  {
  }

  lemma LowPassIs(f: real, a: real, d: real, z: real)
    requires z == f + a * (d - f)
    ensures LowPass(f, a, d) == Flush(z) && Abs(z - Flush(z)) < FLOOR
  {
  }

  lemma NearFlush(z: real, d: real, rest: real)
    requires z - d == rest
    ensures Abs((Flush(z) - d) - rest) < FLOOR
  {
  }

  lemma Scaled(a: real, w: real, p: real)
    requires 0.0 <= a <= 1.0 && w >= 0.0 && p == a * w
    ensures 0.0 <= p <= w && (a == 1.0 ==> p == w) && (a == 0.0 ==> p == 0.0)
  {
    MulMonotone(a, 1.0, w);
    ProductSign(a, w);
  }

  lemma Remains(f: real, a: real, d: real, z: real)
    requires z == f + a * (d - f)
    ensures z - d == (1.0 - a) * (f - d)
  {
  }

  /** Straight routing at a settled whole distance, under a filter. */
  ghost predicate Damped(p: Delay, distance: nat, gain: real, a: real, blend: real) {
    && p.left == 0 && p.heads.left == 0 && !p.heads.queued && p.heads.delay == distance as real
    && p.gain.now == gain && p.coefficient.now == a && p.blend.now == blend && p.routing.now == 0.0
  }

  /** What returns of an echo and its filtered version: the gain times their blend. */
  function Repeat(gain: real, blend: real, echo: real, filtered: real): (r: real)
    ensures (blend == 0.0 ==> r == gain * echo) && (blend == 1.0 ==> r == gain * filtered)
  {
    gain * ((1.0 - blend) * echo + blend * filtered)
  }

  /** A frame of history under a filter: what returns is the blend of the echo and its filtered version. */
  lemma DampedFrame(s: Setup, p: Delay, distance: nat, gain: real, a: real, blend: real, x: seq<real>, c: nat)
    requires Shaped(s, p) && Damped(p, distance, gain, a, blend) && 1 <= distance && |x| == s.channels
    requires c < s.channels && p.memory.live
    ensures var past := Past(p.memory.hist, distance, c);
            var filtered := LowPass(p.filter[c], a, past);
            && NewFilter(s, p)[c] == filtered
            && Value(s, p, x)[c] == Clamp(x[c]) + Repeat(gain, blend, past, filtered)
  {
    hide Past, LowPass, Inject, Feedback, Clamp;
    var d, f := Delayed(s, p), NewFilter(s, p);
    WholeTap(p.memory.hist, distance, c);
    var past := Past(p.memory.hist, distance, c);
    StraightInject(Clamped(x), Feedback(d, f, blend), gain, c);
    assert past + blend * (f[c] - past) == (1.0 - blend) * past + blend * f[c];
  }

  /** A recorded frame, and silence since. */
  ghost predicate Waiting(s: Setup, q: Delay, x: seq<real>, n: nat) {
    && |x| == s.channels && q.filter == Silence(s.channels) && |q.memory.hist| == n + 1
    && q.memory.hist[0] == Flushed(Clamped(x))
    && forall i :: 0 < i <= n ==> q.memory.hist[i] == Silence(s.channels)
  }

  lemma DampedStays(s: Setup, p: Delay, distance: nat, gain: real, a: real, blend: real, x: seq<real>)
    requires Shaped(s, p) && Damped(p, distance, gain, a, blend) && |x| == s.channels
    ensures Damped(Frame(s, p, x), distance, gain, a, blend)
  {
    hide Kept, KeptFilter;
  }

  lemma DampedRouting(p: Delay, distance: nat, gain: real, a: real, blend: real)
    requires Damped(p, distance, gain, a, blend)
    ensures p.routing.now == 0.0
  {
  }

  lemma FirstRecorded(s: Setup, p: Delay, x: seq<real>)
    requires Shaped(s, p) && p.memory == NOTHING && p.filter == Silence(s.channels) && p.routing.now == 0.0
    requires |x| == s.channels && InputSet(Clamped(x)) && Frame(s, p, x).memory.live
    ensures Waiting(s, Frame(s, p, x), x, 0)
  {
    hide FramePeak, Peak, Residual, Flushed, Flush, Clamp, Clamped, Inject;
    var d, f := Delayed(s, p), NewFilter(s, p);
    forall c | 0 <= c < s.channels
      ensures Value(s, p, x)[c] == Clamped(x)[c]
    {
      StraightInject(Clamped(x), Feedback(d, f, p.blend.now), p.gain.now, c);
      Nothing(p.blend.now, p.gain.now, Feedback(d, f, p.blend.now)[c]);
    }
    assert Value(s, p, x) == Clamped(x);
    assert Frame(s, p, x).memory.hist == [] + [Flushed(Clamped(x))];
  }

  lemma Nothing(blend: real, gain: real, fed: real)
    requires fed == 0.0 + blend * (0.0 - 0.0)
    ensures gain * fed == 0.0
  {
  }

  lemma WaitingNext(s: Setup, p: Delay, x: seq<real>, distance: nat, gain: real, a: real, blend: real, n: nat)
    requires Shaped(s, p) && Damped(p, distance, gain, a, blend) && Waiting(s, p, x, n) && n + 1 < distance
    requires p.memory.live && Tracked(p.memory, s.channels, s.capacity)
    requires Frame(s, p, Silence(s.channels)).memory.live
    ensures Waiting(s, Frame(s, p, Silence(s.channels)), x, n + 1)
  {
    hide Flushed, Clamp, Clamped, Value, NewFilter, Tracked, FramePeak, Damped, Output, LowPass, Repeat;
    var silence := Silence(s.channels);
    SilentDry(s.channels);
    forall c | 0 <= c < s.channels
      ensures Value(s, p, silence)[c] == 0.0 == NewFilter(s, p)[c]
    {
      DampedFrame(s, p, distance, gain, a, blend, silence, c);
      assert Clamped(silence)[c] == 0.0;
      SilentFilter(a, gain, blend);
    }
    SilentFrameLive(s, p);
    assert Flushed(Value(s, p, silence)) == silence;
    assert NewFilter(s, p) == silence;
  }

  lemma SilentFilter(a: real, gain: real, blend: real)
    ensures LowPass(0.0, a, 0.0) == 0.0 && Repeat(gain, blend, 0.0, 0.0) == 0.0
  {
  }

  lemma {:induction false} Waits(s: Setup, p: Delay, x: seq<real>, distance: nat, gain: real, a: real, blend: real,
                                 n: nat)
    requires Shaped(s, p) && p.memory == NOTHING && p.filter == Silence(s.channels)
    requires Damped(p, distance, gain, a, blend) && n < distance && |x| == s.channels && InputSet(Clamped(x))
    requires SilentFrames(s, Frame(s, p, x), n).memory.live
    ensures var q := SilentFrames(s, Frame(s, p, x), n);
            Damped(q, distance, gain, a, blend) && Tracked(q.memory, s.channels, s.capacity) && Waiting(s, q, x, n)
  {
    hide Tracked, Damped, Waiting, Value, Shaped, Kept, KeptFilter, InputSet, Clamped;
    if n == 0 {
      DampedStays(s, p, distance, gain, a, blend, x);
      EmptyTracked(s);
      FrameTracked(s, p, x);
      DampedRouting(p, distance, gain, a, blend);
      FirstRecorded(s, p, x);
    } else {
      var p1 := SilentFrames(s, Frame(s, p, x), n - 1);
      if !p1.memory.live {
        SilentStaysDead(s, p1);
        assert false;
      }
      Waits(s, p, x, distance, gain, a, blend, n - 1);
      DampedStays(s, p1, distance, gain, a, blend, Silence(s.channels));
      FrameTracked(s, p1, Silence(s.channels));
      WaitingNext(s, p1, x, distance, gain, a, blend, n - 1);
    }
  }

  /**
   * The first repeat under a filter at rest, one distance after a frame of input: the gain times the blend of that
   * frame and of a times it.
   */
  lemma FirstRepeat(s: Setup, p: Delay, x: seq<real>, distance: nat, gain: real, a: real, blend: real, c: nat)
    requires Shaped(s, p) && p.memory == NOTHING && p.filter == Silence(s.channels) && distance >= 1
    requires Damped(p, distance, gain, a, blend) && |x| == s.channels && InputSet(Clamped(x)) && c < s.channels
    requires SilentFrames(s, Frame(s, p, x), distance).memory.live
    ensures var q, first := SilentFrames(s, Frame(s, p, x), distance), Flush(Clamp(x[c]));
            && |q.memory.hist| == distance + 1 && q.memory.hist[0][c] == first
            && (forall i :: 0 < i < distance ==> q.memory.hist[i][c] == 0.0)
            && q.memory.hist[distance][c] == Flush(Repeat(gain, blend, first, Flush(Mul(a, first))))
  {
    hide Tracked, Damped, Value, Shaped, Kept, KeptFilter, InputSet, Clamped, Flush, LowPass, FramePeak, NewFilter,
         Repeat, Mul;
    var p1 := SilentFrames(s, Frame(s, p, x), distance - 1);
    if !p1.memory.live {
      SilentStaysDead(s, p1);
      assert false;
    }
    Waits(s, p, x, distance, gain, a, blend, distance - 1);
    SilentFrameLive(s, p1);
    var first, v := Flush(Clamp(x[c])), Value(s, p1, Silence(s.channels))[c];
    assert Past(p1.memory.hist, distance, c) == first;
    RestingFilter(a, first);
    SilentDry(s.channels);
    DampedFrame(s, p1, distance, gain, a, blend, Silence(s.channels), c);
    assert Clamp(Silence(s.channels)[c]) == 0.0;
    assert p1.filter[c] == 0.0;
    var q := SilentFrames(s, Frame(s, p, x), distance);
    assert q.memory.hist[distance] == Flushed(Value(s, p1, Silence(s.channels)));
    assert q.memory.hist[distance][c] == Flush(v);
  }

  /** A filter at rest passes a times what it is given. */
  lemma RestingFilter(a: real, d: real)
    ensures LowPass(0.0, a, d) == Flush(Mul(a, d))
  {
    hide Flush, LowPass;
    var z := 0.0 + a * (d - 0.0);
    LowPassIs(0.0, a, d, z);
    Remains(0.0, a, d, z);
    Complement(a, d);
  }

  lemma Complement(a: real, d: real)
    ensures d + (1.0 - a) * (0.0 - d) == a * d
  {
  }

  lemma SilentPeakWithin(s: Setup, p: Delay, bound: real)
    requires Shaped(s, p) && bound >= 0.0
    requires FilterWithin(Value(s, p, Silence(s.channels)), bound) && FilterWithin(NewFilter(s, p), bound)
    ensures FramePeak(s, p, Silence(s.channels)) <= bound
  {
    hide Value, NewFilter, Abs;
    var value, f := Value(s, p, Silence(s.channels)), NewFilter(s, p);
    LoudestWithin(value, |value|, bound);
    PeakWithin(f, |f|, bound);
  }

  lemma {:induction false} PeakWithin(f: seq<real>, i: nat, bound: real)
    requires FilterWithin(f, bound) && i <= |f| && bound >= 0.0
    ensures Peak(0.0, f, i) <= bound
  {
    if i == 0 {
    } else {
      PeakWithin(f, i - 1, bound);
    }
  }

  ghost predicate FilterBefore(f: seq<real>, r: real, e: real) {
    forall c :: 0 <= c < |f| ==> Mul(r, Abs(f[c])) <= e
  }

  /** The signals of a silent frame n frames after input ended are within C r^n. */
  lemma SilentSignals(s: Setup, p: Delay, b: Bounds, q: real, c: real, r: real, start: nat)
    requires Shaped(s, p) && Within(s, p, b) && p.memory.live && b.most >= 0.0 && b.least <= 1.0 && c >= 0.0
    requires RateHolds(b.most, b.least, Reach(b), q, r) && start <= |p.memory.hist|
    requires Decaying(p.memory.hist, s.channels, b.most, c, r, start)
    requires FilterBefore(p.filter, r, Envelope(c, r, |p.memory.hist| - start))
    ensures var e := Envelope(c, r, |p.memory.hist| - start);
            && e >= 0.0
            && FilterWithin(NewFilter(s, p), e)
            && FilterWithin(Feedback(Delayed(s, p), NewFilter(s, p), p.blend.now), e)
  {
    hide Mul, Pow, OnLine, Delayed, Reach, Past, Abs, LowPass, Envelope, Feedback, Decaying;
    var n := |p.memory.hist| - start;
    var e, k := Envelope(c, r, n), Reach(b);
    var bound := Mul(q, e);
    EnvelopeFacts(c, r, n, n);
    MulSign(q, e);
    MulOrdered(e, q, 1.0);
    MulLaws(e, 1.0, 1.0);
    forall d, ch | 1 <= d <= k && 0 <= ch < s.channels
      ensures Abs(Past(p.memory.hist, d, ch)) <= bound
    {
      ReachableDecays(p.memory.hist, s.channels, b.most, k, q, c, r, start, d, ch);
    }
    DelayedWithin(s, p, b, bound);
    var d, f := Delayed(s, p), NewFilter(s, p);
    forall ch | 0 <= ch < s.channels
      ensures Abs(f[ch]) <= e
    {
      FilterDecays(p.filter[ch], p.coefficient.now, d[ch], b.least, q, r, e);
    }
    LargerFilter(d, bound, e);
    FeedbackWithin(d, f, p.blend.now, e);
  }

  /** A silent frame keeps the decay: the writes and the filters follow C r^n for one more n. */
  lemma SilentFrameDecays(s: Setup, p: Delay, b: Bounds, q: real, c: real, r: real, start: nat)
    requires Shaped(s, p) && Within(s, p, b) && p.memory.live && 0.0 <= b.most <= 1.0 && b.least <= 1.0 && c >= 0.0
    requires Tracked(p.memory, s.channels, s.capacity) && b.longest >= 0.0
    requires RateHolds(b.most, b.least, Reach(b), q, r) && start <= |p.memory.hist|
    requires Decaying(p.memory.hist, s.channels, b.most, c, r, start)
    requires FilterBefore(p.filter, r, Envelope(c, r, |p.memory.hist| - start))
    ensures var n, x := |p.memory.hist| - start, Silence(s.channels);
            Kept(s, p, x).live ==>
              && Decaying(Kept(s, p, x).hist, s.channels, b.most, c, r, start)
              && FilterBefore(KeptFilter(s, p, x), r, Envelope(c, r, n + 1))
              && (Envelope(c, r, n) <= Residual(p.memory.reference) ==> Kept(s, p, x).quiet == p.memory.quiet + 1)
  {
    hide *;
    TrackedParts(p.memory, s.channels, s.capacity);
    RateParts(b.most, b.least, Reach(b), q, r);
    var n, x := |p.memory.hist| - start, Silence(s.channels);
    var e := Envelope(c, r, n);
    var written := Mul(b.most, e);
    SilentSignals(s, p, b, q, c, r, start);
    SilentDry(s.channels);
    ZeroWithin(s.channels);
    MulIs(b.most, e);
    MulSign(b.most, e);
    MulOrdered(e, b.most, 1.0);
    MulLaws(e, 1.0, 1.0);
    ValueWithin(s, p, b, x, 0.0, e, written);
    ZeroSum(b.most, e);
    LargerFilter(Value(s, p, x), written, e);
    SilentPeakWithin(s, p, e);
    SilentFrameLive(s, p);
    DecayingAppend(p.memory.hist, Value(s, p, x), s.channels, b.most, c, r, start);
    FilterNext(NewFilter(s, p), r, c, n);
  }

  lemma RateParts(g: real, a: real, k: nat, q: real, r: real)
    requires RateHolds(g, a, k, q, r)
    ensures 0.0 < r <= 1.0 && 0.0 <= q <= 1.0
  {
  }

  lemma ZeroSum(g: real, e: real)
    ensures 0.0 + g * e <= Mul(g, e)
  {
  }

  lemma FilterNext(f: seq<real>, r: real, c: real, n: nat)
    requires 0.0 < r <= 1.0 && c >= 0.0 && FilterWithin(f, Envelope(c, r, n))
    ensures FilterBefore(f, r, Envelope(c, r, n + 1))
  {
    hide Mul, Envelope, Abs;
    EnvelopeFacts(c, r, n, n);
    forall i | 0 <= i < |f|
      ensures Mul(r, Abs(f[i])) <= Envelope(c, r, n + 1)
    {
      MulOrdered(r, Abs(f[i]), Envelope(c, r, n));
    }
  }

  lemma DecayingAppend(hist: seq<Samples>, value: Samples, channels: nat, g: real, c: real, r: real, start: nat)
    requires Decaying(hist, channels, g, c, r, start) && start <= |hist| && |value| == channels
    requires FilterWithin(value, Mul(g, Envelope(c, r, |hist| - start)))
    ensures Decaying(hist + [Flushed(value)], channels, g, c, r, start)
  {
    hide Mul, Envelope, Flush, Abs;
    var hist' := hist + [Flushed(value)];
    forall i, ch | 0 <= i < |hist'| && 0 <= ch < channels && ch < |hist'[i]|
      ensures Abs(hist'[i][ch]) <= Mul(g, Envelope(c, r, if i < start then 0 else i - start))
    {
      if i < |hist| {
        assert Abs(hist[i][ch]) <= Mul(g, Envelope(c, r, if i < start then 0 else i - start));
      }
    }
  }

  /**
   * The feedback signal and the filters n frames after input ended are under C r^n, for every gain, coefficient,
   * routing and read distance within the bounds.
   */
  lemma {:induction false} SilentFramesDecay(s: Setup, p: Delay, b: Bounds, q: real, c: real, r: real, n: nat)
    requires Shaped(s, p) && Within(s, p, b) && 0.0 <= b.most <= 1.0 && b.least <= 1.0 && c >= 0.0
    requires Tracked(p.memory, s.channels, s.capacity) && b.longest >= 0.0
    requires RateHolds(b.most, b.least, Reach(b), q, r)
    requires AllWithin(p.memory.hist, s.channels, Mul(b.most, c)) && FilterBefore(p.filter, r, c)
    requires SilentFrames(s, p, n).memory.live
    ensures var p', start := SilentFrames(s, p, n), |p.memory.hist|;
            && p'.memory.reference == p.memory.reference && |p'.memory.hist| == start + n
            && Decaying(p'.memory.hist, s.channels, b.most, c, r, start)
            && FilterBefore(p'.filter, r, Envelope(c, r, n))
  {
    hide Mul, Envelope, Within, Kept, KeptFilter, Tracked, Shaped, RateHolds, Decaying, FilterBefore, Abs, AllWithin,
         Flushed;
    RateParts(b.most, b.least, Reach(b), q, r);
    EnvelopeFacts(c, r, 0, 0);
    if n == 0 {
      DecayStarts(p.memory.hist, s.channels, b.most, c, r);
    } else {
      var p1, x := SilentFrames(s, p, n - 1), Silence(s.channels);
      if !p1.memory.live {
        SilentStaysDead(s, p1);
        assert false;
      }
      SilentFramesDecay(s, p, b, q, c, r, n - 1);
      SilentFramesKeep(s, p, b, n - 1);
      SilentFrameDecays(s, p1, b, q, c, r, |p.memory.hist|);
      SilentFrameLive(s, p1);
    }
  }

  lemma DecayStarts(hist: seq<Samples>, channels: nat, g: real, c: real, r: real)
    requires AllWithin(hist, channels, Mul(g, c)) && Envelope(c, r, 0) == c
    ensures Decaying(hist, channels, g, c, r, |hist|)
  {
    hide Mul, Envelope, Abs;
  }

  // ---------------------------------------------------------------- the decay rate

  /** head_rate(Q) is the K-th root of g / Q. */
  ghost predicate HeadRate(head: real -> real, g: real, k: nat) {
    forall q {:trigger head(q)} :: g <= q <= 1.0 ==> 0.0 < head(q) <= 1.0 && Mul(q, Pow(head(q), k)) == g
  }

  /** (1 - a) / (1 - a Q); at a = Q = 1 it is no number, which loses every comparison. */
  function FilterRate(a: real, q: real): (f: real)
    requires 0.0 < a <= 1.0 && q <= 1.0
  {
    UnitProduct(a, q);
    if a * q == 1.0 then 0.0 else (1.0 - a) / (1.0 - a * q)
  }

  lemma UnitProduct(a: real, q: real)
    requires 0.0 < a <= 1.0 && q <= 1.0
    ensures a * q <= 1.0
  {
    MulMonotone(q, 1.0, a);
  }

  lemma FilterRateRange(a: real, q: real)
    requires 0.0 < a <= 1.0 && 0.0 <= q <= 1.0 && a * q <= 1.0
    ensures 0.0 <= FilterRate(a, q) <= 1.0
    ensures a * q < 1.0 ==> FilterRate(a, q) * (1.0 - a * q) == 1.0 - a
    ensures a * q == 1.0 ==> a == 1.0
  {
    var m, x := 1.0 - a * q, 1.0 - a;
    if m == 0.0 {
      BothOne(a, q);
    } else {
      MulMonotone(q, 1.0, a);
      assert m >= x;
      QuotientBelow(x, m);
    }
  }

  lemma QuotientBelow(x: real, n: real)
    requires 0.0 <= x <= n && n > 0.0
    ensures 0.0 <= x / n <= 1.0 && (x / n) * n == x
  {
    QuotientTimes(x, n);
    CancelLoose(n, x / n, 1.0);
    CancelLoose(n, 0.0, x / n);
  }

  lemma FilterRateHolds(a: real, q: real)
    requires 0.0 < a <= 1.0 && 0.0 <= q <= 1.0
    ensures 0.0 <= FilterRate(a, q) <= 1.0
    ensures forall r {:trigger Mul(q, r)} :: r >= FilterRate(a, q) ==> (1.0 - a) + Mul(a, Mul(q, r)) <= r
  {
    UnitProduct(a, q);
    FilterRateRange(a, q);
    forall r | r >= FilterRate(a, q)
      ensures (1.0 - a) + Mul(a, Mul(q, r)) <= r
    {
      FilterCondition(a, q, FilterRate(a, q), r);
    }
  }

  lemma BothOne(a: real, q: real)
    requires a <= 1.0 && 0.0 <= q <= 1.0 && a * q == 1.0 && a > 0.0
    ensures a == 1.0 && q == 1.0
  {
    MulMonotone(q, 1.0, a);
    MulMonotone(a, 1.0, q);
  }

  lemma FilterCondition(a: real, q: real, f: real, r: real)
    requires 0.0 < a <= 1.0 && 0.0 <= q <= 1.0 && r >= f
    requires a * q < 1.0 ==> f * (1.0 - a * q) == 1.0 - a
    requires a * q == 1.0 ==> a == 1.0
    requires a * q <= 1.0
    ensures (1.0 - a) + Mul(a, Mul(q, r)) <= r
  {
    var m := 1.0 - a * q;
    MulMonotone(f, r, m);
    assert Mul(a, Mul(q, r)) == r - r * m;
  }

  /** Every q of the bracket gives a valid rate: the larger of the two rates at q. */
  lemma BracketValid(g: real, a: real, k: nat, head: real -> real, q: real)
    requires 0.0 < g <= q <= 1.0 && 0.0 < a <= 1.0 && HeadRate(head, g, k)
    ensures RateHolds(g, a, k, q, Max(head(q), FilterRate(a, q)))
  {
    hide Mul, Pow, FilterRate;
    var r := Max(head(q), FilterRate(a, q));
    FilterRateHolds(a, q);
    assert (1.0 - a) + Mul(a, Mul(q, r)) <= r;
    PowOrdered(head(q), r, k);
    MulOrdered(q, Pow(head(q), k), Pow(r, k));
  }

  /**
   * The bisection of delay_decay_bound().  The upper end of its bracket satisfies both conditions, and at the end it is
   * still one unless the filter governs there.
   */
  method DecayRate(feedback: real, coefficient: real, reach: nat, head: real -> real) returns (q: real, r: real)
    requires 0.0 < feedback && 0.0 < coefficient <= 1.0 && reach > 0
    requires HeadRate(head, Min(feedback, MAX_FEEDBACK), reach)
    ensures Min(feedback, MAX_FEEDBACK) <= q <= 1.0
    ensures RateHolds(Min(feedback, MAX_FEEDBACK), coefficient, reach, q, r)
    ensures r == Max(head(q), FilterRate(coefficient, q))
    ensures q == 1.0 || head(q) <= FilterRate(coefficient, q) == r
    ensures r < 1.0 <==> q < 1.0 || coefficient == 1.0
  {
    hide Mul, Pow, FilterRate, RateHolds;
    var g := Min(feedback, MAX_FEEDBACK);
    var low, high := g, 1.0;
    for i := 0 to 64
      invariant g <= low < high <= 1.0
      invariant high == 1.0 || head(high) <= FilterRate(coefficient, high)
    {
      var mid := 0.5 * (low + high);
      if head(mid) > FilterRate(coefficient, mid) {
        low := mid;
      } else {
        high := mid;
      }
    }
    q, r := high, Max(head(high), FilterRate(coefficient, high));
    BracketValid(g, coefficient, reach, head, high);
    HeadFalls(g, reach, head, high);
    FilterFalls(coefficient, high);
  }

  /** Above the gain the head rate is below one. */
  lemma HeadFalls(g: real, k: nat, head: real -> real, q: real)
    requires HeadRate(head, g, k) && 0.0 < g < q <= 1.0
    ensures head(q) < 1.0
  {
    if head(q) == 1.0 {
      PowOnes(k);
      MulLaws(1.0, q, 1.0);
    }
  }

  /** The filter rate is below one for every q below one, and at one only without a filter. */
  lemma FilterFalls(a: real, q: real)
    requires 0.0 < a <= 1.0 && 0.0 <= q <= 1.0
    ensures FilterRate(a, q) < 1.0 <==> q < 1.0 || a == 1.0
  {
    UnitProduct(a, q);
    var aq := a * q;
    if aq == 1.0 {
      BothOne(a, q);
    } else {
      var m, f := 1.0 - aq, FilterRate(a, q);
      QuotientTimes(1.0 - a, m);
      if q < 1.0 {
        ProductIs(a, 1.0 - q, a - aq);
        CancelStrict(m, f, 1.0);
      } else if a < 1.0 {
        assert aq == a;
        CancelLoose(m, 1.0, f);
      }
    }
  }

  // ---------------------------------------------------------------- the tail

  /** n frames suffice for delay_decay_bound(): r^n H / g is within the residual. */
  ghost predicate DecayedBy(g: real, r: real, n: nat) {
    g > 0.0 && Mul(Pow(r, n), HEADROOM) <= Mul(g, RESIDUAL)
  }

  /**
   * The decay takes finitely many frames exactly if the rate is below
   * one; otherwise the source's bound is unlimited.
   */
  lemma DecaysInTime(g: real, r: real)
    requires 0.0 < g <= 1.0 && 0.0 < r <= 1.0
    ensures r < 1.0 <==> exists n: nat :: DecayedBy(g, r, n)
  {
    if r < 1.0 {
      var n := EnoughFrames(g, r);
      assert DecayedBy(g, r, n);
    } else {
      forall n: nat
        ensures !DecayedBy(g, r, n)
      {
        PowOnes(n);
        MulOrdered(RESIDUAL, g, 1.0);
        MulLaws(g, RESIDUAL, 1.0);
        MulLaws(1.0, HEADROOM, 1.0);
      }
    }
  }

  lemma EnoughFrames(g: real, r: real) returns (n: nat)
    requires 0.0 < g && 0.0 < r < 1.0
    ensures DecayedBy(g, r, n)
  {
    hide Pow;
    var h, e := 1.0 / r - 1.0, g * RESIDUAL;
    QuotientTimes(1.0, r);
    CancelStrict(r, 1.0, 1.0 / r);
    ProductIs(g, RESIDUAL, e);
    var x := HEADROOM / (h * e);
    ProductPositive(h, e);
    QuotientTimes(HEADROOM, h * e);
    CancelStrict(h * e, 0.0, x);
    n := x.Floor + 1;
    Bernoulli(r, h, n);
    PowPositive(r, n);
    EnoughArithmetic(Pow(r, n), n as real, h, e, x);
  }

  lemma EnoughArithmetic(p: real, n: real, h: real, e: real, x: real)
    requires p > 0.0 && h > 0.0 && e > 0.0 && n >= x && x * (h * e) == HEADROOM
    requires Mul(p, 1.0 + Mul(n, h)) <= 1.0
    ensures Mul(p, HEADROOM) <= e
  {
    hide Mul;
    ProductPositive(h, e);
    MulMonotone(x, n, h * e);
    MulIs(n, h);
    var nh := Mul(n, h);
    assert HEADROOM <= nh * e by {
      assert n * (h * e) == (n * h) * e;
    }
    MulAdds(p, 1.0, nh);
    MulLaws(p, 1.0, 1.0);
    MulLaws(1.0, p, 1.0);
    MulOrdered(e, Mul(p, nh), 1.0);
    MulLaws(e, 1.0, 1.0);
    MulLaws(p, nh, e);
    MulLaws(Mul(p, nh), e, 1.0);
    MulIs(nh, e);
    MulOrdered(p, HEADROOM, Mul(nh, e));
  }

  /** (1 / r)^n is at least 1 + n (1 / r - 1). */
  lemma {:induction false} Bernoulli(r: real, h: real, n: nat)
    requires 0.0 < r < 1.0 && h > 0.0 && r * (1.0 + h) == 1.0
    ensures Mul(Pow(r, n), 1.0 + Mul(n as real, h)) <= 1.0
  {
    if n > 0 {
      Bernoulli(r, h, n - 1);
      PowPositive(r, n - 1);
      BernoulliStep(Pow(r, n - 1), r, h, (n - 1) as real);
    }
  }

  lemma BernoulliStep(p: real, r: real, h: real, m: real)
    requires p > 0.0 && 0.0 < r < 1.0 && h > 0.0 && r * (1.0 + h) == 1.0 && m >= 0.0 && Mul(p, 1.0 + Mul(m, h)) <= 1.0
    ensures Mul(r * p, 1.0 + Mul(m + 1.0, h)) <= 1.0
  {
    var mh := m * h;
    ProductSign(m, h);
    assert r * (1.0 + mh + h) == 1.0 + r * mh;
    MulMonotone(r, 1.0, mh);
    var s := r * (1.0 + mh + h);
    assert s <= 1.0 + mh;
    MulMonotone(s, 1.0 + mh, p);
    assert (r * p) * (1.0 + (m + 1.0) * h) == s * p;
  }

  lemma DecayedEnough(g: real, r: real, n: nat, m: nat, c: real, reference: real)
    requires DecayedBy(g, r, n) && 0.0 < r <= 1.0 && m >= n && reference >= 0.0 && Mul(g, c) == HEADROOM * reference
    ensures Envelope(c, r, m) <= Residual(reference)
  {
    hide Mul, Pow, Residual;
    var h := HEADROOM;
    PowShrinks(r, n, m);
    MulOrdered(h, Pow(r, m), Pow(r, n));
    MulIs(h, reference);
    assert Mul(g, c) == Mul(h, reference);
    MulLaws(g, Pow(r, m), c);
    MulLaws(Pow(r, m), g, c);
    MulLaws(Pow(r, m), h, reference);
    MulOrdered(reference, Mul(Pow(r, m), h), Mul(g, RESIDUAL));
    MulLaws(g, RESIDUAL, reference);
    MulIs(RESIDUAL, reference);
    CancelMul(g, Mul(Pow(r, m), c), Mul(RESIDUAL, reference));
  }

  lemma FeedbackStart(s: Setup, p: Delay, g: real, c: real, r: real)
    requires Stable(s, p) && 0.0 < g <= 1.0 && 0.0 < r <= 1.0 && Mul(g, c) == HEADROOM * p.memory.reference
    ensures c >= 0.0 && AllWithin(p.memory.hist, s.channels, Mul(g, c)) && FilterBefore(p.filter, r, c)
  {
    hide Abs;
    var top := HEADROOM * p.memory.reference;
    if c < 0.0 {
      ProductIs(g, -c, -(g * c));
    }
    MulOrdered(c, g, 1.0);
    forall i | 0 <= i < |p.filter|
      ensures Mul(r, Abs(p.filter[i])) <= c
    {
      AbsSign(p.filter[i]);
      MulOrdered(Abs(p.filter[i]), r, 1.0);
    }
  }

  lemma AbsSign(x: real)
    ensures Abs(x) >= 0.0
  {
  }

  lemma SilentTailQuiet(s: Setup, p: Delay, b: Bounds, q: real, c: real, r: real, n: nat, i: nat)
    requires Stable(s, p) && Within(s, p, b) && 0.0 < b.most <= 1.0 && b.least <= 1.0 && b.longest >= 0.0
    requires RateHolds(b.most, b.least, Reach(b), q, r) && DecayedBy(b.most, r, n) && i >= n
    requires Mul(b.most, c) == HEADROOM * p.memory.reference
    requires SilentFrames(s, p, i + 1).memory.live
    ensures SilentFrames(s, p, i).memory.live
    ensures SilentFrames(s, p, i + 1).memory.quiet == SilentFrames(s, p, i).memory.quiet + 1
  {
    hide Mul, Envelope, Within, Kept, KeptFilter, Tracked, Shaped, RateHolds, Decaying, FilterBefore, Abs, AllWithin,
         DecayedBy, FilterWithin, Residual;
    var p1 := SilentFrames(s, p, i);
    TrackedParts(p.memory, s.channels, s.capacity);
    RateParts(b.most, b.least, Reach(b), q, r);
    FeedbackStart(s, p, b.most, c, r);
    if !p1.memory.live {
      SilentStaysDead(s, p1);
      assert false;
    }
    SilentFramesDecay(s, p, b, q, c, r, i);
    SilentFramesKeep(s, p, b, i);
    DecayedEnough(b.most, r, n, i, c, p.memory.reference);
    SilentFrameDecays(s, p1, b, q, c, r, |p.memory.hist|);
  }

  /** After input ends, the history retires within the decay and one ring of quiet frames. */
  lemma TailEnds(s: Setup, p: Delay, b: Bounds, q: real, r: real, n: nat)
    requires Stable(s, p) && Within(s, p, b) && 0.0 < b.most <= 1.0 && b.least <= 1.0 && b.longest >= 0.0
    requires RateHolds(b.most, b.least, Reach(b), q, r) && DecayedBy(b.most, r, n)
    ensures !SilentFrames(s, p, n + s.capacity).memory.live
  {
    hide Mul, Within, Tracked, Shaped, RateHolds, AllWithin, DecayedBy, FilterWithin, SilentFrames;
    var c := HEADROOM * p.memory.reference / b.most;
    QuotientMul(HEADROOM * p.memory.reference, b.most, c);
    forall i: nat | i >= n && SilentFrames(s, p, i + 1).memory.live
      ensures SilentFrames(s, p, i).memory.live
      ensures SilentFrames(s, p, i + 1).memory.quiet == SilentFrames(s, p, i).memory.quiet + 1
    {
      SilentTailQuiet(s, p, b, q, c, r, n, i);
    }
    RetiresFrom(s, p, b, n);
  }

  lemma QuotientMul(x: real, n: real, c: real)
    requires n > 0.0 && c == x / n
    ensures Mul(n, c) == x
  {
    QuotientTimes(x, n);
  }

  lemma RetiresFrom(s: Setup, p: Delay, b: Bounds, n: nat)
    requires Shaped(s, p) && Tracked(p.memory, s.channels, s.capacity) && Within(s, p, b)
    requires forall i: nat {:trigger SilentFrames(s, p, i)} :: i >= n && SilentFrames(s, p, i + 1).memory.live ==>
               SilentFrames(s, p, i).memory.live
               && SilentFrames(s, p, i + 1).memory.quiet == SilentFrames(s, p, i).memory.quiet + 1
    ensures !SilentFrames(s, p, n + s.capacity).memory.live
  {
    hide Within, Tracked, SilentFrames, Shaped;
    var ms := Memories(s, p);
    forall i: nat | ms(i).live
      ensures ms(i).quiet < s.capacity
    {
      SilentFramesKeep(s, p, b, i);
      TrackedParts(ms(i), s.channels, s.capacity);
    }
    forall i: nat | i >= n && ms(i + 1).live
      ensures ms(i).live && ms(i + 1).quiet == ms(i).quiet + 1
    {
      assert SilentFrames(s, p, i).memory == ms(i);
    }
    QuietRetires(ms, n, s.capacity);
  }

  ghost function Memories(s: Setup, p: Delay): (ms: nat -> Memory)
    requires Shaped(s, p)
    ensures forall i: nat {:trigger ms(i)} :: ms(i) == SilentFrames(s, p, i).memory
  {
    (i: nat) => if Shaped(s, p) then SilentFrames(s, p, i).memory else NOTHING
  }

  // ---------------------------------------------------------------- the tail without feedback

  /** Without feedback, every write since the silence began is zero. */
  ghost predicate Drained(hist: seq<Samples>, channels: nat, start: nat) {
    forall i, ch :: start <= i < |hist| && 0 <= ch < channels && ch < |hist[i]| ==> Abs(hist[i][ch]) <= 0.0
  }

  /** The filters follow the history for one pass of K frames, then fall by 1 - a. */
  ghost function Draining(top: real, least: real, k: nat, n: nat): real {
    if n <= k then top else Mul(Pow(1.0 - least, n - k), top)
  }

  lemma DrainingFacts(top: real, least: real, k: nat, n: nat)
    requires top >= 0.0 && 0.0 < least <= 1.0
    ensures Draining(top, least, k, n) >= 0.0
    ensures n >= k ==> Draining(top, least, k, n + 1) == Mul(1.0 - least, Draining(top, least, k, n))
  {
    hide Mul, Pow;
    if n >= k {
      PowShrinks(1.0 - least, 0, n - k);
      MulSign(Pow(1.0 - least, n - k), top);
      PowUnfolds(1.0 - least, n + 1 - k);
      PowUnfolds(1.0 - least, n - k);
      MulLaws(1.0 - least, Pow(1.0 - least, n - k), top);
      MulLaws(1.0 - least, 1.0, 1.0);
      MulLaws(top, 1.0, 1.0);
    }
  }

  lemma LowPassFalls(s: real, a: real, least: real, e: real)
    requires 0.0 < least <= a <= 1.0 && Abs(s) <= e
    ensures Abs(LowPass(s, a, 0.0)) <= Mul(1.0 - least, e)
  {
    hide Mul, LowPass;
    LowPassBound(s, a, 0.0);
    NothingMul(a);
    MulOrdered(1.0 - a, Abs(s), e);
    MulOrdered(e, 1.0 - a, 1.0 - least);
  }

  lemma NothingMul(a: real)
    ensures Mul(a, Abs(0.0)) == 0.0
  {
  }

  lemma ReachableDrained(hist: seq<Samples>, channels: nat, top: real, k: nat, start: nat, d: nat, ch: nat)
    requires Drained(hist, channels, start) && AllWithin(hist, channels, top) && Wide(hist, channels) && top >= 0.0
    requires start <= |hist| && 1 <= d <= k && ch < channels
    ensures Abs(Past(hist, d, ch)) <= if |hist| - start >= k then 0.0 else top
  {
  }

  /** The signals of a silent frame without feedback. */
  lemma DrainSignals(s: Setup, p: Delay, b: Bounds, top: real, start: nat)
    requires Shaped(s, p) && Within(s, p, b) && p.memory.live && b.least <= 1.0 && top >= 0.0 && b.longest >= 0.0
    requires Drained(p.memory.hist, s.channels, start) && AllWithin(p.memory.hist, s.channels, top)
    requires start <= |p.memory.hist|
    requires FilterWithin(p.filter, Draining(top, b.least, Reach(b), |p.memory.hist| - start))
    ensures FilterWithin(NewFilter(s, p), Draining(top, b.least, Reach(b), |p.memory.hist| - start + 1))
    ensures FilterWithin(Feedback(Delayed(s, p), NewFilter(s, p), p.blend.now),
                         top + Draining(top, b.least, Reach(b), |p.memory.hist| - start + 1))
  {
    hide Mul, Pow, OnLine, Delayed, Reach, Past, Abs, LowPass, Draining, Feedback, Drained;
    var n, k := |p.memory.hist| - start, Reach(b);
    var bound, e := if n >= k then 0.0 else top, Draining(top, b.least, k, n);
    var e' := Draining(top, b.least, k, n + 1);
    DrainingFacts(top, b.least, k, n);
    DrainingFacts(top, b.least, k, n + 1);
    forall d, ch | 1 <= d <= k && 0 <= ch < s.channels
      ensures Abs(Past(p.memory.hist, d, ch)) <= bound
    {
      ReachableDrained(p.memory.hist, s.channels, top, k, start, d, ch);
    }
    DelayedWithin(s, p, b, bound);
    var d, f := Delayed(s, p), NewFilter(s, p);
    forall ch | 0 <= ch < s.channels
      ensures Abs(f[ch]) <= e'
    {
      if n >= k {
        ZeroIs(d[ch]);
        LowPassFalls(p.filter[ch], p.coefficient.now, b.least, e);
      } else {
        DrainingStart(top, b.least, k, n);
        LowPassWithin(p.filter[ch], p.coefficient.now, d[ch], top);
      }
    }
    LargerFilter(d, bound, top + e');
    LargerFilter(f, e', top + e');
    FeedbackWithin(d, f, p.blend.now, top + e');
  }

  lemma DrainingStart(top: real, least: real, k: nat, n: nat)
    requires n < k
    ensures Draining(top, least, k, n) == Draining(top, least, k, n + 1) == top
  {
  }

  lemma ZeroIs(x: real)
    requires Abs(x) <= 0.0
    ensures x == 0.0
  {
  }

  lemma SilentFrameDrains(s: Setup, p: Delay, b: Bounds, top: real, start: nat)
    requires Shaped(s, p) && Within(s, p, b) && p.memory.live && b.most == 0.0 && b.least <= 1.0 && top >= 0.0
    requires Tracked(p.memory, s.channels, s.capacity) && b.longest >= 0.0
    requires Drained(p.memory.hist, s.channels, start) && AllWithin(p.memory.hist, s.channels, top)
    requires start <= |p.memory.hist|
    requires FilterWithin(p.filter, Draining(top, b.least, Reach(b), |p.memory.hist| - start))
    ensures var e, x := Draining(top, b.least, Reach(b), |p.memory.hist| - start + 1), Silence(s.channels);
            Kept(s, p, x).live ==>
              && Drained(Kept(s, p, x).hist, s.channels, start) && AllWithin(Kept(s, p, x).hist, s.channels, top)
              && FilterWithin(KeptFilter(s, p, x), e)
              && (e <= Residual(p.memory.reference) ==> Kept(s, p, x).quiet == p.memory.quiet + 1)
  {
    hide *;
    var x, e := Silence(s.channels), Draining(top, b.least, Reach(b), |p.memory.hist| - start + 1);
    WithinParts(s, p, b);
    DrainingFacts(top, b.least, Reach(b), |p.memory.hist| - start + 1);
    DrainSignals(s, p, b, top, start);
    SilentDry(s.channels);
    ZeroWithin(s.channels);
    NoGain(top + e);
    ValueWithin(s, p, b, x, 0.0, top + e, 0.0);
    LargerFilter(Value(s, p, x), 0.0, e);
    LargerFilter(Value(s, p, x), 0.0, top);
    SilentPeakWithin(s, p, e);
    SilentFrameLive(s, p);
    AppendFiltered(p.memory.hist, Value(s, p, x), s.channels, top);
    DrainedAppend(p.memory.hist, Value(s, p, x), s.channels, start);
  }

  lemma WithinParts(s: Setup, p: Delay, b: Bounds)
    requires Within(s, p, b)
    ensures 0.0 < b.least
  {
  }

  lemma NoGain(x: real)
    ensures 0.0 + 0.0 * x <= 0.0
  {
  }

  lemma AppendFiltered(hist: seq<Samples>, value: Samples, channels: nat, bound: real)
    requires AllWithin(hist, channels, bound) && |value| == channels && FilterWithin(value, bound)
    ensures AllWithin(hist + [Flushed(value)], channels, bound)
  {
    hide Abs;
    AppendWithin(hist, value, channels, bound);
  }

  lemma DrainedAppend(hist: seq<Samples>, value: Samples, channels: nat, start: nat)
    requires Drained(hist, channels, start) && |value| == channels && FilterWithin(value, 0.0)
    ensures Drained(hist + [Flushed(value)], channels, start)
  {
    hide Flush, Abs;
    var hist' := hist + [Flushed(value)];
    forall i, ch | start <= i < |hist'| && 0 <= ch < channels && ch < |hist'[i]|
      ensures Abs(hist'[i][ch]) <= 0.0
    {
    }
  }

  lemma {:induction false} SilentFramesDrain(s: Setup, p: Delay, b: Bounds, top: real, n: nat)
    requires Shaped(s, p) && Within(s, p, b) && b.most == 0.0 && b.least <= 1.0 && top >= 0.0
    requires Tracked(p.memory, s.channels, s.capacity) && b.longest >= 0.0
    requires AllWithin(p.memory.hist, s.channels, top) && FilterWithin(p.filter, top)
    requires SilentFrames(s, p, n).memory.live
    ensures var p', start := SilentFrames(s, p, n), |p.memory.hist|;
            && p'.memory.reference == p.memory.reference && |p'.memory.hist| == start + n
            && Drained(p'.memory.hist, s.channels, start) && AllWithin(p'.memory.hist, s.channels, top)
            && FilterWithin(p'.filter, Draining(top, b.least, Reach(b), n))
  {
    hide Draining, Within, Kept, KeptFilter, Tracked, Shaped, FilterWithin, AllWithin, Abs, Flushed;
    if n == 0 {
      DrainingZero(top, b.least, Reach(b));
    } else {
      var p1, x := SilentFrames(s, p, n - 1), Silence(s.channels);
      if !p1.memory.live {
        SilentStaysDead(s, p1);
        assert false;
      }
      SilentFramesDrain(s, p, b, top, n - 1);
      SilentFramesKeep(s, p, b, n - 1);
      SilentFrameDrains(s, p1, b, top, |p.memory.hist|);
      SilentFrameLive(s, p1);
    }
  }

  lemma DrainingZero(top: real, least: real, k: nat)
    ensures Draining(top, least, k, 0) == top
  {
  }

  /** (1 - a)^m H is within the residual, for the m frames since the last pass. */
  ghost predicate DrainedBy(least: real, m: nat) {
    Mul(Pow(1.0 - least, m), HEADROOM) <= RESIDUAL
  }

  lemma DrainedEnough(least: real, m: nat, k: nat, n: nat, top: real, reference: real)
    requires 0.0 < least <= 1.0 && DrainedBy(least, m) && n >= k + m && reference >= 0.0 && top == HEADROOM * reference
    ensures Draining(top, least, k, n) <= Residual(reference)
  {
    hide Mul, Pow, Residual;
    var h := HEADROOM;
    MulIs(h, reference);
    assert top == Mul(h, reference);
    PowShrinks(1.0 - least, m, n - k);
    MulOrdered(top, Pow(1.0 - least, n - k), Pow(1.0 - least, m));
    MulLaws(Pow(1.0 - least, m), h, reference);
    MulOrdered(reference, Mul(Pow(1.0 - least, m), h), RESIDUAL);
    MulIs(RESIDUAL, reference);
    PowUnfolds(1.0 - least, 0);
    MulLaws(top, 1.0, 1.0);
  }

  /** Without feedback the history retires within one pass, the memory of the filters and one ring of quiet frames. */
  lemma TailEndsWithoutFeedback(s: Setup, p: Delay, b: Bounds, m: nat, n: nat)
    requires Stable(s, p) && Within(s, p, b) && b.most == 0.0 && b.least <= 1.0 && b.longest >= 0.0
    requires DrainedBy(b.least, m) && n + 1 >= Reach(b) + m
    ensures !SilentFrames(s, p, n + s.capacity).memory.live
  {
    hide Mul, Within, Tracked, Shaped, AllWithin, DrainedBy, FilterWithin, SilentFrames, Reach;
    forall i: nat | i >= n && SilentFrames(s, p, i + 1).memory.live
      ensures SilentFrames(s, p, i).memory.live
      ensures SilentFrames(s, p, i + 1).memory.quiet == SilentFrames(s, p, i).memory.quiet + 1
    {
      DrainTailQuiet(s, p, b, m, i);
    }
    RetiresFrom(s, p, b, n);
  }

  lemma DrainTailQuiet(s: Setup, p: Delay, b: Bounds, m: nat, i: nat)
    requires Stable(s, p) && Within(s, p, b) && b.most == 0.0 && b.least <= 1.0 && b.longest >= 0.0
    requires DrainedBy(b.least, m) && i + 1 >= Reach(b) + m
    requires SilentFrames(s, p, i + 1).memory.live
    ensures SilentFrames(s, p, i).memory.live
    ensures SilentFrames(s, p, i + 1).memory.quiet == SilentFrames(s, p, i).memory.quiet + 1
  {
    hide Mul, Within, Kept, KeptFilter, Tracked, Shaped, Abs, AllWithin, DrainedBy, FilterWithin, Residual, Reach,
         Draining;
    var p1, top := SilentFrames(s, p, i), HEADROOM * p.memory.reference;
    TrackedParts(p.memory, s.channels, s.capacity);
    WithinParts(s, p, b);
    if !p1.memory.live {
      SilentStaysDead(s, p1);
      assert false;
    }
    SilentFramesDrain(s, p, b, top, i);
    SilentFramesKeep(s, p, b, i);
    DrainedEnough(b.least, m, Reach(b), i + 1, top, p.memory.reference);
    SilentFrameDrains(s, p1, b, top, |p.memory.hist|);
  }

  // ---------------------------------------------------------------- runs of frames and edits

  datatype Event = Input(x: seq<real>) | Edit(target: Target)

  /** The processor with the bounds that its last edit left. */
  datatype Run = Run(p: Delay, b: Bounds)

  predicate Acceptable(s: Setup, e: Event) {
    match e
    case Input(x) => |x| == s.channels
    case Edit(t) => Supported(s, t)
  }

  ghost predicate Good(s: Setup, r: Run) {
    Stable(s, r.p) && Within(s, r.p, r.b) && 0.0 <= r.b.most <= MAX_FEEDBACK && r.b.least <= 1.0 && r.b.longest >= 0.0
  }

  lemma UpdatedGood(s: Setup, r: Run, t: Target)
    requires Good(s, r) && Supported(s, t)
    ensures Good(s, Run(Updated(s, r.p, t), Refreshed(Updated(s, r.p, t), t.delay)))
  {
    hide OnLine, StepTo, AllWithin, Tracked, FilterWithin;
    UpdateWithin(s, r.p, t, r.b);
  }

  function Apply(s: Setup, r: Run, e: Event): (r': Run)
    requires Good(s, r) && Acceptable(s, e)
    ensures Good(s, r')
  {
    match e
    case Input(x) =>
      FrameStable(s, r.p, r.b, x);
      Run(Frame(s, r.p, x), r.b)
    case Edit(t) =>
      UpdatedGood(s, r, t);
      var p' := Updated(s, r.p, t);
      Run(p', Refreshed(p', t.delay))
  }

  function After(s: Setup, r: Run, es: seq<Event>): (r': Run)
    requires Good(s, r) && forall e :: e in es ==> Acceptable(s, e)
    ensures Good(s, r')
    decreases |es|
  {
    if es == [] then r
    else
      assert es[|es| - 1] in es && forall e :: e in es[..|es| - 1] ==> e in es;
      Apply(s, After(s, r, es[..|es| - 1]), es[|es| - 1])
  }

  /**
   * Over every run of frames and edits, nothing stored exceeds the headroom over the largest input since the last
   * clear, and the rate of the bisection at the last bounds, or of the filter
   * without feedback, ends the tail in time.
   */
  lemma TailEndsAfterAnyRun(s: Setup, start: Run, es: seq<Event>, q: real, r: real, m: nat, n: nat)
    requires Good(s, start) && forall e :: e in es ==> Acceptable(s, e)
    requires var b := After(s, start, es).b;
             if b.most > 0.0 then RateHolds(b.most, b.least, Reach(b), q, r) && DecayedBy(b.most, r, n)
             else DrainedBy(b.least, m) && n + 1 >= Reach(b) + m
    ensures var p := After(s, start, es).p;
            && AllWithin(p.memory.hist, s.channels, HEADROOM * p.memory.reference)
            && FilterWithin(p.filter, HEADROOM * p.memory.reference)
            && !SilentFrames(s, p, n + s.capacity).memory.live
  {
    hide Within, RateHolds, DecayedBy, DrainedBy, SilentFrames, After, Tracked, AllWithin, FilterWithin, Shaped, Reach;
    var run := After(s, start, es);
    if run.b.most > 0.0 {
      TailEnds(s, run.p, run.b, q, r, n);
    } else {
      TailEndsWithoutFeedback(s, run.p, run.b, m, n);
    }
  }

  // ---------------------------------------------------------------- the processor

  function FramesAfter(s: Setup, p: Delay, xs: seq<Samples>): (p': Delay)
    requires Shaped(s, p) && forall i :: 0 <= i < |xs| ==> |xs[i]| == s.channels
    ensures Shaped(s, p')
    decreases |xs|
  {
    if xs == [] then p else Frame(s, FramesAfter(s, p, xs[..|xs| - 1]), xs[|xs| - 1])
  }

  lemma NoFrame(s: Setup, p: Delay, xs: seq<Samples>)
    requires Shaped(s, p)
    ensures FramesAfter(s, p, xs[..0]) == p
  {
  }

  lemma NextFrame(s: Setup, p: Delay, xs: seq<Samples>, f: nat)
    requires Shaped(s, p) && f < |xs| && forall i :: 0 <= i < |xs| ==> |xs[i]| == s.channels
    ensures FramesAfter(s, p, xs[..f + 1]) == Frame(s, FramesAfter(s, p, xs[..f]), xs[f])
  {
    hide Frame, Shaped;
    assert xs[..f + 1][..f] == xs[..f];
  }

  /** The delayed signal depends on the history and the heads alone. */
  lemma SameDelayed(s: Setup, p: Delay, p': Delay)
    requires Shaped(s, p) && Shaped(s, p') && p.memory.hist == p'.memory.hist && p.memory.live == p'.memory.live
    requires BeginFrame(p.heads, s.frames) == BeginFrame(p'.heads, s.frames)
    ensures Delayed(s, p) == Delayed(s, p')
  {
    hide Crossfaded;
    if p.memory.live {
      forall c | 0 <= c < s.channels
        ensures Delayed(s, p)[c] == Delayed(s, p')[c]
      {
      }
    }
  }

  lemma SameFiltered(p: Delay, p': Delay, d: seq<real>)
    requires |d| == |p.filter| && p.filter == p'.filter && p.coefficient == p'.coefficient
    requires p.memory.live == p'.memory.live
    ensures Filtered(p, d) == Filtered(p', d)
  {
    hide LowPass;
  }

  lemma NothingDelayed(s: Setup, p: Delay)
    requires Shaped(s, p) && !p.memory.live
    ensures Delayed(s, p) == Silence(s.channels)
  {
  }

  lemma DelayedIs(s: Setup, p: Delay, d: seq<real>)
    requires Shaped(s, p) && p.memory.live && p.heads == BeginFrame(p.heads, s.frames) && |d| == s.channels
    requires forall c :: 0 <= c < s.channels ==>
               d[c] == Crossfaded(p.memory.hist, p.heads.delay, p.heads.fading, p.heads.left, s.frames, c)
    ensures d == Delayed(s, p)
  {
    hide Crossfaded;
    forall c | 0 <= c < s.channels
      ensures d[c] == Delayed(s, p)[c]
    {
    }
  }

  /** Settings and heads move on by themselves, whatever the input. */
  lemma {:induction false} SettingsFollow(s: Setup, p: Delay, xs: seq<Samples>)
    requires Shaped(s, p) && forall i :: 0 <= i < |xs| ==> |xs[i]| == s.channels
    ensures var q, n := FramesAfter(s, p, xs), |xs|;
            && q.left == Left(p.left, n) && q.heads == HeadsAfter(p.heads, s.frames, n)
            && q.gain == LineAfter(p.gain, p.left, n) && q.coefficient == LineAfter(p.coefficient, p.left, n)
            && q.blend == LineAfter(p.blend, p.left, n) && q.mix == LineAfter(p.mix, p.left, n)
            && q.routing == LineAfter(p.routing, p.left, n)
    decreases |xs|
  {
    hide Kept, KeptFilter, Shaped, Moved, EndFrame, BeginFrame;
    if xs != [] {
      SettingsFollow(s, p, xs[..|xs| - 1]);
    }
  }

  /** An edit takes effect: every value along a line within a ramp, and the heads within two crossfades. */
  lemma EditTakesEffect(s: Setup, p: Delay, t: Target, xs: seq<Samples>)
    requires Shaped(s, p) && Supported(s, t) && forall i :: 0 <= i < |xs| ==> |xs[i]| == s.channels
    ensures var q, n, m := FramesAfter(s, Updated(s, p, t), xs), |xs|, s.frames;
            && Ramped(p.gain.now, t.feedback, q.gain.now, n, m)
            && Ramped(p.coefficient.now, t.coefficient, q.coefficient.now, n, m)
            && Ramped(p.blend.now, t.blend, q.blend.now, n, m) && Ramped(p.mix.now, t.mix, q.mix.now, n, m)
            && Ramped(p.routing.now, RoutingOf(s, t), q.routing.now, n, m)
            && (n >= 2 * m ==> q.heads.delay == t.delay && q.heads.left == 0 && !q.heads.queued)
  {
    hide FramesAfter, LineAfter, Ramped, HeadsAfter, StepTo, Edited, RoutingOf;
    var n, m := |xs|, s.frames;
    SettingsFollow(s, Updated(s, p, t), xs);
    LineRamps(p.gain, t.feedback, m, n);
    LineRamps(p.coefficient, t.coefficient, m, n);
    LineRamps(p.blend, t.blend, m, n);
    LineRamps(p.mix, t.mix, m, n);
    LineRamps(p.routing, RoutingOf(s, t), m, n);
    if n >= 2 * m {
      EditArrives(p.heads, t.delay, m, n);
    }
  }

  /** From the last frame of the ramp on, what is recorded follows the matrices of the mode: ping-pong is for stereo. */
  lemma ModeTakesEffect(s: Setup, p: Delay, t: Target, xs: seq<Samples>, dry: seq<real>, fb: seq<real>)
    requires Shaped(s, p) && Supported(s, t) && forall i :: 0 <= i < |xs| ==> |xs[i]| == s.channels
    requires |xs| >= s.frames && |dry| == |fb| == s.channels
    ensures var q := FramesAfter(s, Updated(s, p, t), xs);
            var value := Inject(dry, fb, q.gain.now, q.routing.now);
            if s.channels == 2 && t.pingPong
            then value[0] == 0.5 * (dry[0] + dry[1]) + t.feedback * fb[1] && value[1] == t.feedback * fb[0]
            else forall c :: 0 <= c < s.channels ==> value[c] == dry[c] + t.feedback * fb[c]
  {
    hide FramesAfter, Updated, Supported, Inject;
    EditTakesEffect(s, p, t, xs);
    if s.channels == 2 && t.pingPong {
      RoutingMatrices(dry, fb, t.feedback);
    } else {
      forall c | 0 <= c < s.channels
        ensures Inject(dry, fb, t.feedback, 0.0)[c] == dry[c] + t.feedback * fb[c]
      {
        StraightInject(dry, fb, t.feedback, c);
      }
    }
  }

  /** A run of silent frames. */
  lemma {:induction false} SilentBuffer(s: Setup, p: Delay, xs: seq<Samples>)
    requires Shaped(s, p)
    requires forall i :: 0 <= i < |xs| ==> |xs[i]| == s.channels && xs[i] == Silence(s.channels)
    ensures FramesAfter(s, p, xs) == SilentFrames(s, p, |xs|)
  {
    hide Frame;
    if xs != [] {
      SilentBuffer(s, p, xs[..|xs| - 1]);
    }
  }

  class DelayProcessor {
    const setup: Setup
    const history: History
    var filter: seq<real>     // As wide as a frame
    var heads: Heads
    var gain: Line
    var coefficient: Line
    var blend: Line
    var mix: Line
    var routing: Line
    var left: nat             // Frames left in the ramps
    var active: bool

    ghost function Now(): Delay
      reads this, history
    {
      Delay(history.Now(), filter, heads, gain, coefficient, blend, mix, routing, left)
    }

    ghost predicate Valid()
      reads this, history, history.ring
    {
      && Shaped(setup, Now()) && history.Valid() && history.ring.Length == setup.capacity
      && history.channels == setup.channels
    }

    /** reset(), with prepared storage of any content. */
    constructor (setup: Setup, ring: array<Samples>, target: Target, active: bool)
      requires Sound(setup) && ring.Length == setup.capacity && Supported(setup, target)
      ensures Valid() && this.setup == setup && history.ring == ring && this.active == active && fresh(history)
      ensures Now() == Delay(NOTHING, Silence(setup.channels),
                             Heads(target.delay, target.delay, 0, target.delay, false),
                             Line(target.feedback, target.feedback, 0.0),
                             Line(target.coefficient, target.coefficient, 0.0),
                             Line(target.blend, target.blend, 0.0), Line(target.mix, target.mix, 0.0),
                             Line(RoutingOf(setup, target), RoutingOf(setup, target), 0.0), 0)
      ensures Stable(setup, Now())
      ensures Within(setup, Now(), Bounds(target.feedback, target.coefficient, target.delay))
    {
      this.setup, this.active, left := setup, active, 0;
      history := new History(ring, setup.channels);
      filter := Silence(setup.channels);
      heads := Heads(target.delay, target.delay, 0, target.delay, false);
      gain := Line(target.feedback, target.feedback, 0.0);
      coefficient := Line(target.coefficient, target.coefficient, 0.0);
      blend := Line(target.blend, target.blend, 0.0);
      mix := Line(target.mix, target.mix, 0.0);
      routing := Line(RoutingOf(setup, target), RoutingOf(setup, target), 0.0);
    }

    /** pending() */
    predicate Pending()
      reads this, history
    {
      active && history.live
    }

    /** After any run of frames and edits, the silence that tail_frames() allows for leaves nothing pending. */
    lemma NothingPending(start: Run, es: seq<Event>, silence: seq<Samples>, q: real, r: real, m: nat, n: nat)
      requires Good(setup, start) && forall e :: e in es ==> Acceptable(setup, e)
      requires var b := After(setup, start, es).b;
               if b.most > 0.0 then RateHolds(b.most, b.least, Reach(b), q, r) && DecayedBy(b.most, r, n)
               else DrainedBy(b.least, m) && n + 1 >= Reach(b) + m
      requires |silence| == n + setup.capacity
      requires forall i :: 0 <= i < |silence| ==>
                 |silence[i]| == setup.channels && silence[i] == Silence(setup.channels)
      requires Now() == FramesAfter(setup, After(setup, start, es).p, silence)
      ensures !Pending()
    {
      hide Within, RateHolds, DecayedBy, DrainedBy, SilentFrames, FramesAfter, After, Tracked, AllWithin, FilterWithin,
           Reach;
      TailEndsAfterAnyRun(setup, start, es, q, r, m, n);
      SilentBuffer(setup, After(setup, start, es).p, silence);
    }

    /** An edit, which is ignored while a reset is pending or if its target is not for the current rate. */
    method Update(target: Target, resetPending: bool, current: bool)
      requires Valid() && (current ==> Supported(setup, target))
      modifies this
      ensures Valid() && active == old(active)
      ensures Now() == if active && !resetPending && current then Updated(setup, old(Now()), target) else old(Now())
    {
      hide StepTo, RingHolds, Residual;
      if !active || resetPending || !current {
        return;
      }
      gain := Aimed(gain, target.feedback, setup.frames);
      coefficient := Aimed(coefficient, target.coefficient, setup.frames);
      blend := Aimed(blend, target.blend, setup.frames);
      mix := Aimed(mix, target.mix, setup.frames);
      routing := Aimed(routing, RoutingOf(setup, target), setup.frames);
      left := setup.frames;
      heads := Edited(heads, target.delay, setup.frames);
    }

    /** Both heads of every channel, before the frame is written. */
    method ReadDelayed() returns (d: seq<real>)
      requires Valid() && heads == BeginFrame(heads, setup.frames)
      ensures d == Delayed(setup, Now())
    {
      hide Crossfaded, RingHolds, Residual, Delayed, Tracked;
      d := Silence(setup.channels);
      if history.live {
        for c := 0 to setup.channels
          invariant |d| == setup.channels
          invariant forall i :: 0 <= i < c ==>
                      d[i] == Crossfaded(history.hist, heads.delay, heads.fading, heads.left, setup.frames, i)
        {
          var t := history.ReadHeads(heads.delay, heads.fading, heads.left, setup.frames, c);
          d := d[c := t];
        }
        DelayedIs(setup, Now(), d);
      } else {
        NothingDelayed(setup, Now());
      }
    }

    /** One low-pass step of every channel, while there is history. */
    method RunFilters(d: seq<real>)
      requires |d| == |filter|
      modifies this`filter
      ensures filter == Filtered(old(Now()), d)
    {
      hide LowPass;
      if history.live {
        for c := 0 to |d|
          invariant |filter| == |d|
          invariant forall i :: 0 <= i < c ==> filter[i] == LowPass(old(filter)[i], coefficient.now, d[i])
          invariant forall i :: c <= i < |d| ==> filter[i] == old(filter)[i]
        {
          filter := filter[c := LowPass(filter[c], coefficient.now, d[c])];
        }
      }
    }

    /** The largest magnitude of the filters. */
    method FilterPeak() returns (peak: real)
      ensures peak == Peak(0.0, filter, |filter|)
    {
      peak := 0.0;
      for c := 0 to |filter|
        invariant peak == Peak(0.0, filter, c)
      {
        peak := Max(peak, Abs(filter[c]));
      }
    }

    /** Smoothed values for the next frame. */
    method Smooth()
      modifies this`gain, this`coefficient, this`blend, this`mix, this`routing, this`left, this`heads
      ensures gain == Moved(old(gain), old(left)) && coefficient == Moved(old(coefficient), old(left))
      ensures blend == Moved(old(blend), old(left)) && mix == Moved(old(mix), old(left))
      ensures routing == Moved(old(routing), old(left)) && left == Countdown(old(left)) && heads == EndFrame(old(heads))
    {
      gain, coefficient, blend := Moved(gain, left), Moved(coefficient, left), Moved(blend, left);
      mix, routing := Moved(mix, left), Moved(routing, left);
      left := Countdown(left);
      heads := EndFrame(heads);
    }

    method ProcessFrame(x: seq<real>) returns (out: seq<real>)
      requires Valid() && |x| == setup.channels
      modifies this, history, history.ring
      ensures Valid() && active == old(active)
      ensures Now() == Frame(setup, old(Now()), x) && out == Output(setup, old(Now()), x)
    {
      hide Crossfaded, RingHolds, Residual, Moved, Peak, InputSet, Tracked, Inject, Feedback, Flushed, Loudest, Delayed,
           Settled, Remembered, Filtered, Mixed;
      TrackedParts(history.Now(), setup.channels, setup.capacity);
      ghost var was := Now();
      ghost var framed := Frame(setup, was, x);
      if heads.left == 0 && heads.queued {
        heads := StartDelay(heads, heads.pending, setup.frames).(queued := false);
      }
      var dry, inputSet := history.ReadInput(x);
      var d := ReadDelayed();
      SameDelayed(setup, was, Now());
      SameFiltered(was, Now(), d);
      RunFilters(d);
      var value := Inject(dry, Feedback(d, filter, blend.now), gain.now, routing.now);
      var peak := FilterPeak();
      var had := history.live;
      history.Store(dry, value, peak, was.memory);
      if (had || inputSet) && !history.live {
        filter := Silence(setup.channels);
      }
      out := Mixed(dry, mix.now, d);
      Smooth();
    }

    /** Process a buffer of frames in place. */
    method Process(buffer: array<Samples>)
      requires Valid() && buffer != history.ring && forall f :: 0 <= f < buffer.Length ==> |buffer[f]| == setup.channels
      modifies this, history, history.ring, buffer
      ensures Valid()
      ensures !active ==> Now() == old(Now()) && buffer[..] == old(buffer[..])
      ensures active ==> Now() == FramesAfter(setup, old(Now()), old(buffer[..]))
      ensures active ==> forall f :: 0 <= f < buffer.Length ==>
                           buffer[f] == Output(setup, FramesAfter(setup, old(Now()), old(buffer[..f])), old(buffer[f]))
    {
      hide Frame, Output, RingHolds, Residual, Shaped, Tracked, History.Valid, FramesAfter;
      if !active {
        return;
      }
      ghost var input, was := buffer[..], Now();
      NoFrame(setup, was, input);
      for f := 0 to buffer.Length
        invariant Valid() && active
        invariant forall g :: f <= g < buffer.Length ==> buffer[g] == input[g]
        invariant Now() == FramesAfter(setup, was, input[..f])
        invariant forall g :: 0 <= g < f ==> buffer[g] == Output(setup, FramesAfter(setup, was, input[..g]), input[g])
      {
        NextFrame(setup, was, input, f);
        buffer[f] := ProcessFrame(buffer[f]);
      }
      assert input[..buffer.Length] == input;
    }
  }
}
