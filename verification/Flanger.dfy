/**
 * AudioFlanger: a swept delay line with feedback, frame by frame.  Frame() is the specification of one frame; the class
 * computes it in a ring that is cleared lazily.
 */
module Flangers {
  import opened AudioFrames
  import opened DelayLines
  import opened Ramps
  import opened Reals

  const MAX_FEEDBACK: real := 0.9
  const HEADROOM: real := 10.0

  /** The prepared storage, the frames of a ramp, and the cosine of the LFO. */
  datatype Setup = Setup(channels: nat, capacity: nat, frames: nat, cos: real -> real, circle: real)

  ghost predicate Sound(s: Setup) {
    s.capacity >= 3 && s.frames > 0 && forall p :: -1.0 <= s.cos(p) <= 1.0
  }

  datatype Flanger = Flanger(memory: Memory, phase: real, heads: Heads, increment: Line, depth: Line, gain: Line,
                             mix: Line, left: nat)

  // ---------------------------------------------------------------- one frame

  function Sweep(s: Setup, p: Flanger): real {
    p.depth.now * 0.5 * (1.0 - s.cos(p.phase))
  }

  /** The read distance, at least one frame and inside the ring. */
  function Limited(s: Setup, distance: real): (d: real)
    requires s.capacity >= 3
    ensures 1.0 <= d <= s.capacity as real - 1.0
  {
    Max(1.0, Min(distance, s.capacity as real - 1.0))
  }

  /** What every channel reads; without history the reads are skipped. */
  function Taps(s: Setup, p: Flanger): (taps: seq<real>)
    requires s.capacity >= 3 && s.frames > 0
    requires Wide(p.memory.hist, s.channels)
    ensures |taps| == s.channels
  {
    if p.memory.live then
      var h := BeginFrame(p.heads, s.frames);
      var near, fading := Limited(s, h.delay + Sweep(s, p)), Limited(s, h.fading + Sweep(s, p));
      seq(s.channels, c requires 0 <= c < s.channels => Crossfaded(p.memory.hist, near, fading, h.left, s.frames, c))
    else Silence(s.channels)
  }

  function Inject(dry: seq<real>, gain: real, taps: seq<real>): (value: seq<real>)
    requires |dry| == |taps|
    ensures |value| == |dry| && forall c :: 0 <= c < |dry| ==> value[c] == dry[c] + gain * taps[c]
  {
    seq(|dry|, c requires 0 <= c < |dry| => dry[c] + gain * taps[c])
  }

  function Mixed(dry: seq<real>, mix: real, taps: seq<real>): (out: seq<real>)
    requires |dry| == |taps|
    ensures |out| == |dry|
  {
    seq(|dry|, c requires 0 <= c < |dry| => (1.0 - mix) * dry[c] + mix * taps[c])
  }

  function Value(s: Setup, p: Flanger, x: seq<real>): (value: seq<real>)
    requires s.capacity >= 3 && s.frames > 0 && |x| == s.channels && Wide(p.memory.hist, s.channels)
    ensures |value| == s.channels
  {
    Inject(Clamped(x), p.gain.now, Taps(s, p))
  }

  function Kept(s: Setup, p: Flanger, x: seq<real>): Memory
    requires s.capacity >= 3 && s.frames > 0 && |x| == s.channels && Wide(p.memory.hist, s.channels)
  {
    var value := Value(s, p, x);
    Remembered(p.memory, Clamped(x), value, Loudest(value, |value|), s.capacity)
  }

  function Frame(s: Setup, p: Flanger, x: seq<real>): Flanger
    requires s.capacity >= 3 && s.frames > 0 && |x| == s.channels
    requires Wide(p.memory.hist, s.channels)
  {
    Flanger(Kept(s, p, x), WrappedPhase(p.phase + p.increment.now, s.circle),
            EndFrame(BeginFrame(p.heads, s.frames)), Moved(p.increment, p.left), Moved(p.depth, p.left),
            Moved(p.gain, p.left), Moved(p.mix, p.left), Countdown(p.left))
  }

  function Output(s: Setup, p: Flanger, x: seq<real>): (out: seq<real>)
    requires s.capacity >= 3 && s.frames > 0 && |x| == s.channels
    requires Wide(p.memory.hist, s.channels)
  {
    Mixed(Clamped(x), p.mix.now, Taps(s, p))
  }

  /** DSP-ready values of an edit. */
  datatype Target = Target(increment: real, delay: real, depth: real, feedback: real, mix: real)

  function Updated(s: Setup, p: Flanger, t: Target): Flanger
    requires s.frames > 0
  {
    p.(heads := Edited(p.heads, t.delay, s.frames), increment := Aimed(p.increment, t.increment, s.frames),
       depth := Aimed(p.depth, t.depth, s.frames), gain := Aimed(p.gain, t.feedback, s.frames),
       mix := Aimed(p.mix, t.mix, s.frames), left := s.frames)
  }

  // ---------------------------------------------------------------- bounds of the values in use

  /** The largest feedback magnitude, depth and minimum delay that the current, ramping and queued values reach. */
  datatype Bounds = Bounds(most: real, depth: real, longest: real)

  ghost predicate Within(s: Setup, p: Flanger, b: Bounds) {
    && Between(p.gain, p.left, -b.most, b.most)
    && Between(p.depth, p.left, 0.0, b.depth)
    && HeadsIn(p.heads, 0.0, b.longest, s.frames)
  }

  /** No head within the bounds reads further back than this many frames. */
  function Reach(s: Setup, b: Bounds): (k: nat)
    requires s.capacity >= 3
    ensures 2 <= k <= s.capacity
  {
    Whole(Limited(s, b.longest + b.depth)) + 1
  }

  /** refresh_bounds() */
  function Refreshed(p: Flanger, target: real): Bounds {
    var l0 := Max(p.heads.delay, target);
    var l1 := if p.heads.left > 0 then Max(l0, p.heads.fading) else l0;
    var l2 := if p.heads.queued then Max(l1, p.heads.pending) else l1;
    Bounds(Max(Abs(p.gain.now), Abs(p.gain.end)), Max(p.depth.now, p.depth.end), l2)
  }

  lemma UpdateWithin(s: Setup, p: Flanger, t: Target, b: Bounds)
    requires Sound(s) && Within(s, p, b) && t.delay >= 0.0 && t.depth >= 0.0
    ensures Within(s, Updated(s, p, t), Refreshed(Updated(s, p, t), t.delay))
  {
    hide OnLine, StepTo;
    var p' := Updated(s, p, t);
    var b' := Refreshed(p', t.delay);
    AimedBetween(p.gain, t.feedback, s.frames, -b'.most, b'.most);
    AimedBetween(p.depth, t.depth, s.frames, 0.0, b'.depth);
  }

  lemma FrameWithin(s: Setup, p: Flanger, x: seq<real>, b: Bounds)
    requires Sound(s) && Within(s, p, b) && |x| == s.channels && Wide(p.memory.hist, s.channels)
    ensures Within(s, Frame(s, p, x), b)
  {
    hide OnLine, Kept, Taps;
    MovedBetween(p.gain, p.left, -b.most, b.most);
    MovedBetween(p.depth, p.left, 0.0, b.depth);
    HeadsStay(p.heads, 0.0, b.longest, s.frames);
    HeadsStay(BeginFrame(p.heads, s.frames), 0.0, b.longest, s.frames);
  }

  lemma SweepRange(s: Setup, p: Flanger, b: Bounds)
    requires Sound(s) && Within(s, p, b)
    ensures 0.0 <= Sweep(s, p) <= b.depth
  {
    var t := 0.5 * (1.0 - s.cos(p.phase));
    MulMonotone(t, 1.0, p.depth.now);
    ProductSign(p.depth.now, t);
    assert Sweep(s, p) == p.depth.now * t;
  }

  /** Both heads read at most Reach frames back. */
  lemma HeadsReach(s: Setup, p: Flanger, b: Bounds)
    requires Sound(s) && Within(s, p, b)
    ensures var h := BeginFrame(p.heads, s.frames);
            && h.left <= s.frames
            && Whole(Limited(s, h.delay + Sweep(s, p))) + 1 <= Reach(s, b)
            && (h.left > 0 ==> Whole(Limited(s, h.fading + Sweep(s, p))) + 1 <= Reach(s, b))
  {
    hide Whole, Sweep;
    var h := BeginFrame(p.heads, s.frames);
    SweepRange(s, p, b);
    HeadsStay(p.heads, 0.0, b.longest, s.frames);
    WholeMonotone(Limited(s, h.delay + Sweep(s, p)), Limited(s, b.longest + b.depth));
    if h.left > 0 {
      WholeMonotone(Limited(s, h.fading + Sweep(s, p)), Limited(s, b.longest + b.depth));
    }
  }

  /** A bound on what the heads can reach bounds every tap. */
  lemma TapsWithin(s: Setup, p: Flanger, b: Bounds, bound: real)
    requires Sound(s) && Within(s, p, b) && Wide(p.memory.hist, s.channels) && bound >= 0.0
    requires forall d, c :: 1 <= d <= Reach(s, b) && 0 <= c < s.channels ==> Abs(Past(p.memory.hist, d, c)) <= bound
    ensures forall c :: 0 <= c < s.channels ==> Abs(Taps(s, p)[c]) <= bound
  {
    hide Past, Crossfaded, Reach, Limited, Sweep;
    var h := BeginFrame(p.heads, s.frames);
    var near, fading := Limited(s, h.delay + Sweep(s, p)), Limited(s, h.fading + Sweep(s, p));
    HeadsReach(s, p, b);
    forall c | 0 <= c < s.channels
      ensures Abs(Taps(s, p)[c]) <= bound
    {
      if p.memory.live {
        CrossfadedWithin(p.memory.hist, near, fading, h.left, s.frames, c, Reach(s, b), bound);
      }
    }
  }

  // ---------------------------------------------------------------- headroom

  /** Nothing stored exceeds the headroom over the input peak, and the quiet frames are what the counter says. */
  ghost predicate Stable(s: Setup, p: Flanger) {
    Tracked(p.memory, s.channels, s.capacity) && AllWithin(p.memory.hist, s.channels, HEADROOM * p.memory.reference)
  }

  lemma InjectWithin(dry: seq<real>, gain: real, taps: seq<real>, peak: real, most: real, bound: real, total: real)
    requires |dry| == |taps| && Abs(gain) <= most && bound >= 0.0 && peak + most * bound <= total
    requires forall c :: 0 <= c < |dry| ==> Abs(dry[c]) <= peak && Abs(taps[c]) <= bound
    ensures forall c :: 0 <= c < |dry| ==> Abs(Inject(dry, gain, taps)[c]) <= total
  {
    forall c | 0 <= c < |dry|
      ensures Abs(Inject(dry, gain, taps)[c]) <= total
    {
      GainWithin(gain, taps[c], most, bound, gain * taps[c]);
    }
  }

  /** What a live frame stores is within the input peak plus the fed-back bound. */
  lemma ValueWithin(s: Setup, p: Flanger, dry: seq<real>, b: Bounds, peak: real, bound: real, total: real)
    requires Sound(s) && Within(s, p, b) && Wide(p.memory.hist, s.channels) && |dry| == s.channels
    requires forall c :: 0 <= c < |dry| ==> Abs(dry[c]) <= peak
    requires bound >= 0.0 && peak + b.most * bound <= total
    requires forall d, c :: 1 <= d <= Reach(s, b) && 0 <= c < s.channels ==> Abs(Past(p.memory.hist, d, c)) <= bound
    ensures forall c :: 0 <= c < s.channels ==> Abs(Inject(dry, p.gain.now, Taps(s, p))[c]) <= total
  {
    hide Past, Taps, Reach, OnLine;
    TapsWithin(s, p, b, bound);
    InjectWithin(dry, p.gain.now, Taps(s, p), peak, b.most, bound, total);
  }

  lemma LiveFrameWithin(s: Setup, p: Flanger, b: Bounds, dry: seq<real>, peak: real)
    requires Sound(s) && Within(s, p, b) && b.most <= MAX_FEEDBACK && Wide(p.memory.hist, s.channels)
    requires AllWithin(p.memory.hist, s.channels, HEADROOM * p.memory.reference)
    requires |dry| == s.channels && 0.0 <= p.memory.reference <= peak
    requires forall c :: 0 <= c < |dry| ==> Abs(dry[c]) <= peak
    ensures AllWithin(p.memory.hist + [Flushed(Inject(dry, p.gain.now, Taps(s, p)))], s.channels, HEADROOM * peak)
  {
    hide Taps, OnLine, Reach, Inject, Flushed;
    var m, bound, total := p.memory, HEADROOM * p.memory.reference, HEADROOM * peak;
    HeadroomSum(bound, peak, b.most, MAX_FEEDBACK, HEADROOM);
    forall d, c | 1 <= d <= Reach(s, b) && 0 <= c < s.channels
      ensures Abs(Past(m.hist, d, c)) <= bound
    {
    }
    ValueWithin(s, p, dry, b, peak, bound, total);
    LargerBound(m.hist, s.channels, bound, total);
    AppendWithin(m.hist, Inject(dry, p.gain.now, Taps(s, p)), s.channels, total);
  }

  /** Every frame keeps what is stored within the headroom, whatever the input and the settings. */
  lemma FrameStable(s: Setup, p: Flanger, b: Bounds, x: seq<real>)
    requires Sound(s) && Within(s, p, b) && b.most <= MAX_FEEDBACK && Stable(s, p) && |x| == s.channels
    ensures Stable(s, Frame(s, p, x)) && Within(s, Frame(s, p, x), b)
  {
    hide Taps, Residual, Loudest, Flushed, Peak, Inject, Within, Tracked;
    TrackedParts(p.memory, s.channels, s.capacity);
    FrameWithin(s, p, x, b);
    FrameTracked(s, p, x);
    var dry, m := Clamped(x), p.memory;
    var peak := Peak(m.reference, dry, |dry|);
    if m.live || InputSet(dry) {
      LiveFrameWithin(s, p, b, dry, peak);
    }
  }

  // ---------------------------------------------------------------- the tail

  function SilentFrames(s: Setup, p: Flanger, n: nat): (p': Flanger)
    requires Sound(s) && Tracked(p.memory, s.channels, s.capacity)
    ensures Tracked(p'.memory, s.channels, s.capacity)
  {
    if n == 0 then p
    else
      var q := SilentFrames(s, p, n - 1);
      FrameTracked(s, q, Silence(s.channels));
      Frame(s, q, Silence(s.channels))
  }

  lemma FrameTracked(s: Setup, p: Flanger, x: seq<real>)
    requires Sound(s) && Tracked(p.memory, s.channels, s.capacity) && |x| == s.channels
    ensures Tracked(Frame(s, p, x).memory, s.channels, s.capacity)
  {
    hide Value, Residual, Loudest, Flush, Peak, Tracked, Remembered;
    TrackedParts(p.memory, s.channels, s.capacity);
    var value := Value(s, p, x);
    RememberedTracked(p.memory, Clamped(x), value, Loudest(value, |value|), s.channels, s.capacity);
  }

  /** How many whole windows of k frames precede frame n. */
  function Window(n: nat, k: nat): nat
    requires k > 0
  {
    if n < k then 0 else 1 + Window(n - k, k)
  }

  lemma {:induction false} WindowGrows(m: nat, n: nat, k: nat)
    requires k > 0 && m <= n
    ensures Window(m, k) <= Window(n, k)
  {
    if m < k {
    } else {
      WindowGrows(m - k, n - k, k);
    }
  }

  lemma {:induction false} WindowReached(p: nat, n: nat, k: nat)
    requires k > 0 && n >= k * p
    ensures Window(n, k) >= p
  {
    if p == 0 {
    } else {
      assert k * p == k * (p - 1) + k;
      assert k * (p - 1) >= 0;
      WindowReached(p - 1, n - k, k);
    }
  }

  /** What a write in window w may reach: g^(w + 1) of the start. */
  ghost function Allowed(g: real, top: real, k: nat, start: nat, i: nat): real
    requires k > 0
  {
    if i < start then top else Mul(Pow(g, Window(i - start, k) + 1), top)
  }

  /** History from before the silence is within `top`, and every window of k frames since has fallen by g. */
  ghost predicate Falling(hist: seq<Samples>, channels: nat, g: real, top: real, k: nat, start: nat)
    requires k > 0
  {
    forall i, c :: 0 <= i < |hist| && 0 <= c < channels && c < |hist[i]| ==>
        Abs(hist[i][c]) <= Allowed(g, top, k, start, i)
  }

  /** All that a head can reach in window w of the silence is within g^w of the start. */
  lemma AllowedBack(g: real, top: real, k: nat, start: nat, end: nat, d: nat)
    requires k > 0 && start <= end && 0.0 <= g <= 1.0 && top >= 0.0 && 1 <= d <= k && d <= end
    ensures Allowed(g, top, k, start, end - d) <= Mul(Pow(g, Window(end - start, k)), top)
  {
    hide Mul, Pow;
    var n, i := end - start, end - d;
    if i >= start {
      WindowGrows(n, (i - start) + k, k);
      assert Window((i - start) + k, k) == 1 + Window(i - start, k);
      PowShrinks(g, Window(n, k), Window(i - start, k) + 1);
      MulOrdered(top, Pow(g, Window(i - start, k) + 1), Pow(g, Window(n, k)));
    } else {
      PowUnfolds(g, 0);
      MulLaws(top, 1.0, 1.0);
      MulLaws(1.0, top, 1.0);
    }
  }

  lemma ReachableFalls(hist: seq<Samples>, channels: nat, g: real, top: real, k: nat, start: nat, d: nat, c: nat)
    requires k > 0 && Falling(hist, channels, g, top, k, start) && Wide(hist, channels) && start <= |hist|
    requires 0.0 <= g <= 1.0 && top >= 0.0 && 1 <= d <= k && c < channels
    ensures Abs(Past(hist, d, c)) <= Mul(Pow(g, Window(|hist| - start, k)), top)
  {
    hide Mul, Pow, Window, Allowed;
    var n := |hist| - start;
    PowShrinks(g, 0, Window(n, k));
    MulSign(Pow(g, Window(n, k)), top);
    if d <= |hist| {
      AllowedBack(g, top, k, start, |hist|, d);
      assert Abs(hist[|hist| - d][c]) <= Allowed(g, top, k, start, |hist| - d);
    }
  }

  /** A silent frame writes at most g times what it can reach. */
  lemma SilentWrite(s: Setup, p: Flanger, b: Bounds, top: real, start: nat)
    requires Sound(s) && Within(s, p, b) && 0.0 <= b.most <= 1.0 && Wide(p.memory.hist, s.channels)
    requires top >= 0.0 && start <= |p.memory.hist|
    requires Falling(p.memory.hist, s.channels, b.most, top, Reach(s, b), start)
    ensures var w := Window(|p.memory.hist| - start, Reach(s, b)) + 1;
            forall c :: 0 <= c < s.channels ==>
              Abs(Inject(Silence(s.channels), p.gain.now, Taps(s, p))[c]) <= Mul(Pow(b.most, w), top)
  {
    hide Mul, Pow, Past, Taps, Reach, OnLine, Window;
    var k, n := Reach(s, b), |p.memory.hist| - start;
    var bound, total := Mul(Pow(b.most, Window(n, k)), top), Mul(Pow(b.most, Window(n, k) + 1), top);
    PowShrinks(b.most, 0, Window(n, k));
    MulSign(Pow(b.most, Window(n, k)), top);
    PowUnfolds(b.most, Window(n, k) + 1);
    MulLaws(b.most, Pow(b.most, Window(n, k)), top);
    forall d, c | 1 <= d <= k && 0 <= c < s.channels
      ensures Abs(Past(p.memory.hist, d, c)) <= bound
    {
      ReachableFalls(p.memory.hist, s.channels, b.most, top, k, start, d, c);
    }
    MulIs(b.most, bound);
    ValueWithin(s, p, Silence(s.channels), b, 0.0, bound, total);
  }

  /** Silence keeps the reference, and a history that falls goes on falling. */
  lemma SilentFrameFalls(s: Setup, p: Flanger, b: Bounds, top: real, start: nat)
    requires Sound(s) && Within(s, p, b) && 0.0 <= b.most <= 1.0 && Tracked(p.memory, s.channels, s.capacity)
    requires top >= 0.0 && start <= |p.memory.hist| && p.memory.live
    requires Falling(p.memory.hist, s.channels, b.most, top, Reach(s, b), start)
    ensures var m, m' := p.memory, Frame(s, p, Silence(s.channels)).memory;
            m'.live ==>
              && m'.reference == m.reference && |m'.hist| == |m.hist| + 1
              && Falling(m'.hist, s.channels, b.most, top, Reach(s, b), start)
    ensures var m, m' := p.memory, Frame(s, p, Silence(s.channels)).memory;
            m'.live && Mul(Pow(b.most, Window(|m.hist| - start, Reach(s, b)) + 1), top) <= Residual(m.reference) ==>
              m'.quiet == m.quiet + 1
  {
    hide Mul, Pow, Taps, Reach, OnLine, Window, Residual, Loudest, Peak, Flush, Abs;
    var k, m := Reach(s, b), p.memory;
    var value := Inject(Silence(s.channels), p.gain.now, Taps(s, p));
    var total := Mul(Pow(b.most, Window(|m.hist| - start, k) + 1), top);
    SilentWrite(s, p, b, top, start);
    SilentDry(s.channels);
    SilentPeak(m.reference, s.channels, s.channels);
    PowShrinks(b.most, 0, Window(|m.hist| - start, k) + 1);
    MulSign(Pow(b.most, Window(|m.hist| - start, k) + 1), top);
    LoudestWithin(value, |value|, total);
    FallingAppend(m.hist, value, s.channels, b.most, top, k, start);
  }

  lemma FallingAppend(hist: seq<Samples>, value: Samples, channels: nat, g: real, top: real, k: nat,
                      start: nat)
    requires k > 0 && Falling(hist, channels, g, top, k, start) && start <= |hist| && |value| == channels
    requires forall c :: 0 <= c < channels ==> Abs(value[c]) <= Mul(Pow(g, Window(|hist| - start, k) + 1), top)
    ensures Falling(hist + [Flushed(value)], channels, g, top, k, start)
  {
    hide Mul, Pow, Window, Flush, Abs;
    var hist' := hist + [Flushed(value)];
    forall i, c | 0 <= i < |hist'| && 0 <= c < channels && c < |hist'[i]|
      ensures Abs(hist'[i][c]) <= Allowed(g, top, k, start, i)
    {
      if i < |hist| {
        assert Abs(hist[i][c]) <= Allowed(g, top, k, start, i);
      }
    }
  }

  lemma {:induction false} SilentFramesWithin(s: Setup, p: Flanger, b: Bounds, n: nat)
    requires Sound(s) && Within(s, p, b) && Tracked(p.memory, s.channels, s.capacity)
    ensures Within(s, SilentFrames(s, p, n), b)
  {
    hide Within, Frame;
    if n == 0 {
    } else {
      SilentFramesWithin(s, p, b, n - 1);
      var q := SilentFrames(s, p, n - 1);
      TrackedParts(q.memory, s.channels, s.capacity);
      FrameWithin(s, q, Silence(s.channels), b);
    }
  }

  /** After n silent frames that have not retired, the j-th window of writes is within g^(j + 1) of the start. */
  lemma {:induction false} SilentFramesFall(s: Setup, p: Flanger, b: Bounds, top: real, n: nat)
    requires Sound(s) && Within(s, p, b) && 0.0 <= b.most <= 1.0 && Tracked(p.memory, s.channels, s.capacity)
    requires top >= 0.0 && AllWithin(p.memory.hist, s.channels, top)
    requires SilentFrames(s, p, n).memory.live
    ensures var m := SilentFrames(s, p, n).memory;
            && m.reference == p.memory.reference && |m.hist| == |p.memory.hist| + n
            && Falling(m.hist, s.channels, b.most, top, Reach(s, b), |p.memory.hist|)
  {
    hide Within, Frame, Reach, Mul, Pow, Tracked, Window;
    if n == 0 {
    } else {
      var q := SilentFrames(s, p, n - 1);
      if !q.memory.live {
        SilentStaysDead(s, q);
        assert false;
      }
      SilentFramesFall(s, p, b, top, n - 1);
      SilentFramesWithin(s, p, b, n - 1);
      SilentFrameFalls(s, q, b, top, |p.memory.hist|);
    }
  }

  lemma SilentStaysDead(s: Setup, p: Flanger)
    requires Sound(s) && Tracked(p.memory, s.channels, s.capacity) && !p.memory.live
    ensures !Frame(s, p, Silence(s.channels)).memory.live
  {
    hide Taps;
    SilentDry(s.channels);
  }

  /** The passes after which g^passes H is within the residual; none if nothing is fed back. */
  ghost predicate EnoughPasses(most: real, passes: nat) {
    if most <= 0.0 then passes == 0 else Mul(Pow(most, passes), HEADROOM) <= RESIDUAL
  }

  /** tail_frames() */
  function TailFrames(s: Setup, b: Bounds, passes: nat): nat
    requires s.capacity >= 3
  {
    Reach(s, b) * passes + s.capacity + 1
  }

  lemma PassesSuffice(most: real, passes: nat, w: nat, top: real, reference: real)
    requires 0.0 <= most <= 1.0 && EnoughPasses(most, passes) && w >= passes && reference >= 0.0
    requires top == HEADROOM * reference
    ensures Mul(Pow(most, w + 1), top) <= Residual(reference)
  {
    hide Mul, Pow, Residual;
    PowUnfolds(most, w + 1);
    if most <= 0.0 {
      NoFeedback(Pow(most, w), top);
    } else {
      PowShrinks(most, passes, w + 1);
      MulOrdered(top, Pow(most, w + 1), Pow(most, passes));
      MulIs(HEADROOM, reference);
      assert top == Mul(HEADROOM, reference);
      MulLaws(Pow(most, passes), HEADROOM, reference);
      MulOrdered(reference, Mul(Pow(most, passes), HEADROOM), RESIDUAL);
      MulIs(RESIDUAL, reference);
    }
  }

  lemma NoFeedback(x: real, top: real)
    ensures Mul(Mul(0.0, x), top) == 0.0
  {
  }

  /** One frame of the tail counts as quiet. */
  lemma TailFrameQuiet(s: Setup, p: Flanger, b: Bounds, passes: nat, n: nat)
    requires Sound(s) && Stable(s, p) && Within(s, p, b) && 0.0 <= b.most <= 1.0
    requires EnoughPasses(b.most, passes) && n >= Reach(s, b) * passes
    requires SilentFrames(s, p, n + 1).memory.live
    ensures SilentFrames(s, p, n).memory.live
    ensures SilentFrames(s, p, n + 1).memory.quiet == SilentFrames(s, p, n).memory.quiet + 1
  {
    hide Within, Frame, Reach, Mul, Pow, Tracked, Window, Residual, EnoughPasses;
    TrackedParts(p.memory, s.channels, s.capacity);
    var q, top, start := SilentFrames(s, p, n), HEADROOM * p.memory.reference, |p.memory.hist|;
    if !q.memory.live {
      SilentStaysDead(s, q);
      assert false;
    }
    SilentFramesFall(s, p, b, top, n);
    SilentFramesWithin(s, p, b, n);
    WindowReached(passes, n, Reach(s, b));
    PassesSuffice(b.most, passes, Window(n, Reach(s, b)), top, p.memory.reference);
    SilentFrameFalls(s, q, b, top, start);
  }

  /**
   * After the last input the quiet counter retires the history within tail_frames(), so pending() is false, even with a
   * ramp or a head crossfade in flight.
   */
  lemma TailEnds(s: Setup, p: Flanger, b: Bounds, passes: nat, n: nat)
    requires Sound(s) && Stable(s, p) && Within(s, p, b) && 0.0 <= b.most <= 1.0
    requires EnoughPasses(b.most, passes) && n >= Reach(s, b) * passes
    ensures !SilentFrames(s, p, n + s.capacity).memory.live
  {
    hide Within, Frame, Reach, Mul, Pow, Tracked, SilentFrames, AllWithin, EnoughPasses;
    var ms := (i: nat) => SilentFrames(s, p, i).memory;
    forall i: nat | i >= n && ms(i + 1).live
      ensures ms(i).live && ms(i + 1).quiet == ms(i).quiet + 1
    {
      TailFrameQuiet(s, p, b, passes, i);
    }
    forall i: nat | ms(i).live
      ensures ms(i).quiet < s.capacity
    {
      QuietBounded(SilentFrames(s, p, i).memory, s.channels, s.capacity);
    }
    QuietRetires(ms, n, s.capacity);
  }

  lemma QuietBounded(m: Memory, channels: nat, capacity: nat)
    requires Tracked(m, channels, capacity) && m.live
    ensures m.quiet < capacity
  {
  }

  // ---------------------------------------------------------------- runs of frames and edits

  datatype Event = Input(x: seq<real>) | Edit(target: Target)

  /** The processor with the bounds that its last edit left. */
  datatype Run = Run(p: Flanger, b: Bounds)

  /** Frames of the right width, and settings as flanger_target() derives them. */
  predicate Acceptable(s: Setup, e: Event) {
    match e
    case Input(x) => |x| == s.channels
    case Edit(t) => t.delay >= 0.0 && t.depth >= 0.0 && Abs(t.feedback) <= MAX_FEEDBACK
  }

  ghost predicate Good(s: Setup, r: Run) {
    Stable(s, r.p) && Within(s, r.p, r.b) && 0.0 <= r.b.most <= MAX_FEEDBACK
  }

  function Apply(s: Setup, r: Run, e: Event): (r': Run)
    requires Sound(s) && Good(s, r) && Acceptable(s, e)
    ensures Good(s, r')
  {
    ApplyGood(s, r, e);
    match e
    case Input(x) => Run(Frame(s, r.p, x), r.b)
    case Edit(t) =>
      var p' := Updated(s, r.p, t);
      Run(p', Refreshed(p', t.delay))
  }

  lemma ApplyGood(s: Setup, r: Run, e: Event)
    requires Sound(s) && Good(s, r) && Acceptable(s, e)
    ensures e.Input? ==> Good(s, Run(Frame(s, r.p, e.x), r.b))
    ensures e.Edit? ==> Good(s, Run(Updated(s, r.p, e.target), Refreshed(Updated(s, r.p, e.target), e.target.delay)))
  {
    hide Frame, OnLine, StepTo, AllWithin, Tracked;
    match e
    case Input(x) => FrameStable(s, r.p, r.b, x);
    case Edit(t) => UpdateWithin(s, r.p, t, r.b);
  }

  function After(s: Setup, r: Run, es: seq<Event>): (r': Run)
    requires Sound(s) && Good(s, r) && forall e :: e in es ==> Acceptable(s, e)
    ensures Good(s, r')
    decreases |es|
  {
    if es == [] then r
    else
      assert es[|es| - 1] in es && forall e :: e in es[..|es| - 1] ==> e in es;
      Apply(s, After(s, r, es[..|es| - 1]), es[|es| - 1])
  }

  /** Over every run of frames and edits, what is stored stays within the headroom, and the tail ends in time. */
  lemma TailEndsAfterAnyRun(s: Setup, start: Run, es: seq<Event>, passes: nat, n: nat)
    requires Sound(s) && Good(s, start) && forall e :: e in es ==> Acceptable(s, e)
    requires EnoughPasses(After(s, start, es).b.most, passes)
    requires n >= TailFrames(s, After(s, start, es).b, passes)
    ensures AllWithin(After(s, start, es).p.memory.hist, s.channels, HEADROOM * After(s, start, es).p.memory.reference)
    ensures !SilentFrames(s, After(s, start, es).p, n).memory.live
  {
    hide Within, Reach, EnoughPasses, SilentFrames, After, Tracked, AllWithin, Sound;
    var r := After(s, start, es);
    TailEnds(s, r.p, r.b, passes, n - s.capacity);
  }

  // ---------------------------------------------------------------- the processor

  /** The taps depend on the history, the sweep and the heads alone. */
  lemma SameTaps(s: Setup, p: Flanger, q: Flanger)
    requires Sound(s) && Wide(p.memory.hist, s.channels) && p.memory.hist == q.memory.hist
    requires p.memory.live == q.memory.live
    requires BeginFrame(p.heads, s.frames) == BeginFrame(q.heads, s.frames) && p.depth == q.depth && p.phase == q.phase
    ensures Taps(s, p) == Taps(s, q)
  {
    hide Crossfaded, Limited;
    assert Sweep(s, p) == Sweep(s, q);
    if p.memory.live {
      forall c | 0 <= c < s.channels
        ensures Taps(s, p)[c] == Taps(s, q)[c]
      {
      }
    }
  }

  lemma NoTaps(s: Setup, p: Flanger)
    requires Sound(s) && Wide(p.memory.hist, s.channels) && !p.memory.live
    ensures Taps(s, p) == Silence(s.channels)
  {
  }

  lemma TapsAre(s: Setup, p: Flanger, sweep: real, taps: seq<real>)
    requires Sound(s) && Wide(p.memory.hist, s.channels) && p.memory.live && p.heads == BeginFrame(p.heads, s.frames)
    requires |taps| == s.channels && sweep == Sweep(s, p)
    requires forall i :: 0 <= i < s.channels ==>
               taps[i] == Crossfaded(p.memory.hist, Limited(s, p.heads.delay + sweep),
                                     Limited(s, p.heads.fading + sweep), p.heads.left, s.frames, i)
    ensures taps == Taps(s, p)
  {
    hide Crossfaded, Limited, Sweep;
    forall i | 0 <= i < s.channels
      ensures taps[i] == Taps(s, p)[i]
    {
    }
  }

  /**
   * A comb filter: once the swept distance is a whole number of frames and no crossfade runs, the frame that far back
   * returns with the signed feedback, and is heard in proportion to the mix.
   */
  lemma SettledFrame(s: Setup, p: Flanger, distance: nat, x: seq<real>, c: nat)
    requires Sound(s) && Tracked(p.memory, s.channels, s.capacity) && |x| == s.channels && c < s.channels
    requires p.heads.left == 0 && !p.heads.queued && p.heads.delay + Sweep(s, p) == distance as real
    requires 1 <= distance < s.capacity
    ensures Value(s, p, x)[c] == Clamp(x[c]) + p.gain.now * Past(p.memory.hist, distance, c)
    ensures Output(s, p, x)[c] == (1.0 - p.mix.now) * Clamp(x[c]) + p.mix.now * Past(p.memory.hist, distance, c)
  {
    hide Sweep;
    assert Limited(s, p.heads.delay + Sweep(s, p)) == distance as real;
    WholeTap(p.memory.hist, distance, c);
    assert Taps(s, p)[c] == Past(p.memory.hist, distance, c);
  }

  /**
   * The swept distance is the delay itself where the cosine is one, the whole depth further where it is minus one, and
   * grows as the cosine falls.
   */
  lemma SweepEnds(s: Setup, p: Flanger, q: Flanger)
    requires p.depth.now == q.depth.now >= 0.0 && s.cos(q.phase) <= s.cos(p.phase)
    ensures s.cos(p.phase) == 1.0 ==> p.heads.delay + Sweep(s, p) == p.heads.delay
    ensures s.cos(q.phase) == -1.0 ==> q.heads.delay + Sweep(s, q) == q.heads.delay + q.depth.now
    ensures Sweep(s, p) <= Sweep(s, q)
  {
    var half := p.depth.now * 0.5;
    MulMonotone(1.0 - s.cos(p.phase), 1.0 - s.cos(q.phase), half);
  }

  function FramesAfter(s: Setup, p: Flanger, xs: seq<Samples>): (p': Flanger)
    requires Sound(s) && Tracked(p.memory, s.channels, s.capacity)
    requires forall i :: 0 <= i < |xs| ==> |xs[i]| == s.channels
    ensures Tracked(p'.memory, s.channels, s.capacity)
    decreases |xs|
  {
    if xs == [] then p
    else
      var q := FramesAfter(s, p, xs[..|xs| - 1]);
      FrameTracked(s, q, xs[|xs| - 1]);
      Frame(s, q, xs[|xs| - 1])
  }

  lemma NoFrame(s: Setup, p: Flanger, xs: seq<Samples>)
    requires Sound(s) && Tracked(p.memory, s.channels, s.capacity)
    ensures FramesAfter(s, p, xs[..0]) == p
  {
  }

  lemma NextFrame(s: Setup, p: Flanger, xs: seq<Samples>, f: nat)
    requires Sound(s) && Tracked(p.memory, s.channels, s.capacity) && f < |xs|
    requires forall i :: 0 <= i < |xs| ==> |xs[i]| == s.channels
    ensures FramesAfter(s, p, xs[..f + 1]) == Frame(s, FramesAfter(s, p, xs[..f]), xs[f])
  {
    hide Frame;
    assert xs[..f + 1][..f] == xs[..f];
  }

  /** Settings and heads move on by themselves, whatever the input. */
  lemma {:induction false} SettingsFollow(s: Setup, p: Flanger, xs: seq<Samples>)
    requires Sound(s) && Tracked(p.memory, s.channels, s.capacity)
    requires forall i :: 0 <= i < |xs| ==> |xs[i]| == s.channels
    ensures var q, n := FramesAfter(s, p, xs), |xs|;
            && q.left == Left(p.left, n) && q.heads == HeadsAfter(p.heads, s.frames, n)
            && q.increment == LineAfter(p.increment, p.left, n) && q.depth == LineAfter(p.depth, p.left, n)
            && q.gain == LineAfter(p.gain, p.left, n) && q.mix == LineAfter(p.mix, p.left, n)
    decreases |xs|
  {
    hide Kept, Tracked, Moved, EndFrame, BeginFrame, Sound;
    if xs != [] {
      SettingsFollow(s, p, xs[..|xs| - 1]);
    }
  }

  /** An edit takes effect: every value along a line within a ramp, and the heads within two crossfades. */
  lemma EditTakesEffect(s: Setup, p: Flanger, t: Target, xs: seq<Samples>)
    requires Sound(s) && Tracked(p.memory, s.channels, s.capacity) && p.heads.left <= s.frames
    requires forall i :: 0 <= i < |xs| ==> |xs[i]| == s.channels
    ensures var q, n, m := FramesAfter(s, Updated(s, p, t), xs), |xs|, s.frames;
            && Ramped(p.increment.now, t.increment, q.increment.now, n, m)
            && Ramped(p.depth.now, t.depth, q.depth.now, n, m) && Ramped(p.gain.now, t.feedback, q.gain.now, n, m)
            && Ramped(p.mix.now, t.mix, q.mix.now, n, m)
            && (n >= 2 * m ==> q.heads.delay == t.delay && q.heads.left == 0 && !q.heads.queued)
  {
    hide FramesAfter, LineAfter, Ramped, HeadsAfter, StepTo, Edited, Tracked;
    var n, m := |xs|, s.frames;
    SettingsFollow(s, Updated(s, p, t), xs);
    LineRamps(p.increment, t.increment, m, n);
    LineRamps(p.depth, t.depth, m, n);
    LineRamps(p.gain, t.feedback, m, n);
    LineRamps(p.mix, t.mix, m, n);
    if n >= 2 * m {
      EditArrives(p.heads, t.delay, m, n);
    }
  }

  /** With settled values the phase turns by the increment a frame, around the circle. */
  lemma {:induction false} PhaseTurns(s: Setup, p: Flanger, xs: seq<Samples>) returns (turns: nat)
    requires Sound(s) && Tracked(p.memory, s.channels, s.capacity)
    requires forall i :: 0 <= i < |xs| ==> |xs[i]| == s.channels
    requires p.left == 0 && 0.0 <= p.phase < s.circle && 0.0 <= p.increment.now < s.circle
    ensures var q := FramesAfter(s, p, xs);
            && q.left == 0 && q.increment == p.increment
            && Turned(q.phase, p.phase, p.increment.now, s.circle, |xs|, turns)
    decreases |xs|
  {
    hide Kept, Tracked, WrappedPhase, EndFrame, BeginFrame, Sound, Turned;
    if xs == [] {
      turns := 0;
      NoTurn(p.phase, p.increment.now, s.circle);
    } else {
      turns := PhaseTurns(s, p, xs[..|xs| - 1]);
      var q := FramesAfter(s, p, xs[..|xs| - 1]);
      turns := NextTurn(q.phase, p.phase, p.increment.now, s.circle, |xs| - 1, turns);
    }
  }

  /** A run of silent frames. */
  lemma {:induction false} SilentBuffer(s: Setup, p: Flanger, xs: seq<Samples>)
    requires Sound(s) && Tracked(p.memory, s.channels, s.capacity)
    requires forall i :: 0 <= i < |xs| ==> |xs[i]| == s.channels && xs[i] == Silence(s.channels)
    ensures FramesAfter(s, p, xs) == SilentFrames(s, p, |xs|)
  {
    hide Frame;
    if xs != [] {
      SilentBuffer(s, p, xs[..|xs| - 1]);
    }
  }

  class FlangerProcessor {
    const setup: Setup
    const history: History
    var phase: real
    var heads: Heads
    var increment: Line
    var depth: Line
    var gain: Line
    var mix: Line
    var left: nat             // Frames left in the ramps
    var active: bool

    ghost function Now(): Flanger
      reads this, history
    {
      Flanger(history.Now(), phase, heads, increment, depth, gain, mix, left)
    }

    ghost predicate Valid()
      reads this, history, history.ring
    {
      && Sound(setup) && history.Valid() && history.ring.Length == setup.capacity && history.channels == setup.channels
    }

    /** reset(), with prepared storage of any content. */
    constructor (setup: Setup, ring: array<Samples>, target: Target, active: bool)
      requires Sound(setup) && ring.Length == setup.capacity
      ensures Valid() && this.setup == setup && history.ring == ring && this.active == active && fresh(history)
      ensures Now() == Flanger(NOTHING, 0.0, Heads(target.delay, target.delay, 0, target.delay, false),
                               Line(target.increment, target.increment, 0.0), Line(target.depth, target.depth, 0.0),
                               Line(target.feedback, target.feedback, 0.0), Line(target.mix, target.mix, 0.0), 0)
    {
      this.setup, this.active, phase, left := setup, active, 0.0, 0;
      history := new History(ring, setup.channels);
      heads := Heads(target.delay, target.delay, 0, target.delay, false);
      increment := Line(target.increment, target.increment, 0.0);
      depth := Line(target.depth, target.depth, 0.0);
      gain := Line(target.feedback, target.feedback, 0.0);
      mix := Line(target.mix, target.mix, 0.0);
    }

    /** pending() */
    predicate Pending()
      reads this, history
    {
      active && history.live
    }

    /** After any run of frames and edits, the silence that tail_frames() allows for leaves nothing pending. */
    lemma NothingPending(start: Run, es: seq<Event>, silence: seq<Samples>, passes: nat)
      requires Sound(setup) && Good(setup, start) && forall e :: e in es ==> Acceptable(setup, e)
      requires EnoughPasses(After(setup, start, es).b.most, passes)
      requires |silence| >= TailFrames(setup, After(setup, start, es).b, passes)
      requires forall i :: 0 <= i < |silence| ==>
                 |silence[i]| == setup.channels && silence[i] == Silence(setup.channels)
      requires Now() == FramesAfter(setup, After(setup, start, es).p, silence)
      ensures !Pending()
    {
      hide Within, EnoughPasses, SilentFrames, FramesAfter, After, AllWithin, TailFrames;
      TailEndsAfterAnyRun(setup, start, es, passes, |silence|);
      SilentBuffer(setup, After(setup, start, es).p, silence);
    }

    /** An edit, which is ignored while a reset is pending or if its target is not for the current rate. */
    method Update(target: Target, resetPending: bool, current: bool)
      requires Valid()
      modifies this
      ensures Valid() && active == old(active)
      ensures Now() == if active && !resetPending && current then Updated(setup, old(Now()), target) else old(Now())
    {
      hide StepTo;
      if !active || resetPending || !current {
        return;
      }
      increment := Aimed(increment, target.increment, setup.frames);
      depth := Aimed(depth, target.depth, setup.frames);
      gain := Aimed(gain, target.feedback, setup.frames);
      mix := Aimed(mix, target.mix, setup.frames);
      left := setup.frames;
      heads := Edited(heads, target.delay, setup.frames);
    }

    /** Both heads of every channel, before the frame is written. */
    method ReadTaps() returns (taps: seq<real>)
      requires Valid() && heads == BeginFrame(heads, setup.frames)
      ensures taps == Taps(setup, Now())
    {
      hide Crossfaded, RingHolds, Residual, Taps, Tracked;
      TrackedParts(history.Now(), setup.channels, setup.capacity);
      taps := Silence(setup.channels);
      if history.live {
        var sweep := depth.now * 0.5 * (1.0 - setup.cos(phase));
        var near, fading := Limited(setup, heads.delay + sweep), Limited(setup, heads.fading + sweep);
        for c := 0 to setup.channels
          invariant |taps| == setup.channels
          invariant forall i :: 0 <= i < c ==>
                    taps[i] == Crossfaded(history.hist, near, fading, heads.left, setup.frames, i)
        {
          var t := history.ReadHeads(near, fading, heads.left, setup.frames, c);
          taps := taps[c := t];
        }
        TapsAre(setup, Now(), sweep, taps);
      } else {
        NoTaps(setup, Now());
      }
    }

    /** Phase and smoothed values for the next frame. */
    method Smooth()
      modifies this
      ensures phase == WrappedPhase(old(phase + increment.now), setup.circle) && active == old(active)
      ensures increment == Moved(old(increment), old(left)) && depth == Moved(old(depth), old(left))
      ensures gain == Moved(old(gain), old(left)) && mix == Moved(old(mix), old(left))
      ensures left == Countdown(old(left)) && heads == EndFrame(old(heads))
    {
      phase := WrappedPhase(phase + increment.now, setup.circle);
      increment, depth, gain, mix := Moved(increment, left), Moved(depth, left), Moved(gain, left), Moved(mix, left);
      left := Countdown(left);
      heads := EndFrame(heads);
    }

    method ProcessFrame(x: seq<real>) returns (out: seq<real>)
      requires Valid() && |x| == setup.channels
      modifies this, history, history.ring
      ensures Valid() && active == old(active)
      ensures Now() == Frame(setup, old(Now()), x) && out == Output(setup, old(Now()), x)
    {
      hide Crossfaded, RingHolds, Residual, Moved, Peak, InputSet, Tracked, Limited, Inject, Flushed, Loudest, Sweep,
           Taps, Settled, WrappedPhase, Remembered;
      TrackedParts(history.Now(), setup.channels, setup.capacity);
      ghost var was := Now();
      if heads.left == 0 && heads.queued {
        heads := StartDelay(heads, heads.pending, setup.frames).(queued := false);
      }
      var dry, inputSet := history.ReadInput(x);
      var taps := ReadTaps();
      SameTaps(setup, was, Now());
      var value := Inject(dry, gain.now, taps);
      history.Store(dry, value, 0.0, was.memory);
      out := Mixed(dry, mix.now, taps);
      Smooth();
    }

    /** Process a buffer of frames in place. */
    method Process(buffer: array<Samples>)
      requires Valid() && buffer != history.ring && forall f :: 0 <= f < buffer.Length ==> |buffer[f]| == setup.channels
      modifies this, history, history.ring, buffer
      ensures Valid()
      ensures !active ==> Now() == old(Now()) && buffer[..] == old(buffer[..])
      ensures active ==> Now() == FramesAfter(setup, old(Now()), old(buffer[..]))
      ensures active ==> forall f :: 0 <= f < buffer.Length ==>
                           buffer[f] == Output(setup, FramesAfter(setup, old(Now()), old(buffer[..f])), old(buffer[f]))
    {
      hide Frame, Output, RingHolds, Residual, FramesAfter;
      if !active {
        return;
      }
      ghost var input, was := buffer[..], Now();
      NoFrame(setup, was, input);
      for f := 0 to buffer.Length
        invariant Valid() && active
        invariant forall g :: f <= g < buffer.Length ==> buffer[g] == input[g]
        invariant Now() == FramesAfter(setup, was, input[..f])
        invariant forall g :: 0 <= g < f ==> buffer[g] == Output(setup, FramesAfter(setup, was, input[..g]), input[g])
      {
        NextFrame(setup, was, input, f);
        buffer[f] := ProcessFrame(buffer[f]);
      }
      assert input[..buffer.Length] == input;
    }
  }
}
