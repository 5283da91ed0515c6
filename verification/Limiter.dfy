/**
 * AudioLimiter: a lookahead limiter with a linked detector.  Frame() is the specification of one frame over the whole
 * gained input since reset; the class computes it with a delay ring, a peak deque and a count of occupied slots.
 */
module Limiters {
  import opened AudioFrames
  import DelayLines
  import opened Naturals
  import opened PeakDeques
  import opened Ramps
  import opened Reals

  const SNAP: real := 0.000000000001

  type Samples = seq<real>

  /**
   * Decibels: db(x) is 20 log10(x), and linear(d) the factor that attenuates by d decibels.
   */
  datatype Decibels = Decibels(db: real -> real, linear: real -> real)

  ghost predicate Sound(u: Decibels) {
    && u.linear(0.0) == 1.0
    && (forall d :: d >= 0.0 ==> 0.0 < u.linear(d) <= 1.0)
    && (forall a, b :: 0.0 <= a <= b ==> u.linear(b) <= u.linear(a))
    && (forall x :: x > 1.0 ==> u.db(x) > 0.0 && u.linear(u.db(x)) * x == 1.0)
  }

  datatype Setup = Setup(channels: nat, lookahead: nat, frames: nat, units: Decibels)

  datatype Limiter = Limiter(hist: seq<Samples>, gain: Line, release: Line, left: nat, envelope: real, reduction: real)

  /** The linked peak of a frame. */
  function Level(f: Samples, i: nat): (level: real)
    requires i <= |f|
    ensures level >= 0.0 && forall c :: 0 <= c < i ==> Abs(f[c]) <= level
  {
    if i == 0 then 0.0 else Max(Level(f, i - 1), Abs(f[i - 1]))
  }

  function LinkedLevel(f: Samples): (level: real)
    ensures level >= 0.0
  {
    Level(f, |f|)
  }

  function Levels(hist: seq<Samples>): (levels: seq<real>)
    ensures |levels| == |hist| && forall i :: 0 <= i < |hist| ==> levels[i] == LinkedLevel(hist[i])
  {
    seq(|hist|, i requires 0 <= i < |hist| => LinkedLevel(hist[i]))
  }

  /** The frame that leaves a delay of `distance` frames: silence before the first one. */
  function Before(hist: seq<Samples>, distance: nat, channels: nat): Samples
    requires distance > 0
  {
    if distance > |hist| then Silence(channels) else hist[|hist| - distance]
  }

  function Gained(x: Samples, gain: real): (f: Samples)
    ensures |f| == |x| && forall c :: 0 <= c < |x| ==> f[c] == x[c] * gain
  {
    seq(|x|, c requires 0 <= c < |x| => x[c] * gain)
  }

  /** limiter_required() */
  function Required(u: Decibels, peak: real, ceiling: real): real
    requires ceiling > 0.0
  {
    if peak <= ceiling then 0.0 else u.db(peak / ceiling)
  }

  /** The maximum level from the delayed frame through the newest input. */
  function WindowMax(s: Setup, hist: seq<Samples>): real
    requires |hist| > 0
  {
    MaxLevel(Levels(hist), WindowStart(|hist|, s.lookahead), |hist|)
  }

  /** Attack at once, release exponentially, snap to zero. */
  function Envelope(required: real, envelope: real, release: real): real {
    var e := Max(required, envelope * release);
    if e < SNAP then 0.0 else e
  }

  /** The gain of the envelope alone. */
  function EnvelopeGain(u: Decibels, envelope: real): real {
    if envelope > 0.0 then u.linear(envelope) else 1.0
  }

  /** The guard lowers the gain of a delayed frame that would exceed the ceiling. */
  predicate Guarded(u: Decibels, level: real, envelope: real, ceiling: real) {
    level * EnvelopeGain(u, envelope) > ceiling
  }

  function Applied(u: Decibels, level: real, envelope: real, ceiling: real): real
  {
    if Guarded(u, level, envelope, ceiling) && level != 0.0 then ceiling / level else EnvelopeGain(u, envelope)
  }

  /** The reduction that is reported for the frame. */
  function AppliedDb(u: Decibels, level: real, envelope: real, ceiling: real): real
    requires ceiling > 0.0
  {
    if Guarded(u, level, envelope, ceiling) then Max(envelope, u.db(level / ceiling)) else envelope
  }

  // ---------------------------------------------------------------- one frame

  function NewHist(p: Limiter, x: Samples): (hist: seq<Samples>)
    ensures |hist| == |p.hist| + 1
  {
    p.hist + [Gained(x, p.gain.now)]
  }

  function NewEnvelope(s: Setup, p: Limiter, x: Samples, ceiling: real): real
    requires ceiling > 0.0
  {
    Envelope(Required(s.units, WindowMax(s, NewHist(p, x)), ceiling), p.envelope, p.release.now)
  }

  function DelayedLevel(s: Setup, p: Limiter): real
    requires s.lookahead > 0
  {
    LinkedLevel(Before(p.hist, s.lookahead, s.channels))
  }

  function FrameGain(s: Setup, p: Limiter, x: Samples, ceiling: real): real
    requires s.lookahead > 0 && ceiling > 0.0
  {
    Applied(s.units, DelayedLevel(s, p), NewEnvelope(s, p, x, ceiling), ceiling)
  }

  function Frame(s: Setup, p: Limiter, x: Samples, ceiling: real): Limiter
    requires s.lookahead > 0 && ceiling > 0.0
  {
    var envelope := NewEnvelope(s, p, x, ceiling);
    Limiter(NewHist(p, x), Moved(p.gain, p.left), Moved(p.release, p.left), Countdown(p.left), envelope,
            Max(p.reduction, AppliedDb(s.units, DelayedLevel(s, p), envelope, ceiling)))
  }

  /** The input of lookahead frames ago, every channel under one gain. */
  function Output(s: Setup, p: Limiter, x: Samples, ceiling: real): Samples
    requires s.lookahead > 0 && ceiling > 0.0
  {
    Gained(Before(p.hist, s.lookahead, s.channels), FrameGain(s, p, x, ceiling))
  }

  // ---------------------------------------------------------------- the ceiling

  lemma {:induction false} SilentLevel(n: nat, i: nat)
    requires i <= n
    ensures Level(Silence(n), i) == 0.0
  {
    if i == 0 {
    } else {
      SilentLevel(n, i - 1);
    }
  }

  /** What leaves the delay is among the levels that the window takes its maximum of. */
  lemma DelayedInWindow(s: Setup, p: Limiter, x: Samples)
    requires s.lookahead > 0
    ensures DelayedLevel(s, p) <= WindowMax(s, NewHist(p, x))
  {
    hide Level, MaxLevel, Gained;
    var hist := NewHist(p, x);
    if s.lookahead > |p.hist| {
      SilentLevel(s.channels, s.channels);
      assert Levels(hist)[|hist| - 1] >= 0.0;
    } else {
      var i := |p.hist| - s.lookahead;
      assert hist[i] == p.hist[i];
      assert Levels(hist)[i] <= WindowMax(s, hist);
    }
  }

  lemma AboveCeiling(peak: real, ceiling: real)
    requires peak > ceiling > 0.0
    ensures peak / ceiling > 1.0 && (peak / ceiling) * ceiling == peak
  {
    QuotientTimes(peak, ceiling);
    if peak / ceiling <= 1.0 {
      MulMonotone(peak / ceiling, 1.0, ceiling);
    }
  }

  lemma Attenuates(u: Decibels, level: real, window: real, envelope: real, ceiling: real)
    requires Sound(u) && 0.0 <= level <= window && ceiling > 0.0 && window > ceiling
    requires envelope >= Required(u, window, ceiling) > 0.0
    ensures level * u.linear(envelope) <= ceiling
  {
    var x, f, e := window / ceiling, u.linear(u.db(window / ceiling)), u.linear(envelope);
    AboveCeiling(window, ceiling);
    assert e <= f && f * x == 1.0;
    MulMonotone(e, f, level);
    MulMonotone(level, window, f);
    assert f * window == (f * x) * ceiling;
  }

  /** The envelope alone meets the ceiling, except where it has snapped to zero. */
  lemma EnvelopeSuffices(u: Decibels, level: real, window: real, before: real, release: real, ceiling: real)
    requires Sound(u) && 0.0 <= level <= window && ceiling > 0.0
    requires var e := Max(Required(u, window, ceiling), before * release); e >= SNAP || level <= ceiling
    ensures !Guarded(u, level, Envelope(Required(u, window, ceiling), before, release), ceiling)
  {
    hide Required, Envelope;
    var required := Required(u, window, ceiling);
    var envelope := Envelope(required, before, release);
    RequiredPositive(u, window, ceiling);
    EnvelopeParts(required, before, release);
    if envelope > 0.0 && window > ceiling {
      Attenuates(u, level, window, envelope, ceiling);
    } else if envelope > 0.0 {
      NotRaised(level, u.linear(envelope), ceiling);
    }
  }

  lemma EnvelopeParts(required: real, before: real, release: real)
    ensures var e := Max(required, before * release);
            Envelope(required, before, release) == if e < SNAP then 0.0 else e
  {
  }

  lemma NotRaised(level: real, g: real, ceiling: real)
    requires 0.0 <= level <= ceiling && 0.0 < g <= 1.0
    ensures level * g <= ceiling
  {
    MulMonotone(g, 1.0, level);
  }

  /**
   * The guard lowers a frame exactly when it is above the ceiling while the envelope, with the required reduction and
   * what is left of the release, lies below the snap.
   */
  lemma GuardNeeded(s: Setup, p: Limiter, x: Samples, ceiling: real)
    requires Sound(s.units) && s.lookahead > 0 && ceiling > 0.0
    ensures var required := Required(s.units, WindowMax(s, NewHist(p, x)), ceiling);
            Guarded(s.units, DelayedLevel(s, p), NewEnvelope(s, p, x, ceiling), ceiling) <==>
            DelayedLevel(s, p) > ceiling && Max(required, p.envelope * p.release.now) < SNAP
  {
    hide WindowMax, Level, NewHist, Required;
    var level, window := DelayedLevel(s, p), WindowMax(s, NewHist(p, x));
    DelayedInWindow(s, p, x);
    var required := Required(s.units, window, ceiling);
    if level > ceiling && Max(required, p.envelope * p.release.now) < SNAP {
    } else {
      EnvelopeSuffices(s.units, level, window, p.envelope, p.release.now, ceiling);
    }
  }

  /** The guard is needed only if the required reduction lies strictly between zero and the snap. */
  lemma GuardOnlyBelowSnap(s: Setup, p: Limiter, x: Samples, ceiling: real)
    requires Sound(s.units) && s.lookahead > 0 && ceiling > 0.0
    requires Guarded(s.units, DelayedLevel(s, p), NewEnvelope(s, p, x, ceiling), ceiling)
    ensures 0.0 < Required(s.units, WindowMax(s, NewHist(p, x)), ceiling) < SNAP
  {
    hide WindowMax, Level, NewHist, Required, Guarded, NewEnvelope, DelayedLevel, Sound;
    GuardNeeded(s, p, x, ceiling);
    DelayedInWindow(s, p, x);
    RequiredPositive(s.units, WindowMax(s, NewHist(p, x)), ceiling);
  }

  lemma RequiredPositive(u: Decibels, window: real, ceiling: real)
    requires Sound(u) && ceiling > 0.0
    ensures Required(u, window, ceiling) > 0.0 <==> window > ceiling
  {
    if window > ceiling {
      AboveCeiling(window, ceiling);
    }
  }

  /** Every channel of every frame is at or below the ceiling. */
  lemma OutputBelowCeiling(s: Setup, p: Limiter, x: Samples, ceiling: real, c: nat)
    requires Sound(s.units) && s.lookahead > 0 && ceiling > 0.0 && c < |Output(s, p, x, ceiling)|
    ensures Abs(Output(s, p, x, ceiling)[c]) <= ceiling
  {
    hide NewEnvelope, Sound, Applied, Before, Abs, EnvelopeGain;
    var d, level, g := Before(p.hist, s.lookahead, s.channels), DelayedLevel(s, p), FrameGain(s, p, x, ceiling);
    var envelope := NewEnvelope(s, p, x, ceiling);
    GainPositive(s.units, envelope);
    Limits(s.units, level, envelope, ceiling);
    assert Abs(d[c]) <= level;
    ScaledBelow(d[c], g, level, ceiling, Output(s, p, x, ceiling)[c]);
  }

  lemma GainPositive(u: Decibels, envelope: real)
    requires Sound(u)
    ensures EnvelopeGain(u, envelope) > 0.0
  {
  }

  lemma Limits(u: Decibels, level: real, envelope: real, ceiling: real)
    requires EnvelopeGain(u, envelope) > 0.0 && level >= 0.0 && ceiling > 0.0
    ensures Applied(u, level, envelope, ceiling) > 0.0 && level * Applied(u, level, envelope, ceiling) <= ceiling
  {
    var g := EnvelopeGain(u, envelope);
    if level * g > ceiling && level != 0.0 {
      QuotientTimes(ceiling, level);
      CancelStrict(level, 0.0, ceiling / level);
    }
  }

  lemma ScaledBelow(x: real, g: real, level: real, ceiling: real, z: real)
    requires Abs(x) <= level && g > 0.0 && level * g <= ceiling && z == x * g
    ensures Abs(z) <= ceiling
  {
    MulMonotone(x, level, g);
    MulMonotone(-x, level, g);
  }

  // ---------------------------------------------------------------- no more than is needed

  lemma {:induction false} LevelScales(f: Samples, g: real, i: nat)
    requires g >= 0.0 && i <= |f|
    ensures Level(Gained(f, g), i) == Mul(Level(f, i), g)
  {
    hide *;
    if i == 0 {
      NoLevel(f, g);
    } else {
      LevelScales(f, g, i - 1);
      LevelNext(f, i);
      LevelNext(Gained(f, g), i);
      AbsScales(f[i - 1], g, Gained(f, g)[i - 1]);
      MaxScales(Level(f, i - 1), Abs(f[i - 1]), g);
    }
  }

  lemma NoLevel(f: Samples, g: real)
    ensures Level(f, 0) == Level(Gained(f, g), 0) == 0.0 == Mul(0.0, g)
  {
  }

  lemma LevelNext(f: Samples, i: nat)
    requires 0 < i <= |f|
    ensures Level(f, i) == Max(Level(f, i - 1), Abs(f[i - 1]))
  {
  }

  lemma AbsScales(x: real, g: real, z: real)
    requires g >= 0.0 && z == x * g
    ensures Abs(z) == Mul(Abs(x), g)
  {
    ProductSign(Abs(x), g);
    if x < 0.0 {
      assert (-x) * g == -z;
    }
  }

  lemma MaxScales(a: real, b: real, g: real)
    requires g >= 0.0
    ensures Mul(Max(a, b), g) == Max(Mul(a, g), Mul(b, g))
  {
    if a <= b {
      MulMonotone(a, b, g);
    } else {
      MulMonotone(b, a, g);
    }
  }

  /** The window: every frame of at most `lookahead` frames ago is within its maximum, and one of them has it. */
  lemma WindowIs(s: Setup, hist: seq<Samples>) returns (at: nat)
    requires |hist| > 0
    ensures |hist| - 1 - s.lookahead <= at < |hist| && LinkedLevel(hist[at]) == WindowMax(s, hist)
    ensures forall i :: 0 <= i < |hist| && |hist| - 1 - s.lookahead <= i ==> LinkedLevel(hist[i]) <= WindowMax(s, hist)
  {
    hide Level, LinkedLevel, MaxLevel;
    var n, lo := |hist|, WindowStart(|hist|, s.lookahead);
    at :| lo <= at < n && Levels(hist)[at] == MaxLevel(Levels(hist), lo, n);
    forall i | 0 <= i < n && n - 1 - s.lookahead <= i
      ensures LinkedLevel(hist[i]) <= WindowMax(s, hist)
    {
      assert Levels(hist)[i] == LinkedLevel(hist[i]);
    }
  }

  /**
   * Where the loudest frame of its window leaves under the reduction that the window requires, its level is the ceiling
   * exactly.
   */
  lemma LoudestMeetsCeiling(s: Setup, p: Limiter, x: Samples, ceiling: real)
    requires Sound(s.units) && s.lookahead > 0 && ceiling > 0.0
    requires var window := WindowMax(s, NewHist(p, x));
             var required := Required(s.units, window, ceiling);
             && window > ceiling && DelayedLevel(s, p) == window
             && required >= SNAP && required >= p.envelope * p.release.now
    ensures LinkedLevel(Output(s, p, x, ceiling)) == ceiling
  {
    hide WindowMax, Level, NewHist, EnvelopeGain;
    var window, d := WindowMax(s, NewHist(p, x)), Before(p.hist, s.lookahead, s.channels);
    var required := Required(s.units, window, ceiling);
    EnvelopeParts(required, p.envelope, p.release.now);
    EnvelopeSuffices(s.units, window, window, p.envelope, p.release.now, ceiling);
    ExactGain(s.units, window, ceiling);
    GainPositive(s.units, required);
    LevelScales(d, FrameGain(s, p, x, ceiling), |d|);
  }

  /** The required reduction takes the peak to the ceiling. */
  lemma ExactGain(u: Decibels, peak: real, ceiling: real)
    requires Sound(u) && ceiling > 0.0 && peak > ceiling
    ensures peak * EnvelopeGain(u, Required(u, peak, ceiling)) == ceiling
  {
    var x, f := peak / ceiling, u.linear(u.db(peak / ceiling));
    AboveCeiling(peak, ceiling);
    assert f * x == 1.0;
    assert peak * f == (f * x) * ceiling;
  }

  /** While everything in the window is within the ceiling and nothing is left of a release, frames leave unchanged. */
  lemma QuietUnchanged(s: Setup, p: Limiter, x: Samples, ceiling: real)
    requires s.lookahead > 0 && ceiling > 0.0
    requires WindowMax(s, NewHist(p, x)) <= ceiling && p.envelope * p.release.now < SNAP
    ensures Output(s, p, x, ceiling) == Before(p.hist, s.lookahead, s.channels)
    ensures Frame(s, p, x, ceiling).envelope == 0.0
  {
    hide WindowMax, Level, NewHist;
    DelayedInWindow(s, p, x);
    var d := Before(p.hist, s.lookahead, s.channels);
    assert forall c :: 0 <= c < |d| ==> d[c] * 1.0 == d[c];
  }

  /** A release: while nothing in the window asks for more, the decibels of the gain fall by the release factor. */
  lemma Releases(s: Setup, p: Limiter, x: Samples, ceiling: real)
    requires Sound(s.units) && s.lookahead > 0 && ceiling > 0.0
    requires var e := p.envelope * p.release.now;
             e >= SNAP && e >= Required(s.units, WindowMax(s, NewHist(p, x)), ceiling)
    ensures Frame(s, p, x, ceiling).envelope == p.envelope * p.release.now
    ensures Output(s, p, x, ceiling) ==
            Gained(Before(p.hist, s.lookahead, s.channels), s.units.linear(p.envelope * p.release.now))
  {
    hide WindowMax, Level, NewHist, Required;
    var window := WindowMax(s, NewHist(p, x));
    DelayedInWindow(s, p, x);
    EnvelopeSuffices(s.units, DelayedLevel(s, p), window, p.envelope, p.release.now, ceiling);
  }

  /** The reduction of a frame in decibels is what its samples were attenuated by, guard included. */
  lemma ReportsGain(s: Setup, p: Limiter, x: Samples, ceiling: real)
    requires Sound(s.units) && s.lookahead > 0 && ceiling > 0.0
    ensures var envelope := NewEnvelope(s, p, x, ceiling);
            var reported := AppliedDb(s.units, DelayedLevel(s, p), envelope, ceiling);
            && s.units.linear(reported) == FrameGain(s, p, x, ceiling)
            && Frame(s, p, x, ceiling).reduction == Max(p.reduction, reported)
  {
    hide WindowMax, Level, NewHist;
    var level, envelope := DelayedLevel(s, p), NewEnvelope(s, p, x, ceiling);
    GuardNeeded(s, p, x, ceiling);
    if Guarded(s.units, level, envelope, ceiling) {
      ExactGain(s.units, level, ceiling);
      assert envelope == 0.0;
      GuardedGain(s.units, level, ceiling);
    }
  }

  lemma GuardedGain(u: Decibels, level: real, ceiling: real)
    requires Sound(u) && ceiling > 0.0 && level > ceiling
    ensures u.db(level / ceiling) > 0.0 && u.linear(u.db(level / ceiling)) == ceiling / level
  {
    var x, f := level / ceiling, u.linear(u.db(level / ceiling));
    AboveCeiling(level, ceiling);
    QuotientTimes(ceiling, level);
    assert f * level == (f * x) * ceiling;
    SameFactor(level, f, ceiling / level);
  }

  lemma SameFactor(n: real, a: real, b: real)
    requires n > 0.0 && a * n == b * n
    ensures a == b
  {
    CancelLoose(n, a, b);
    CancelLoose(n, b, a);
  }

  // ---------------------------------------------------------------- the delay over a run

  /** Frames without an edit, at one ceiling. */
  function FramesAfter(s: Setup, p: Limiter, xs: seq<Samples>, ceiling: real): (p': Limiter)
    requires s.lookahead > 0 && ceiling > 0.0
    ensures |p'.hist| == |p.hist| + |xs|
    decreases |xs|
  {
    if xs == [] then p else Frame(s, FramesAfter(s, p, xs[..|xs| - 1], ceiling), xs[|xs| - 1], ceiling)
  }

  /**
   * What can happen to an active limiter: a call of process() begins, a frame under
   * the ceiling of its time, an edit.
   */
  datatype Event = Call | Input(x: Samples, ceiling: real) | Edit(gain: real, release: real)

  predicate Acceptable(e: Event) {
    e.Input? ==> e.ceiling > 0.0
  }

  function Updated(s: Setup, p: Limiter, gain: real, release: real): Limiter
    requires s.frames > 0
  {
    p.(gain := Aimed(p.gain, gain, s.frames), release := Aimed(p.release, release, s.frames), left := s.frames)
  }

  function Apply(s: Setup, p: Limiter, e: Event): Limiter
    requires s.lookahead > 0 && s.frames > 0 && Acceptable(e)
  {
    match e
    case Call => p.(reduction := 0.0)
    case Input(x, ceiling) => Frame(s, p, x, ceiling)
    case Edit(gain, release) => Updated(s, p, gain, release)
  }
  lemma {:induction false} SettingsFollow(s: Setup, p: Limiter, xs: seq<Samples>, ceiling: real)
    requires s.lookahead > 0 && ceiling > 0.0
    ensures var q, n := FramesAfter(s, p, xs, ceiling), |xs|;
            && q.left == Left(p.left, n) && q.gain == LineAfter(p.gain, p.left, n)
            && q.release == LineAfter(p.release, p.left, n)
    decreases |xs|
  {
    hide NewHist, NewEnvelope, AppliedDb, DelayedLevel, Moved;
    if xs != [] {
      SettingsFollow(s, p, xs[..|xs| - 1], ceiling);
    }
  }

  /** An edit takes effect along a line, and is complete after the frames of a ramp. */
  lemma EditTakesEffect(s: Setup, p: Limiter, gain: real, release: real, xs: seq<Samples>, ceiling: real)
    requires s.lookahead > 0 && s.frames > 0 && ceiling > 0.0
    ensures var q := FramesAfter(s, Apply(s, p, Edit(gain, release)), xs, ceiling);
            && Ramped(p.gain.now, gain, q.gain.now, |xs|, s.frames)
            && Ramped(p.release.now, release, q.release.now, |xs|, s.frames)
  {
    hide FramesAfter, LineAfter, Ramped, StepTo;
    SettingsFollow(s, Updated(s, p, gain, release), xs, ceiling);
    LineRamps(p.gain, gain, s.frames, |xs|);
    LineRamps(p.release, release, s.frames, |xs|);
  }

  ghost predicate Runnable(s: Setup, es: seq<Event>) {
    s.lookahead > 0 && s.frames > 0 && forall i :: 0 <= i < |es| ==> Acceptable(es[i])
  }

  function After(s: Setup, p: Limiter, es: seq<Event>): Limiter
    requires Runnable(s, es)
    decreases |es|
  {
    if es == [] then p else Apply(s, After(s, p, es[..|es| - 1]), es[|es| - 1])
  }

  /** The input frames of a run. */
  function InputCount(es: seq<Event>): nat {
    if es == [] then 0 else InputCount(es[..|es| - 1]) + One(es[|es| - 1].Input?)
  }

  /** The event that takes in input frame k. */
  lemma {:induction false} NthInput(es: seq<Event>, k: nat) returns (i: nat)
    requires k < InputCount(es)
    ensures i < |es| && es[i].Input? && InputCount(es[..i]) == k
    decreases |es|
  {
    var before := es[..|es| - 1];
    if k < InputCount(before) {
      i := NthInput(before, k);
      assert before[..i] == es[..i];
    } else {
      i := |es| - 1;
    }
  }

  /**
   * The history of a run from reset is its input, each frame under the input gain of its time, whatever edits,
   * ceilings and calls come between.
   */
  lemma {:induction false} HistoryIsInput(s: Setup, p: Limiter, es: seq<Event>, i: nat)
    requires Runnable(s, es) && p.hist == []
    ensures |After(s, p, es).hist| == InputCount(es)
    ensures i < |es| && es[i].Input? ==>
              && InputCount(es[..i]) < InputCount(es)
              && After(s, p, es).hist[InputCount(es[..i])] == Gained(es[i].x, After(s, p, es[..i]).gain.now)
    decreases |es|
  {
    hide NewEnvelope, AppliedDb, Gained, Aimed, Moved;
    if es != [] {
      var before := es[..|es| - 1];
      HistoryIsInput(s, p, before, i);
      if i < |before| {
        assert before[..i] == es[..i];
      }
    }
  }

  /**
   * Over every such run the output is the input delayed by exactly lookahead input frames, silence before it, under
   * the input gain of its own time and one gain that all channels share.
   */
  lemma OutputIsDelayedInput(s: Setup, p: Limiter, es: seq<Event>, e: Event) returns (i: nat)
    requires Runnable(s, es) && p.hist == [] && e.Input? && Acceptable(e)
    ensures var p', n := After(s, p, es), InputCount(es);
            var out := Output(s, p', e.x, e.ceiling);
            if n < s.lookahead then
              out == Gained(Silence(s.channels), FrameGain(s, p', e.x, e.ceiling))
            else
              && i < |es| && es[i].Input? && InputCount(es[..i]) == n - s.lookahead
              && out == Gained(Gained(es[i].x, After(s, p, es[..i]).gain.now), FrameGain(s, p', e.x, e.ceiling))
  {
    hide NewEnvelope, Gained, After, FrameGain;
    i := 0;
    if InputCount(es) >= s.lookahead {
      i := NthInput(es, InputCount(es) - s.lookahead);
    }
    HistoryIsInput(s, p, es, i);
  }

  /** One channel, one frame of lookahead, and the state after a reset. */
  function Smallest(u: Decibels): Setup {
    Setup(1, 1, 1, u)
  }

  const AT_REST := Limiter([], Line(1.0, 1.0, 0.0), Line(0.0, 0.0, 0.0), 0, 0.0, 0.0)

  /**
   * The guard does act: two frames after a reset, when the first is above the ceiling by less than the snap level
   * asks to reduce.  Logarithms have such a level, as they are continuous.
   */
  lemma GuardActs(u: Decibels, x: real)
    requires Sound(u) && x > 1.0 && u.db(x) < SNAP
    ensures var s, es := Smallest(u), [Input([x], 1.0)];
            && Runnable(s, es)
            && var p := After(s, AT_REST, es);
               && Guarded(u, DelayedLevel(s, p), NewEnvelope(s, p, [0.0], 1.0), 1.0)
               && Output(s, p, [0.0], 1.0) == [1.0]
  {
    hide Sound, Guarded, Frame, WindowMax, Required, NewEnvelope, DelayedLevel, NewHist, Gained, Before;
    var s, es := Smallest(u), [Input([x], 1.0)];
    assert es[..0] == [];
    var p := Frame(s, AT_REST, [x], 1.0);
    assert p == After(s, AT_REST, es);
    FirstFrame(u, x);
    SecondWindow(s, p, x);
    GuardNeeded(s, p, [0.0], 1.0);
    WholeCeiling(x);
  }

  lemma OneLevel(x: real)
    requires x >= 0.0
    ensures LinkedLevel([x]) == x && Levels([[x]]) == [x]
  {
    assert Level([x], 0) == 0.0;
    assert Level([x], 1) == x;
    assert LinkedLevel([x]) == x;
  }

  lemma Ungained(x: real)
    ensures Gained([x], 1.0) == [x]
  {
  }

  lemma OfCeilingOne(x: real)
    ensures x / 1.0 == x
  {
  }

  lemma FirstFrame(u: Decibels, x: real)
    requires Sound(u) && x > 1.0 && u.db(x) < SNAP
    ensures var p := Frame(Smallest(u), AT_REST, [x], 1.0);
            p.hist == [[x]] && p.envelope == 0.0 && p.release.now == 0.0 && p.gain.now == 1.0
  {
    hide Sound, Gained, LinkedLevel, Levels, AppliedDb;
    Ungained(x);
    OneLevel(x);
    OfCeilingOne(x);
    assert NewHist(AT_REST, [x]) == [[x]];
    MaxLevelIs([x], 0, 1, x, 0);
  }

  lemma SecondWindow(s: Setup, p: Limiter, x: real)
    requires s == Smallest(s.units) && p.hist == [[x]] && x > 1.0 && p.gain.now == 1.0
    ensures DelayedLevel(s, p) == x && Before(p.hist, 1, 1) == [x]
    ensures WindowMax(s, NewHist(p, [0.0])) == x && Required(s.units, x, 1.0) == s.units.db(x)
  {
    hide Gained, LinkedLevel, Levels;
    Ungained(0.0);
    OneLevel(x);
    OneLevel(0.0);
    OfCeilingOne(x);
    assert NewHist(p, [0.0]) == [[x]] + [[0.0]];
    LevelsAppend([[x]], [0.0]);
    MaxLevelIs([x, 0.0], 0, 2, x, 0);
  }

  lemma WholeCeiling(x: real)
    requires x > 1.0
    ensures Gained([x], 1.0 / x) == [1.0]
  {
    QuotientTimes(1.0, x);
    assert Gained([x], 1.0 / x)[0] == 1.0;
  }

  /** A buffer is a call and its frames at one ceiling. */
  function CallOf(xs: seq<Samples>, ceiling: real): (es: seq<Event>)
    ensures |es| == |xs| + 1 && es[0] == Call && forall i :: 0 <= i < |xs| ==> es[i + 1] == Input(xs[i], ceiling)
  {
    [Call] + seq(|xs|, i requires 0 <= i < |xs| => Input(xs[i], ceiling))
  }

  lemma {:induction false} ProcessIsRun(s: Setup, p: Limiter, xs: seq<Samples>, ceiling: real)
    requires s.lookahead > 0 && s.frames > 0 && ceiling > 0.0
    ensures Runnable(s, CallOf(xs, ceiling))
    ensures After(s, p, CallOf(xs, ceiling)) == FramesAfter(s, p.(reduction := 0.0), xs, ceiling)
    decreases |xs|
  {
    hide Frame;
    var es := CallOf(xs, ceiling);
    if xs == [] {
      assert es[..0] == [];
    } else {
      ProcessIsRun(s, p, xs[..|xs| - 1], ceiling);
      assert es[..|es| - 1] == CallOf(xs[..|xs| - 1], ceiling);
    }
  }

  // ---------------------------------------------------------------- occupied slots

  /** The frame `distance` back was written and is set. */
  predicate SlotSet(hist: seq<Samples>, distance: nat)
    requires distance > 0
  {
    distance <= |hist| && InputSet(hist[|hist| - distance])
  }

  /** How many of the `span` frames before the end of the history are set. */
  function Occupied(hist: seq<Samples>, span: nat): (n: nat) {
    if span == 0 then 0 else Occupied(hist, span - 1) + One(SlotSet(hist, span))
  }

  /** A frame enters the delay and another leaves it. */
  lemma {:induction false} OccupiedMoves(hist: seq<Samples>, f: Samples, span: nat)
    requires span > 0
    ensures Occupied(hist + [f], span) + One(SlotSet(hist, span)) == Occupied(hist, span) + One(InputSet(f))
  {
    hide InputSet, SlotSet;
    SlotMoves(hist, f, span);
    if span == 1 {
      assert Occupied(hist, 0) == Occupied(hist + [f], 0) == 0;
    } else {
      OccupiedMoves(hist, f, span - 1);
    }
  }

  lemma SlotMoves(hist: seq<Samples>, f: Samples, span: nat)
    requires span > 0
    ensures SlotSet(hist + [f], span) == if span == 1 then InputSet(f) else SlotSet(hist, span - 1)
  {
    hide InputSet;
    var hist' := hist + [f];
    if span == 1 {
      assert hist'[|hist'| - 1] == f;
    } else if span <= |hist'| {
      assert hist'[|hist'| - span] == hist[|hist| - (span - 1)];
    }
  }

  /** Nothing is pending exactly when every frame in the delay is silent. */
  lemma {:induction false} PendingMeans(hist: seq<Samples>, span: nat)
    ensures Occupied(hist, span) == 0 <==> forall d :: 1 <= d <= span ==> !SlotSet(hist, d)
  {
    hide SlotSet;
    if span == 0 {
    } else {
      PendingMeans(hist, span - 1);
    }
  }

  /** Once nothing is pending, silence gives silence: the release envelope alone creates no output. */
  lemma SilentOutput(s: Setup, p: Limiter, x: Samples, ceiling: real, c: nat)
    requires s.lookahead > 0 && ceiling > 0.0 && Occupied(p.hist, s.lookahead) == 0
    requires c < |Output(s, p, x, ceiling)|
    ensures Output(s, p, x, ceiling)[c] == 0.0
  {
    hide FrameGain;
    PendingMeans(p.hist, s.lookahead);
    assert !SlotSet(p.hist, s.lookahead);
    var d := Before(p.hist, s.lookahead, s.channels);
    assert d[c] == 0.0;
    assert Output(s, p, x, ceiling)[c] == d[c] * FrameGain(s, p, x, ceiling);
  }

  /** After lookahead silent frames nothing is pending. */
  lemma TailIsLookahead(hist: seq<Samples>, span: nat)
    requires span <= |hist| && forall i :: |hist| - span <= i < |hist| ==> !InputSet(hist[i])
    ensures Occupied(hist, span) == 0
  {
    PendingMeans(hist, span);
  }

  // ---------------------------------------------------------------- the processor

  /** The delay holds the last frames from its cursor on, the oldest first. */
  ghost predicate DelayHolds(delay: seq<Samples>, cursor: nat, hist: seq<Samples>, channels: nat) {
    cursor < |delay| && forall d :: 1 <= d <= |delay| ==>
                          delay[DelayLines.Slot(cursor, d, |delay|)] == Before(hist, d, channels)
  }

  lemma DelayMoves(delay: seq<Samples>, cursor: nat, hist: seq<Samples>, channels: nat, f: Samples)
    requires DelayHolds(delay, cursor, hist, channels)
    ensures delay[cursor] == Before(hist, |delay|, channels)
    ensures DelayHolds(delay[cursor := f], DelayLines.NextSlot(cursor, |delay|), hist + [f], channels)
  {
    var n, delay', hist' := |delay|, delay[cursor := f], hist + [f];
    var cursor' := DelayLines.NextSlot(cursor, n);
    assert delay[DelayLines.Slot(cursor, n, n)] == Before(hist, n, channels);
    forall d | 1 <= d <= n
      ensures delay'[DelayLines.Slot(cursor', d, n)] == Before(hist', d, channels)
    {
      if d > 1 {
        assert DelayLines.Slot(cursor', d, n) == DelayLines.Slot(cursor, d - 1, n) != cursor;
        assert Before(hist', d, channels) == Before(hist, d - 1, channels);
      }
    }
  }

  lemma DelayStarts(delay: seq<Samples>, channels: nat)
    requires |delay| > 0 && forall k :: 0 <= k < |delay| ==> delay[k] == Silence(channels)
    ensures DelayHolds(delay, 0, [], channels)
  {
  }

  lemma NoLevels()
    ensures Levels([]) == []
  {
  }

  lemma LevelsAppend(hist: seq<Samples>, f: Samples)
    ensures Levels(hist + [f]) == Levels(hist) + [LinkedLevel(f)]
  {
    hide LinkedLevel;
    var a, b := Levels(hist + [f]), Levels(hist) + [LinkedLevel(f)];
    forall i | 0 <= i < |a|
      ensures a[i] == b[i]
    {
      if i < |hist| {
        assert (hist + [f])[i] == hist[i];
      }
    }
  }

  class LimiterProcessor {
    const setup: Setup
    const delay: array<Samples>
    const deque: PeakDeque
    var cursor: nat               // Where the next frame of hist goes in the delay
    var occupied: nat             // Occupied(hist, lookahead)
    var gain: Line
    var release: Line
    var left: nat
    var envelope: real            // In dB, before the guard
    var reduction: real           // In dB, the largest that a frame of this call was given
    var ceiling: real             // Positive whenever active
    var active: bool
    var dirty: bool               // Without it, every slot of the delay is silent
    ghost var hist: seq<Samples>

    ghost function Now(): Limiter
      reads this
    {
      Limiter(hist, gain, release, left, envelope, reduction)
    }

    ghost predicate Valid()
      reads this, delay, deque, deque.peaks
    {
      && setup.lookahead > 0 && delay.Length == setup.lookahead && deque.lookahead == setup.lookahead
      && deque.Valid() && deque.levels == Levels(hist)
      && DelayHolds(delay[..], cursor, hist, setup.channels)
      && occupied == Occupied(hist, setup.lookahead)
      && (active ==> ceiling > 0.0)
      && (!dirty ==> forall k :: 0 <= k < delay.Length ==> delay[k] == Silence(setup.channels))
    }

    /** Prepared storage is silent and inactive. */
    constructor (setup: Setup)
      requires setup.lookahead > 0
      ensures Valid() && !active && this.setup == setup && fresh(delay) && fresh(deque) && fresh(deque.peaks)
      ensures Now() == Limiter([], Line(1.0, 1.0, 0.0), Line(0.0, 0.0, 0.0), 0, 0.0, 0.0)
    {
      this.setup := setup;
      delay := new Samples[setup.lookahead](_ => Silence(setup.channels));
      deque := new PeakDeque(setup.lookahead);
      gain, release, ceiling, active := Line(1.0, 1.0, 0.0), Line(0.0, 0.0, 0.0), 1.0, false;
      cursor, occupied, left, envelope, reduction, dirty, hist := 0, 0, 0, 0.0, 0.0, false, [];
      new;
      DelayStarts(delay[..], setup.channels);
      NothingOccupied(setup.lookahead);
    }

    /** Zero-fill the delay if it may hold anything. */
    method ClearDelay()
      requires Valid()
      modifies this`dirty, delay
      ensures !dirty && forall k :: 0 <= k < delay.Length ==> delay[k] == Silence(setup.channels)
    {
      if dirty {
        for k := 0 to delay.Length
          invariant dirty && forall i :: 0 <= i < k ==> delay[i] == Silence(setup.channels)
        {
          delay[k] := Silence(setup.channels);
        }
        dirty := false;
      }
    }

    /** reset(): supported settings activate the limiter on its targets. */
    method Reset(gain: real, release: real, ceiling: real, supported: bool)
      requires Valid() && ceiling > 0.0
      modifies this, delay, deque
      ensures Valid() && !dirty && active == supported
               && this.ceiling == if supported then ceiling else old(this.ceiling)
      ensures Now() == if supported then Limiter([], Line(gain, gain, 0.0), Line(release, release, 0.0), 0, 0.0, 0.0)
                       else Limiter([], old(this.gain), old(this.release), 0, 0.0, 0.0)
    {
      hide Occupied, Silence, Levels, PeakDeque.Valid;
      ClearDelay();
      cursor, occupied, left, envelope, reduction, hist := 0, 0, 0, 0.0, 0.0, [];
      active := supported;
      if supported {
        this.gain, this.release, this.ceiling := Line(gain, gain, 0.0), Line(release, release, 0.0), ceiling;
      }
      deque.Reset();
      DelayStarts(delay[..], setup.channels);
      NothingOccupied(setup.lookahead);
      NoLevels();
    }

    /** pending() */
    predicate Pending()
      reads this
    {
      active && occupied > 0
    }

    /** Nothing is pending exactly if the limiter is inactive or the last lookahead frames were silent. */
    lemma PendingIs()
      requires Valid()
      ensures Pending() <==>
              active && exists d :: 1 <= d <= setup.lookahead && SlotSet(hist, d)
    {
      hide DelayHolds, Levels, PeakDeque.Valid, SlotSet, Occupied;
      PendingMeans(hist, setup.lookahead);
    }

    /** After lookahead silent frames nothing is pending. */
    lemma NothingPending()
      requires Valid() && setup.lookahead <= |hist|
      requires forall i :: |hist| - setup.lookahead <= i < |hist| ==> !InputSet(hist[i])
      ensures !Pending()
    {
      hide DelayHolds, Levels, PeakDeque.Valid, Occupied;
      TailIsLookahead(hist, setup.lookahead);
    }

    /**
     * A live edit: the ceiling applies from the next frame on; gain and release ramp from where they are, unless the
     * limiter is inactive or about to be reset.
     */
    method Update(gain: real, release: real, ceiling: real, resetPending: bool)
      requires Valid() && setup.frames > 0 && ceiling > 0.0
      modifies this`gain, this`release, this`left, this`ceiling
      ensures Valid() && this.ceiling == ceiling
      ensures Now() == if active && !resetPending then Updated(setup, old(Now()), gain, release) else old(Now())
    {
      this.ceiling := ceiling;
      if active && !resetPending {
        this.gain := Aimed(this.gain, gain, setup.frames);
        this.release := Aimed(this.release, release, setup.frames);
        left := setup.frames;
      }
    }

    /** The input under its gain, its linked level, and whether it is set. */
    method ReadInput(x: Samples) returns (f: Samples, level: real, inputSet: bool)
      ensures f == Gained(x, gain.now) && level == LinkedLevel(f) && inputSet == InputSet(f)
    {
      hide Gained;
      f, level, inputSet := Gained(x, gain.now), 0.0, false;
      for c := 0 to |f|
        invariant level == Level(f, c) && inputSet == exists i :: 0 <= i < c && f[i] != 0.0
      {
        level := Max(level, Abs(f[c]));
        inputSet := inputSet || f[c] != 0.0;
      }
    }

    /** Exchange the newest frame for the oldest one of the delay. */
    method Exchange(f: Samples, inputSet: bool) returns (delayed: Samples)
      requires setup.lookahead > 0 && delay.Length == setup.lookahead
      requires DelayHolds(delay[..], cursor, hist, setup.channels)
      requires occupied == Occupied(hist, setup.lookahead) && inputSet == InputSet(f)
      modifies this`cursor, this`occupied, this`hist, delay
      ensures hist == old(hist) + [f] && delayed == Before(old(hist), setup.lookahead, setup.channels)
      ensures DelayHolds(delay[..], cursor, hist, setup.channels) && occupied == Occupied(hist, setup.lookahead)
    {
      hide InputSet, DelayHolds, Occupied;
      DelayMoves(delay[..], cursor, hist, setup.channels, f);
      OccupiedMoves(hist, f, setup.lookahead);
      LeavingSet(hist, setup.lookahead, setup.channels);
      InRange(delay[..], cursor, hist, setup.channels);
      delayed := delay[cursor];
      ghost var after := delay[..][cursor := f];
      delay[cursor] := f;
      assert delay[..] == after;
      cursor := DelayLines.NextSlot(cursor, setup.lookahead);
      occupied := occupied + One(inputSet) - One(InputSet(delayed));
      hist := hist + [f];
    }

    /** Take in a frame: what leaves the delay, and the window maximum. */
    method TakeIn(x: Samples) returns (delayed: Samples, window: real)
      requires Valid()
      modifies this`cursor, this`occupied, this`hist, this`dirty, delay, deque, deque.peaks
      ensures Valid() && hist == NewHist(old(Now()), x)
      ensures delayed == Before(old(hist), setup.lookahead, setup.channels) && window == WindowMax(setup, hist)
    {
      hide InputSet, LinkedLevel, Before, MaxLevel, DelayHolds, Occupied, Gained, Levels;
      dirty := true;
      var f, level, inputSet := ReadInput(x);
      LevelsAppend(hist, f);
      delayed := Exchange(f, inputSet);
      window := deque.Track(level);
    }

    /**
     * Move the envelope towards what the window requires, and give the gain that
     * keeps the delayed frame at the ceiling.
     */
    method Attenuate(window: real, delayedLevel: real) returns (applied: real)
      requires ceiling > 0.0
      modifies this`envelope, this`reduction
      ensures envelope == Envelope(Required(setup.units, window, ceiling), old(envelope), release.now)
      ensures reduction == Max(old(reduction), AppliedDb(setup.units, delayedLevel, envelope, ceiling))
      ensures applied == Applied(setup.units, delayedLevel, envelope, ceiling)
    {
      var required := Required(setup.units, window, ceiling);
      envelope := Max(required, envelope * release.now);
      if envelope < SNAP {
        envelope := 0.0;
      }
      applied := Applied(setup.units, delayedLevel, envelope, ceiling);
      reduction := Max(reduction, AppliedDb(setup.units, delayedLevel, envelope, ceiling));
    }

    method ProcessFrame(x: Samples) returns (out: Samples)
      requires Valid() && active
      modifies this, delay, deque, deque.peaks
      ensures Valid() && active && ceiling == old(ceiling)
      ensures Now() == Frame(setup, old(Now()), x, ceiling) && out == Output(setup, old(Now()), x, ceiling)
    {
      hide LinkedLevel, Before, Moved, WindowMax, DelayHolds, Occupied, Required, AppliedDb, Applied, Gained, Levels,
           NewHist, Envelope, PeakDeque.Valid;
      var delayed, window := TakeIn(x);
      var delayedLevel := LevelOf(delayed);
      var applied := Attenuate(window, delayedLevel);
      out := Gained(delayed, applied);
      gain, release := Moved(gain, left), Moved(release, left);
      left := Countdown(left);
    }

    /** Process a buffer of frames in place; the reported reduction is the largest of this call. */
    method Process(buffer: array<Samples>)
      requires Valid() && buffer != delay
      modifies this, delay, deque, deque.peaks, buffer
      ensures Valid() && active == old(active) && ceiling == old(ceiling)
      ensures !active ==> buffer[..] == old(buffer[..]) && Now() == old(Now()).(reduction := 0.0)
      ensures active ==>
                var start := old(Now()).(reduction := 0.0);
                && Now() == FramesAfter(setup, start, old(buffer[..]), ceiling)
                && forall f :: 0 <= f < buffer.Length ==>
                     buffer[f] == Output(setup, FramesAfter(setup, start, old(buffer[..f]), ceiling), old(buffer[f]),
                                         ceiling)
    {
      reduction := 0.0;
      if active {
        ProcessFrames(buffer);
      }
    }

    method ProcessFrames(buffer: array<Samples>)
      requires Valid() && active && buffer != delay
      modifies this, delay, deque, deque.peaks, buffer
      ensures Valid() && active && ceiling == old(ceiling)
      ensures Now() == FramesAfter(setup, old(Now()), old(buffer[..]), ceiling)
      ensures forall f :: 0 <= f < buffer.Length ==>
                buffer[f] == Output(setup, FramesAfter(setup, old(Now()), old(buffer[..f]), ceiling), old(buffer[f]),
                                    ceiling)
    {
      hide Frame, Output, DelayHolds, Occupied, Levels, PeakDeque.Valid;
      ghost var input, was := buffer[..], Now();
      for f := 0 to buffer.Length
        invariant Valid() && active && ceiling == old(ceiling)
        invariant forall g :: f <= g < buffer.Length ==> buffer[g] == input[g]
        invariant Now() == FramesAfter(setup, was, input[..f], ceiling)
        invariant forall g :: 0 <= g < f ==>
                    buffer[g] == Output(setup, FramesAfter(setup, was, input[..g], ceiling), input[g], ceiling)
      {
        assert input[..f + 1][..f] == input[..f];
        buffer[f] := ProcessFrame(buffer[f]);
      }
      assert input[..buffer.Length] == input;
    }

    /** The linked level of the delayed frame. */
    method LevelOf(f: Samples) returns (level: real)
      ensures level == LinkedLevel(f)
    {
      level := 0.0;
      for c := 0 to |f|
        invariant level == Level(f, c)
      {
        level := Max(level, Abs(f[c]));
      }
    }
  }

  lemma {:induction false} NothingOccupied(span: nat)
    ensures Occupied([], span) == 0
  {
    if span > 0 {
      NothingOccupied(span - 1);
    }
  }

  lemma LeavingSet(hist: seq<Samples>, span: nat, channels: nat)
    requires span > 0
    ensures InputSet(Before(hist, span, channels)) == SlotSet(hist, span)
  {
  }

  lemma InRange(delay: seq<Samples>, cursor: nat, hist: seq<Samples>, channels: nat)
    requires DelayHolds(delay, cursor, hist, channels)
    ensures cursor < |delay|
  {
  }
}
