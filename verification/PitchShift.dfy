/**
 * AudioPitchShift: overlap-add buffers around an abstract analysis and synthesis, and the countdown after which every
 * buffer is exactly zero.
 */
module PitchShifters {
  import C = ComplexNumbers
  import A = AudioFrames
  import DelayLines
  import opened Ramps
  import opened Reals

  const SILENCE: real := 0.000000000000000000000000000001

  /** Contribution of a frame to the accumulators, and the spectra and rotations that the next frame continues from. */
  datatype Analysis = Analysis(contribution: seq<seq<real>>, previous: seq<seq<C.Complex>>, rotation: seq<real>)

  /** hop is R; windows and delays hold N = 8 R frames.  `silent` is the analysis of silence. */
  datatype Setup = Setup(channels: nat, hop: nat, silent: Analysis,
                         transform: (seq<seq<real>>, seq<seq<C.Complex>>, seq<real>, real) -> Analysis)

  /** The buffers of a channel. */
  datatype Track = Track(input: seq<real>, accum: seq<real>, emit: seq<real>, dry: seq<real>)

  datatype Shifter = Shifter(tracks: seq<Track>, previous: seq<seq<C.Complex>>, rotation: seq<real>, fill: nat,
                             dryPos: nat, countdown: nat, ratio: real, mix: Line, trim: Line, left: nat)

  ghost predicate Zero(s: seq<real>) {
    forall i :: 0 <= i < |s| ==> s[i] == 0.0
  }

  ghost predicate AllZero(xs: seq<seq<real>>) {
    forall c :: 0 <= c < |xs| ==> Zero(xs[c])
  }

  ghost predicate Shaped(xs: seq<seq<real>>, channels: nat, n: nat) {
    |xs| == channels && forall c :: 0 <= c < channels ==> |xs[c]| == n
  }

  ghost predicate SilentAnalysis(s: Setup, a: Analysis) {
    AllZero(a.contribution) && a.previous == s.silent.previous && a.rotation == s.silent.rotation
  }

  /** Contributions are windows, and silence is analysed as silence. */
  ghost predicate Sound(s: Setup) {
    && s.hop > 0
    && (forall i, p, r, ratio :: Shaped(s.transform(i, p, r, ratio).contribution, s.channels, 8 * s.hop))
    && (forall i, p, r, ratio :: AllZero(i) ==> SilentAnalysis(s, s.transform(i, p, r, ratio)))
  }

  ghost predicate TrackShaped(tr: Track, hop: nat) {
    |tr.input| == |tr.accum| == |tr.dry| == 8 * hop && |tr.emit| == hop
  }

  ghost predicate TracksShaped(tracks: seq<Track>, channels: nat, hop: nat) {
    |tracks| == channels && forall c :: 0 <= c < channels ==> TrackShaped(tracks[c], hop)
  }

  ghost predicate StateShaped(s: Setup, p: Shifter) {
    s.hop > 0 && p.fill < s.hop && p.dryPos < 8 * s.hop && TracksShaped(p.tracks, s.channels, s.hop)
  }

  // ---------------------------------------------------------------- one frame

  /** Magnitudes below the threshold are treated as silence. */
  function Entered(x: seq<real>): (r: seq<real>)
    ensures |r| == |x| && forall c :: 0 <= c < |x| ==> r[c] == if Abs(x[c]) < SILENCE then 0.0 else x[c]
  {
    seq(|x|, c requires 0 <= c < |x| => if Abs(x[c]) < SILENCE then 0.0 else x[c])
  }

  function NextCountdown(s: Setup, p: Shifter, inputSet: bool): nat
    requires s.hop > 0
  {
    if inputSet then 16 * s.hop - 1 else if p.countdown > 0 then p.countdown - 1 else 0
  }

  /** A live frame enters the analysis window and the dry delay of a channel. */
  function Fed(tr: Track, hop: nat, fill: nat, dryPos: nat, x: real): (r: Track)
    requires TrackShaped(tr, hop) && fill < hop && dryPos < 8 * hop
    ensures TrackShaped(r, hop)
  {
    tr.(input := tr.input[7 * hop + fill := x], dry := tr.dry[dryPos := x])
  }

  function FedAll(s: Setup, p: Shifter, x: seq<real>): (r: seq<Track>)
    requires StateShaped(s, p) && |x| == s.channels
    ensures |r| == s.channels
    ensures forall c :: 0 <= c < s.channels ==> r[c] == Fed(p.tracks[c], s.hop, p.fill, p.dryPos, x[c])
  {
    seq(s.channels, c requires 0 <= c < s.channels => Fed(p.tracks[c], s.hop, p.fill, p.dryPos, x[c]))
  }

  function Blend(m: real, t: real, delayed: real, wet: real): real {
    t * ((1.0 - m) * delayed + m * wet)
  }

  function LiveOutput(s: Setup, p: Shifter): (out: seq<real>)
    requires StateShaped(s, p)
    ensures |out| == s.channels
  {
    seq(s.channels, c requires 0 <= c < s.channels =>
      Blend(p.mix.now, p.trim.now, p.tracks[c].dry[p.dryPos], p.tracks[c].emit[p.fill]))
  }

  function Added(a: seq<real>, b: seq<real>): (r: seq<real>)
    requires |a| == |b|
    ensures |r| == |a| && forall i :: 0 <= i < |a| ==> r[i] == a[i] + b[i]
  {
    seq(|a|, i requires 0 <= i < |a| => a[i] + b[i])
  }

  /** The end of a hop: completed output leaves the accumulator, and the window moves on by a hop. */
  function Hopped(tr: Track, hop: nat): (r: Track)
    requires TrackShaped(tr, hop)
    ensures TrackShaped(r, hop)
  {
    Track(tr.input[hop..] + tr.input[7 * hop..], tr.accum[hop..] + Zeros(hop), tr.accum[..hop], tr.dry)
  }

  function Inputs(tracks: seq<Track>): (xs: seq<seq<real>>)
    ensures |xs| == |tracks| && forall c :: 0 <= c < |tracks| ==> xs[c] == tracks[c].input
  {
    seq(|tracks|, c requires 0 <= c < |tracks| => tracks[c].input)
  }

  function HopAll(tracks: seq<Track>, channels: nat, hop: nat): (r: seq<Track>)
    requires TracksShaped(tracks, channels, hop)
    ensures TracksShaped(r, channels, hop) && forall c :: 0 <= c < channels ==> r[c] == Hopped(tracks[c], hop)
  {
    seq(channels, c requires 0 <= c < channels => Hopped(tracks[c], hop))
  }

  /** Overlap-add the contribution of a frame. */
  function AddAll(tracks: seq<Track>, contribution: seq<seq<real>>, channels: nat, hop: nat): (r: seq<Track>)
    requires TracksShaped(tracks, channels, hop) && Shaped(contribution, channels, 8 * hop)
    ensures TracksShaped(r, channels, hop)
    ensures forall c :: 0 <= c < channels ==> r[c] == tracks[c].(accum := Added(tracks[c].accum, contribution[c]))
  {
    seq(channels, c requires 0 <= c < channels => tracks[c].(accum := Added(tracks[c].accum, contribution[c])))
  }

  /** hop_frame(): a live hop is analysed and added, a silent one clears what the next analysis would continue from. */
  function HopFrame(s: Setup, p: Shifter, live: bool): (q: Shifter)
    requires Sound(s) && TracksShaped(p.tracks, s.channels, s.hop)
    ensures TracksShaped(q.tracks, s.channels, s.hop)
  {
    if live then
      var a := s.transform(Inputs(p.tracks), p.previous, p.rotation, p.ratio);
      p.(tracks := HopAll(AddAll(p.tracks, a.contribution, s.channels, s.hop), s.channels, s.hop),
         previous := a.previous, rotation := a.rotation)
    else
      p.(tracks := HopAll(p.tracks, s.channels, s.hop), previous := s.silent.previous, rotation := s.silent.rotation)
  }

  /** Slots, ramps and cadence, whether the frame is live or idle. */
  function Advanced(s: Setup, p: Shifter, live: bool): (q: Shifter)
    requires Sound(s) && StateShaped(s, p)
    ensures StateShaped(s, q)
  {
    var moved := p.(dryPos := DelayLines.NextSlot(p.dryPos, 8 * s.hop), mix := Moved(p.mix, p.left),
                    trim := Moved(p.trim, p.left), left := Countdown(p.left));
    if p.fill + 1 == s.hop then HopFrame(s, moved.(fill := 0), live) else moved.(fill := p.fill + 1)
  }

  function FrameWith(s: Setup, p: Shifter, x: seq<real>, live: bool): (q: Shifter)
    requires Sound(s) && StateShaped(s, p) && |x| == s.channels
    ensures StateShaped(s, q)
  {
    var entered := Entered(x);
    var tracks := if live then FedAll(s, p, entered) else p.tracks;
    Advanced(s, p.(tracks := tracks, countdown := NextCountdown(s, p, A.InputSet(entered))), live)
  }

  predicate Live(p: Shifter, x: seq<real>) {
    A.InputSet(Entered(x)) || p.countdown > 0
  }

  /** One frame: idle ones are not evaluated. */
  function Frame(s: Setup, p: Shifter, x: seq<real>): (q: Shifter)
    requires Sound(s) && StateShaped(s, p) && |x| == s.channels
    ensures StateShaped(s, q)
  {
    FrameWith(s, p, x, Live(p, x))
  }

  function Output(s: Setup, p: Shifter, x: seq<real>): (out: seq<real>)
    requires StateShaped(s, p) && |x| == s.channels
  {
    if Live(p, x) then LiveOutput(s, p) else Zeros(s.channels)
  }

  // ---------------------------------------------------------------- the age of the last non-zero input

  /**
   * `after` frames have passed in whole hops since the hop of the last non-zero input.  Then the window is silent from
   * that hop on, what was last completed lies behind, and the dry delay holds no newer sample.
   */
  ghost predicate TrackAged(tr: Track, hop: nat, fill: nat, dryPos: nat, countdown: nat, after: nat) {
    && TrackShaped(tr, hop) && fill <= hop && dryPos < 8 * hop
    && (after >= hop ==> forall i :: 8 * hop - after <= i < 7 * hop + fill && i >= 0 ==> tr.input[i] == 0.0)
    && (after >= 2 * hop ==> forall i :: 7 * hop + fill <= i < 8 * hop ==> tr.input[i] == 0.0)
    && (after >= 8 * hop ==> forall j :: 15 * hop - after <= j < 8 * hop && j >= 0 ==> tr.accum[j] == 0.0)
    && (after >= 16 * hop ==> Zero(tr.emit))
    && (forall k :: 1 <= k <= 8 * hop && k <= 16 * hop - 1 - countdown ==>
        tr.dry[DelayLines.Slot(dryPos, k, 8 * hop)] == 0.0)
  }

  ghost predicate TracksAged(s: Setup, p: Shifter, after: nat) {
    forall c :: 0 <= c < |p.tracks| ==> TrackAged(p.tracks[c], s.hop, p.fill, p.dryPos, p.countdown, after)
  }

  /** The countdown measures the age: `l` is the place of the last non-zero input in its hop, `d` the hops since. */
  ghost predicate Aged(s: Setup, p: Shifter, d: nat, l: nat) {
    && StateShaped(s, p) && l < s.hop && (d == 0 ==> l < p.fill)
    && p.countdown + d * s.hop + p.fill == 16 * s.hop + l
    && TracksAged(s, p, d * s.hop)
  }

  ghost predicate TrackIdle(tr: Track) {
    Zero(tr.input) && Zero(tr.accum) && Zero(tr.emit) && Zero(tr.dry)
  }

  /** The state in which skipping the transforms changes nothing. */
  ghost predicate Idle(s: Setup, p: Shifter) {
    StateShaped(s, p) && p.countdown == 0 && forall c :: 0 <= c < |p.tracks| ==> TrackIdle(p.tracks[c])
  }

  ghost predicate Inv(s: Setup, p: Shifter) {
    Idle(s, p) || (p.countdown > 0 && exists d: nat, l: nat :: Aged(s, p, d, l))
  }

  /** Once the countdown has expired, the last hop with anything in it has been emitted. */
  lemma SixteenHops(d: nat, hop: nat, fill: nat, l: nat)
    requires hop > 0 && fill < hop && l < hop && d * hop + fill == 16 * hop + l
    ensures d == 16
  {
    if d <= 15 {
      ProductLimits(d, 15, hop);
    } else {
      ProductLimits(16, d, hop);
      if d >= 17 {
        ProductLimits(17, d, hop);
      }
    }
  }

  lemma ProductLimits(a: nat, b: nat, hop: nat)
    requires a <= b
    ensures a * hop <= b * hop
  {
    assert (b - a) * hop >= 0;
  }

  lemma ExpiredTrack(tr: Track, hop: nat, fill: nat, dryPos: nat)
    requires TrackAged(tr, hop, fill, dryPos, 0, 16 * hop) && hop > 0
    ensures TrackIdle(tr)
  {
    forall i | 0 <= i < 8 * hop
      ensures tr.dry[i] == 0.0
    {
      var k := if i < dryPos then dryPos - i else dryPos + 8 * hop - i;
      assert DelayLines.Slot(dryPos, k, 8 * hop) == i;
    }
  }

  /** Whenever the countdown is zero, the input, accumulator, emit and dry buffers are all exactly zero. */
  lemma Expired(s: Setup, p: Shifter, d: nat, l: nat)
    requires Aged(s, p, d, l) && p.countdown == 0
    ensures Idle(s, p)
  {
    hide TrackAged, TrackIdle;
    SixteenHops(d, s.hop, p.fill, l);
    forall c | 0 <= c < |p.tracks|
      ensures TrackIdle(p.tracks[c])
    {
      ExpiredTrack(p.tracks[c], s.hop, p.fill, p.dryPos);
    }
  }

  // ---------------------------------------------------------------- steps

  /** The dry delay after a write. */
  lemma DryWritten(dry: seq<real>, dryPos: nat, x: real, oldest: int)
    requires dryPos < |dry|
    requires forall k :: 1 <= k <= |dry| && k <= oldest ==> dry[DelayLines.Slot(dryPos, k, |dry|)] == 0.0
    ensures x == 0.0 ==> forall k :: 1 <= k <= |dry| && k <= oldest + 1 ==>
              dry[dryPos := x][DelayLines.Slot(DelayLines.NextSlot(dryPos, |dry|), k, |dry|)] == 0.0
  {
    if x == 0.0 {
      var n, pos := |dry|, DelayLines.NextSlot(dryPos, |dry|);
      forall k | 1 <= k <= n && k <= oldest + 1
        ensures dry[dryPos := x][DelayLines.Slot(pos, k, n)] == 0.0
      {
        if k == 1 {
          assert DelayLines.Slot(pos, 1, n) == dryPos;
        } else {
          assert DelayLines.Slot(pos, k, n) == DelayLines.Slot(dryPos, k - 1, n);
        }
      }
    }
  }

  /** A silent sample ages a channel by one frame. */
  lemma SilentFed(tr: Track, hop: nat, fill: nat, dryPos: nat, countdown: nat, after: nat)
    requires TrackAged(tr, hop, fill, dryPos, countdown, after) && fill < hop && countdown > 0
    ensures TrackAged(Fed(tr, hop, fill, dryPos, 0.0), hop, fill + 1, DelayLines.NextSlot(dryPos, 8 * hop),
                      countdown - 1, after)
  {
    DryWritten(tr.dry, dryPos, 0.0, 16 * hop - 1 - countdown);
  }

  /** Any sample restarts the age. */
  lemma InputFed(tr: Track, hop: nat, fill: nat, dryPos: nat, x: real)
    requires TrackShaped(tr, hop) && fill < hop && dryPos < 8 * hop
    ensures TrackAged(Fed(tr, hop, fill, dryPos, x), hop, fill + 1, DelayLines.NextSlot(dryPos, 8 * hop), 16 * hop - 1,
                      0)
  {
  }

  /** The end of a hop, with a contribution that is zero once the whole window is. */
  lemma HopAged(tr: Track, hop: nat, dryPos: nat, countdown: nat, after: nat, contribution: seq<real>)
    requires TrackAged(tr, hop, hop, dryPos, countdown, after) && hop > 0
    requires |contribution| == 8 * hop && (after >= 8 * hop ==> Zero(contribution))
    requires after >= 7 * hop && after < 8 * hop ==> after == 7 * hop
    requires after < hop ==> after == 0
    ensures TrackAged(Hopped(tr.(accum := Added(tr.accum, contribution)), hop), hop, 0, dryPos, countdown, after + hop)
  {
    var sum := Added(tr.accum, contribution);
    var r := Hopped(tr.(accum := sum), hop);
    forall i | 8 * hop - (after + hop) <= i < 7 * hop && i >= 0
      ensures r.input[i] == 0.0
    {
      assert r.input[i] == tr.input[i + hop];
    }
    forall i | 7 * hop <= i < 8 * hop && after + hop >= 2 * hop
      ensures r.input[i] == 0.0
    {
      assert r.input[i] == tr.input[7 * hop..][i - 7 * hop] == tr.input[i];
    }
    forall j | 15 * hop - (after + hop) <= j < 8 * hop && j >= 0 && after + hop >= 8 * hop
      ensures r.accum[j] == 0.0
    {
      if j < 7 * hop {
        assert r.accum[j] == sum[j + hop];
      }
    }
    if after + hop >= 16 * hop {
      forall j | 0 <= j < hop
        ensures r.emit[j] == 0.0
      {
        assert r.emit[j] == sum[j];
      }
    }
  }

  /** After eight hops the window is silent. */
  lemma WindowSilent(tr: Track, hop: nat, dryPos: nat, countdown: nat, after: nat)
    requires TrackAged(tr, hop, hop, dryPos, countdown, after) && after >= 8 * hop && hop > 0
    ensures Zero(tr.input)
  {
  }

  lemma HopIdle(tr: Track, hop: nat, contribution: seq<real>)
    requires TrackShaped(tr, hop) && TrackIdle(tr) && |contribution| == 8 * hop && Zero(contribution)
    ensures TrackIdle(Hopped(tr, hop)) && Added(tr.accum, contribution) == tr.accum
  {
    var r := Hopped(tr, hop);
    forall i | 0 <= i < 8 * hop
      ensures r.input[i] == 0.0 && r.accum[i] == 0.0
    {
    }
  }

  lemma MultipleGaps(d: nat, hop: nat)
    requires hop > 0
    ensures d * hop >= 7 * hop && d * hop < 8 * hop ==> d * hop == 7 * hop
    ensures d * hop < hop ==> d == 0 && d * hop == 0
    ensures (d + 1) * hop == d * hop + hop
  {
    if d <= 6 {
      ProductLimits(d, 6, hop);
    } else if d >= 8 {
      ProductLimits(8, d, hop);
    }
    if d >= 1 {
      ProductLimits(1, d, hop);
    }
  }

  /** The tracks at the end of a hop, after the contribution of their analysis. */
  lemma HopTracksAged(s: Setup, tracks: seq<Track>, contribution: seq<seq<real>>, dryPos: nat, countdown: nat, d: nat)
    requires TracksShaped(tracks, s.channels, s.hop) && s.hop > 0 && Shaped(contribution, s.channels, 8 * s.hop)
    requires forall c :: 0 <= c < s.channels ==> TrackAged(tracks[c], s.hop, s.hop, dryPos, countdown, d * s.hop)
    requires d * s.hop >= 8 * s.hop ==> AllZero(contribution)
    ensures var r := HopAll(AddAll(tracks, contribution, s.channels, s.hop), s.channels, s.hop);
            forall c :: 0 <= c < s.channels ==> TrackAged(r[c], s.hop, 0, dryPos, countdown, (d + 1) * s.hop)
  {
    hide TrackAged, Hopped, Added;
    var r := HopAll(AddAll(tracks, contribution, s.channels, s.hop), s.channels, s.hop);
    MultipleGaps(d, s.hop);
    forall c | 0 <= c < s.channels
      ensures TrackAged(r[c], s.hop, 0, dryPos, countdown, (d + 1) * s.hop)
    {
      HopAged(tracks[c], s.hop, dryPos, countdown, d * s.hop, contribution[c]);
    }
  }

  /** A live hop ages the tracks by a hop: once the window is silent, so is its analysis. */
  lemma HopFrameAged(s: Setup, p: Shifter, d: nat)
    requires Sound(s) && TracksShaped(p.tracks, s.channels, s.hop)
    requires forall c :: 0 <= c < s.channels ==> TrackAged(p.tracks[c], s.hop, s.hop, p.dryPos, p.countdown, d * s.hop)
    ensures forall c :: 0 <= c < s.channels ==>
                          TrackAged(HopFrame(s, p, true).tracks[c], s.hop, 0, p.dryPos, p.countdown, (d + 1) * s.hop)
  {
    hide TrackAged, TrackShaped;
    var inputs := Inputs(p.tracks);
    var a := s.transform(inputs, p.previous, p.rotation, p.ratio);
    if d * s.hop >= 8 * s.hop {
      forall c | 0 <= c < s.channels
        ensures Zero(inputs[c])
      {
        WindowSilent(p.tracks[c], s.hop, p.dryPos, p.countdown, d * s.hop);
      }
      assert SilentAnalysis(s, a);
    }
    HopTracksAged(s, p.tracks, a.contribution, p.dryPos, p.countdown, d);
  }

  /** The tracks after a live sample, before the end of a hop. */
  ghost predicate FedAged(s: Setup, p: Shifter, tracks: seq<Track>, countdown: nat, d: nat) {
    && StateShaped(s, p) && TracksShaped(tracks, s.channels, s.hop)
    && forall c :: 0 <= c < s.channels ==>
         TrackAged(tracks[c], s.hop, p.fill + 1, DelayLines.NextSlot(p.dryPos, 8 * s.hop), countdown, d * s.hop)
  }

  lemma FedTracks(s: Setup, p: Shifter, x: seq<real>, d: nat, l: nat)
    requires Aged(s, p, d, l) && p.countdown > 0 && |x| == s.channels && !A.InputSet(x)
    ensures FedAged(s, p, FedAll(s, p, x), p.countdown - 1, d)
  {
    hide TrackAged, TrackShaped, Fed;
    forall c | 0 <= c < s.channels
      ensures TrackAged(FedAll(s, p, x)[c], s.hop, p.fill + 1, DelayLines.NextSlot(p.dryPos, 8 * s.hop),
                        p.countdown - 1,
                        d * s.hop)
    {
      assert x[c] == 0.0;
      SilentFed(p.tracks[c], s.hop, p.fill, p.dryPos, p.countdown, d * s.hop);
    }
  }

  lemma FedInput(s: Setup, p: Shifter, x: seq<real>)
    requires StateShaped(s, p) && |x| == s.channels
    ensures FedAged(s, p, FedAll(s, p, x), 16 * s.hop - 1, 0)
  {
    hide TrackAged, TrackShaped, Fed;
    forall c | 0 <= c < s.channels
      ensures TrackAged(FedAll(s, p, x)[c], s.hop, p.fill + 1, DelayLines.NextSlot(p.dryPos, 8 * s.hop), 16 * s.hop - 1,
                        0 * s.hop)
    {
      assert 0 * s.hop == 0;
      InputFed(p.tracks[c], s.hop, p.fill, p.dryPos, x[c]);
    }
  }

  /** A live frame whose tracks have age d, in frames of the hop of place l. */
  lemma AdvancedAged(s: Setup, p: Shifter, tracks: seq<Track>, countdown: nat, d: nat, l: nat)
    requires Sound(s) && FedAged(s, p, tracks, countdown, d) && l < s.hop
    requires countdown + d * s.hop + p.fill + 1 == 16 * s.hop + l && (d == 0 ==> l <= p.fill)
    ensures var q := Advanced(s, p.(tracks := tracks, countdown := countdown), true);
            exists e: nat :: Aged(s, q, e, l)
  {
    hide TrackAged, TrackShaped, HopFrame;
    var q := Advanced(s, p.(tracks := tracks, countdown := countdown), true);
    MultipleGaps(d, s.hop);
    if p.fill + 1 == s.hop {
      var moved := p.(tracks := tracks, countdown := countdown, fill := 0,
                      dryPos := DelayLines.NextSlot(p.dryPos, 8 * s.hop), mix := Moved(p.mix, p.left),
                      trim := Moved(p.trim, p.left), left := Countdown(p.left));
      HopFrameAged(s, moved, d);
      HopKeeps(s, moved);
      assert Aged(s, q, d + 1, l);
    } else {
      assert Aged(s, q, d, l);
    }
  }

  lemma HopKeeps(s: Setup, p: Shifter)
    requires Sound(s) && TracksShaped(p.tracks, s.channels, s.hop)
    ensures var q := HopFrame(s, p, true); q.fill == p.fill && q.dryPos == p.dryPos && q.countdown == p.countdown
  {
  }

  // ---------------------------------------------------------------- idle frames

  lemma IdleHop(s: Setup, p: Shifter, live: bool)
    requires Sound(s) && TracksShaped(p.tracks, s.channels, s.hop)
    requires forall c :: 0 <= c < s.channels ==> TrackIdle(p.tracks[c])
    ensures HopFrame(s, p, live) == HopFrame(s, p, false)
    ensures forall c :: 0 <= c < s.channels ==> TrackIdle(HopFrame(s, p, false).tracks[c])
  {
    hide Hopped, Added;
    var inputs := Inputs(p.tracks);
    var a := s.transform(inputs, p.previous, p.rotation, p.ratio);
    assert AllZero(inputs);
    assert SilentAnalysis(s, a) && Shaped(a.contribution, s.channels, 8 * s.hop);
    forall c | 0 <= c < s.channels
      ensures TrackIdle(Hopped(p.tracks[c], s.hop)) && Added(p.tracks[c].accum, a.contribution[c]) == p.tracks[c].accum
    {
      HopIdle(p.tracks[c], s.hop, a.contribution[c]);
    }
    assert AddAll(p.tracks, a.contribution, s.channels, s.hop) == p.tracks;
  }

  lemma IdleFed(s: Setup, p: Shifter, x: seq<real>)
    requires Idle(s, p) && |x| == s.channels && !A.InputSet(x)
    ensures FedAll(s, p, x) == p.tracks
  {
    forall c | 0 <= c < s.channels
      ensures Fed(p.tracks[c], s.hop, p.fill, p.dryPos, x[c]) == p.tracks[c]
    {
      assert x[c] == 0.0 && TrackIdle(p.tracks[c]);
      var tr := p.tracks[c];
      assert tr.input[7 * s.hop + p.fill := 0.0] == tr.input;
      assert tr.dry[p.dryPos := 0.0] == tr.dry;
    }
  }

  lemma IdleAdvanced(s: Setup, p: Shifter, live: bool)
    requires Sound(s) && Idle(s, p)
    ensures Advanced(s, p, live) == Advanced(s, p, false) && Idle(s, Advanced(s, p, false))
  {
    hide HopFrame, TrackIdle;
    if p.fill + 1 == s.hop {
      var moved := p.(dryPos := DelayLines.NextSlot(p.dryPos, 8 * s.hop), mix := Moved(p.mix, p.left),
                      trim := Moved(p.trim, p.left), left := Countdown(p.left), fill := 0);
      IdleHop(s, moved, live);
      SilentHopKeeps(s, moved);
    }
  }

  lemma SilentHopKeeps(s: Setup, p: Shifter)
    requires Sound(s) && TracksShaped(p.tracks, s.channels, s.hop)
    ensures HopFrame(s, p, false).countdown == p.countdown
  {
  }

  // ---------------------------------------------------------------- main results

  lemma Classified(s: Setup, q: Shifter, d: nat, l: nat)
    requires Aged(s, q, d, l)
    ensures Inv(s, q)
  {
    hide Aged, Idle;
    if q.countdown == 0 {
      Expired(s, q, d, l);
    }
  }

  /** The invariant survives every frame, live or skipped. */
  lemma FrameKeeps(s: Setup, p: Shifter, x: seq<real>)
    requires Sound(s) && Inv(s, p) && StateShaped(s, p) && |x| == s.channels
    ensures Inv(s, Frame(s, p, x))
  {
    hide TrackAged, TrackShaped, TrackIdle, Advanced, A.InputSet, FedAll;
    var entered := Entered(x);
    var q := Frame(s, p, x);
    if A.InputSet(entered) {
      FedInput(s, p, entered);
      AdvancedAged(s, p, FedAll(s, p, entered), 16 * s.hop - 1, 0, p.fill);
      var e: nat :| Aged(s, q, e, p.fill);
      Classified(s, q, e, p.fill);
    } else if p.countdown > 0 {
      assert !Idle(s, p);
      var d: nat, l: nat :| Aged(s, p, d, l);
      FedTracks(s, p, entered, d, l);
      AdvancedAged(s, p, FedAll(s, p, entered), p.countdown - 1, d, l);
      var e: nat :| Aged(s, q, e, l);
      Classified(s, q, e, l);
    } else {
      IdleAdvanced(s, p, false);
      assert p.(tracks := p.tracks, countdown := 0) == p;
    }
  }

  lemma IdleOutput(s: Setup, p: Shifter)
    requires Idle(s, p)
    ensures LiveOutput(s, p) == Zeros(s.channels)
  {
    forall c | 0 <= c < s.channels
      ensures LiveOutput(s, p)[c] == 0.0
    {
      assert TrackIdle(p.tracks[c]);
      BlendOfNothing(p.mix.now, p.trim.now);
    }
  }

  lemma BlendOfNothing(m: real, t: real)
    ensures Blend(m, t, 0.0, 0.0) == 0.0
  {
  }

  /** Skipping idle frames gives the state and the output that evaluating every transform would. */
  lemma SkippingIsExact(s: Setup, p: Shifter, x: seq<real>)
    requires Sound(s) && Inv(s, p) && StateShaped(s, p) && |x| == s.channels
    ensures Frame(s, p, x) == FrameWith(s, p, x, true)
    ensures Output(s, p, x) == LiveOutput(s, p)
  {
    hide TrackAged, TrackShaped, TrackIdle, Advanced, A.InputSet, FedAll, LiveOutput;
    if !Live(p, x) {
      IdleFed(s, p, Entered(x));
      assert p.(tracks := p.tracks, countdown := 0) == p;
      IdleAdvanced(s, p, true);
      IdleOutput(s, p);
    }
  }

  function SilentFrames(s: Setup, p: Shifter, n: nat): (q: Shifter)
    requires Sound(s) && StateShaped(s, p)
    ensures StateShaped(s, q)
  {
    if n == 0 then p else Frame(s, SilentFrames(s, p, n - 1), Zeros(s.channels))
  }

  lemma SilentEntered(n: nat)
    ensures !A.InputSet(Entered(Zeros(n)))
  {
  }

  lemma CountdownKept(s: Setup, p: Shifter, x: seq<real>)
    requires Sound(s) && StateShaped(s, p) && |x| == s.channels
    ensures Frame(s, p, x).countdown == NextCountdown(s, p, A.InputSet(Entered(x)))
  {
    hide Hopped, Added;
  }

  lemma {:induction false} CountsDown(s: Setup, p: Shifter, n: nat)
    requires Sound(s) && StateShaped(s, p)
    ensures SilentFrames(s, p, n).countdown == if p.countdown >= n then p.countdown - n else 0
  {
    hide Frame;
    if n == 0 {
    } else {
      CountsDown(s, p, n - 1);
      SilentEntered(s.channels);
      CountdownKept(s, SilentFrames(s, p, n - 1), Zeros(s.channels));
    }
  }

  ghost predicate CountdownBounded(s: Setup, p: Shifter) {
    p.countdown < 16 * s.hop
  }

  /** Frames whose transforms are never skipped. */
  function EvaluatedFrames(s: Setup, p: Shifter, n: nat): (q: Shifter)
    requires Sound(s) && StateShaped(s, p)
    ensures StateShaped(s, q)
  {
    if n == 0 then p else FrameWith(s, EvaluatedFrames(s, p, n - 1), Zeros(s.channels), true)
  }

  lemma {:induction false} SilentFramesKeep(s: Setup, p: Shifter, n: nat)
    requires Sound(s) && StateShaped(s, p) && Inv(s, p)
    ensures Inv(s, SilentFrames(s, p, n)) && EvaluatedFrames(s, p, n) == SilentFrames(s, p, n)
  {
    hide Inv, Sound, StateShaped, Frame, FrameWith, LiveOutput;
    if n > 0 {
      SilentFramesKeep(s, p, n - 1);
      FrameKeeps(s, SilentFrames(s, p, n - 1), Zeros(s.channels));
      SkippingIsExact(s, SilentFrames(s, p, n - 1), Zeros(s.channels));
    }
  }

  /**
   * 2 N - 1 frames after the last input every buffer is zero: running the transforms all along gives silence from
   * then on, as skipping them does.
   */
  lemma TailEnds(s: Setup, p: Shifter, n: nat)
    requires Sound(s) && StateShaped(s, p) && Inv(s, p) && CountdownBounded(s, p) && n >= 16 * s.hop - 1
    ensures var q := EvaluatedFrames(s, p, n);
            && Idle(s, q) && LiveOutput(s, q) == Zeros(s.channels)
            && q == SilentFrames(s, p, n) && Output(s, q, Zeros(s.channels)) == Zeros(s.channels)
  {
    hide Sound, StateShaped, EvaluatedFrames, SilentFrames, LiveOutput, Idle;
    CountsDown(s, p, n);
    SilentFramesKeep(s, p, n);
    var q := SilentFrames(s, p, n);
    assert Idle(s, q);
    IdleOutput(s, q);
    SkippingIsExact(s, q, Zeros(s.channels));
  }

  lemma CountdownStaysBounded(s: Setup, p: Shifter, x: seq<real>)
    requires Sound(s) && StateShaped(s, p) && |x| == s.channels && CountdownBounded(s, p)
    ensures CountdownBounded(s, Frame(s, p, x))
  {
    hide Frame, A.InputSet;
    CountdownKept(s, p, x);
  }

  // ---------------------------------------------------------------- the processor

  function FramesAfter(s: Setup, p: Shifter, xs: seq<seq<real>>): (q: Shifter)
    requires Sound(s) && StateShaped(s, p) && forall i :: 0 <= i < |xs| ==> |xs[i]| == s.channels
    ensures StateShaped(s, q)
    decreases |xs|
  {
    if xs == [] then p else Frame(s, FramesAfter(s, p, xs[..|xs| - 1]), xs[|xs| - 1])
  }

  lemma {:induction false} SettingsFollow(s: Setup, p: Shifter, xs: seq<seq<real>>)
    requires Sound(s) && StateShaped(s, p) && forall i :: 0 <= i < |xs| ==> |xs[i]| == s.channels
    ensures var q, n := FramesAfter(s, p, xs), |xs|;
            && q.left == Left(p.left, n) && q.mix == LineAfter(p.mix, p.left, n)
            && q.trim == LineAfter(p.trim, p.left, n) && q.ratio == p.ratio
    decreases |xs|
  {
    hide StateShaped, Sound, Moved, FedAll, A.InputSet, HopAll, AddAll, Entered;
    if xs != [] {
      SettingsFollow(s, p, xs[..|xs| - 1]);
    }
  }

  /** An edit: the ratio applies from the next hop on; mix and trim ramp from where they are. */
  function Updated(p: Shifter, ratio: real, mix: real, trim: real, frames: nat): Shifter
    requires frames > 0
  {
    p.(ratio := ratio, mix := Aimed(p.mix, mix, frames), trim := Aimed(p.trim, trim, frames), left := frames)
  }

  /** It takes effect along a line, and is complete after the frames of a ramp. */
  lemma EditTakesEffect(s: Setup, p: Shifter, ratio: real, mix: real, trim: real, frames: nat, xs: seq<seq<real>>)
    requires Sound(s) && StateShaped(s, p) && frames > 0 && forall i :: 0 <= i < |xs| ==> |xs[i]| == s.channels
    ensures var q := FramesAfter(s, Updated(p, ratio, mix, trim, frames), xs);
            && q.ratio == ratio && Ramped(p.mix.now, mix, q.mix.now, |xs|, frames)
            && Ramped(p.trim.now, trim, q.trim.now, |xs|, frames)
  {
    hide FramesAfter, LineAfter, Ramped, StepTo, Sound;
    SettingsFollow(s, Updated(p, ratio, mix, trim, frames), xs);
    LineRamps(p.mix, mix, frames, |xs|);
    LineRamps(p.trim, trim, frames, |xs|);
  }

  /** A run of silent frames. */
  lemma {:induction false} SilentBuffer(s: Setup, p: Shifter, xs: seq<seq<real>>)
    requires Sound(s) && StateShaped(s, p)
    requires forall i :: 0 <= i < |xs| ==> |xs[i]| == s.channels && xs[i] == Zeros(s.channels)
    ensures FramesAfter(s, p, xs) == SilentFrames(s, p, |xs|)
  {
    hide Frame, StateShaped, Sound;
    if xs != [] {
      SilentBuffer(s, p, xs[..|xs| - 1]);
    }
  }

  class PitchShiftProcessor {
    const setup: Setup
    var tracks: seq<Track>
    var previous: seq<seq<C.Complex>>
    var rotation: seq<real>
    var fill: nat           // The place in the hop, below R
    var dryPos: nat         // The place in the dry delays, below N
    var countdown: nat      // At zero, every track is idle
    var ratio: real
    var mix: Line
    var trim: Line
    var left: nat
    var active: bool

    ghost function Now(): Shifter
      reads this
    {
      Shifter(tracks, previous, rotation, fill, dryPos, countdown, ratio, mix, trim, left)
    }

    ghost predicate Valid()
      reads this
    {
      Sound(setup) && StateShaped(setup, Now()) && Inv(setup, Now()) && CountdownBounded(setup, Now())
    }

    /** reset(): cleared buffers, and the committed values without a ramp. */
    constructor (setup: Setup, ratio: real, mix: real, trim: real, active: bool)
      requires Sound(setup)
      ensures Valid() && this.setup == setup && this.active == active && countdown == 0 && Idle(setup, Now())
    {
      this.setup, this.active, this.ratio := setup, active, ratio;
      tracks := seq(setup.channels, _ => Track(Zeros(8 * setup.hop), Zeros(8 * setup.hop), Zeros(setup.hop),
                                               Zeros(8 * setup.hop)));
      previous, rotation := setup.silent.previous, setup.silent.rotation;
      fill, dryPos, countdown, left := 0, 0, 0, 0;
      this.mix, this.trim := Line(mix, mix, 0.0), Line(trim, trim, 0.0);
    }

    /** pending() */
    predicate Pending()
      reads this
    {
      active && countdown > 0
    }

    /** 2 N - 1 silent frames leave nothing pending. */
    lemma NothingPending(p: Shifter, silence: seq<seq<real>>)
      requires Sound(setup) && StateShaped(setup, p) && Inv(setup, p) && CountdownBounded(setup, p)
      requires |silence| >= 16 * setup.hop - 1
      requires forall i :: 0 <= i < |silence| ==>
                 |silence[i]| == setup.channels && silence[i] == Zeros(setup.channels)
      requires Now() == FramesAfter(setup, p, silence)
      ensures !Pending()
    {
      hide Sound, StateShaped, Inv, SilentFrames, FramesAfter, EvaluatedFrames, LiveOutput, Output;
      SilentBuffer(setup, p, silence);
      TailEnds(setup, p, |silence|);
    }

    /** An edit changes no buffer: the next hop uses the new ratio, while mix and trim move by ramps. */
    method Update(ratio: real, mix: real, trim: real, frames: nat, resetPending: bool, current: bool)
      requires Valid() && frames > 0
      modifies this`ratio, this`mix, this`trim, this`left
      ensures Valid()
      ensures Now() == if active && !resetPending && current then Updated(old(Now()), ratio, mix, trim, frames)
                       else old(Now())
    {
      hide TrackIdle, TrackAged, StepTo;
      if !active || resetPending || !current {
        return;
      }
      ghost var was := Now();
      this.ratio := ratio;
      this.mix := Aimed(this.mix, mix, frames);
      this.trim := Aimed(this.trim, trim, frames);
      left := frames;
      SameBuffers(setup, was, Now());
    }

    /** Both signals of every channel leave, and the input enters. */
    method Exchange(x: seq<real>) returns (out: seq<real>)
      requires StateShaped(setup, Now()) && |x| == setup.channels
      modifies this`tracks
      ensures tracks == FedAll(setup, old(Now()), x) && out == LiveOutput(setup, old(Now()))
    {
      hide Blend, Fed;
      out := Zeros(setup.channels);
      for c := 0 to setup.channels
        invariant |out| == |tracks| == setup.channels
        invariant forall i :: 0 <= i < c ==> tracks[i] == FedAll(setup, old(Now()), x)[i]
        invariant forall i :: 0 <= i < c ==> out[i] == LiveOutput(setup, old(Now()))[i]
        invariant forall i :: c <= i < setup.channels ==> tracks[i] == old(tracks)[i]
      {
        var wet, delayed := tracks[c].emit[fill], tracks[c].dry[dryPos];
        out := out[c := Blend(mix.now, trim.now, delayed, wet)];
        tracks := tracks[c := Fed(tracks[c], setup.hop, fill, dryPos, x[c])];
      }
    }

    /** hop_frame() */
    method FinishHop(live: bool)
      requires Sound(setup) && TracksShaped(tracks, setup.channels, setup.hop)
      modifies this`tracks, this`previous, this`rotation
      ensures Now() == HopFrame(setup, old(Now()), live)
    {
      hide Hopped, Added;
      if live {
        TransformShaped(setup, Inputs(tracks), previous, rotation, ratio);
        var a := setup.transform(Inputs(tracks), previous, rotation, ratio);
        tracks := AddAll(tracks, a.contribution, setup.channels, setup.hop);
        previous, rotation := a.previous, a.rotation;
      } else {
        previous, rotation := setup.silent.previous, setup.silent.rotation;
      }
      ghost var before := tracks;
      for c := 0 to setup.channels
        invariant |tracks| == setup.channels && previous == HopFrame(setup, old(Now()), live).previous
        invariant rotation == HopFrame(setup, old(Now()), live).rotation
        invariant forall i :: 0 <= i < c ==> tracks[i] == Hopped(before[i], setup.hop)
        invariant forall i :: c <= i < setup.channels ==> tracks[i] == before[i]
      {
        tracks := tracks[c := Hopped(tracks[c], setup.hop)];
      }
      HopAllIs(before, setup.channels, setup.hop, tracks);
    }

    method ProcessFrame(x: seq<real>) returns (out: seq<real>)
      requires Valid() && |x| == setup.channels
      modifies this
      ensures Valid() && active == old(active)
      ensures Now() == Frame(setup, old(Now()), x) && out == Output(setup, old(Now()), x)
    {
      hide Hopped, Added, LiveOutput, FedAll, TrackShaped, TrackIdle, TrackAged, A.InputSet, HopFrame, Moved, Inv, Aged,
           Advanced;
      FrameKeeps(setup, Now(), x);
      CountdownStaysBounded(setup, Now(), x);
      ghost var was := Now();
      var entered := Entered(x);
      var inputSet := A.InputSet(entered);
      var live := inputSet || countdown > 0;
      if live {
        out := Exchange(entered);
      } else {
        out := Zeros(setup.channels);
      }
      if inputSet {
        countdown := 16 * setup.hop - 1;
      } else if countdown > 0 {
        countdown := countdown - 1;
      }
      FinishFrame(live);
    }

    /** The cursors and ramps after a frame, and the hop it may complete. */
    method FinishFrame(live: bool)
      requires Sound(setup) && StateShaped(setup, Now())
      modifies this`dryPos, this`mix, this`trim, this`left, this`fill, this`tracks, this`previous, this`rotation
      ensures Now() == Advanced(setup, old(Now()), live)
    {
      hide Hopped, Added, TrackShaped, HopFrame, Moved;
      dryPos := DelayLines.NextSlot(dryPos, 8 * setup.hop);
      mix, trim := Moved(mix, left), Moved(trim, left);
      left := Countdown(left);
      fill := fill + 1;
      if fill == setup.hop {
        fill := 0;
        FinishHop(live);
      }
    }

    /** Process a buffer of frames in place; the partition into buffers does not matter. */
    method Process(buffer: array<seq<real>>)
      requires Valid() && forall f :: 0 <= f < buffer.Length ==> |buffer[f]| == setup.channels
      modifies this, buffer
      ensures Valid()
      ensures !active ==> Now() == old(Now()) && buffer[..] == old(buffer[..])
      ensures active ==> Now() == FramesAfter(setup, old(Now()), old(buffer[..]))
      ensures active ==> forall f :: 0 <= f < buffer.Length ==>
                           buffer[f] == Output(setup, FramesAfter(setup, old(Now()), old(buffer[..f])), old(buffer[f]))
    {
      hide Frame, Output, Inv, CountdownBounded, TracksShaped, StateShaped, Sound;
      if !active {
        return;
      }
      ghost var input, was := buffer[..], Now();
      for f := 0 to buffer.Length
        invariant Valid() && active
        invariant forall g :: f <= g < buffer.Length ==> buffer[g] == input[g]
        invariant Now() == FramesAfter(setup, was, input[..f])
        invariant forall g :: 0 <= g < f ==> buffer[g] == Output(setup, FramesAfter(setup, was, input[..g]), input[g])
      {
        assert input[..f + 1][..f] == input[..f];
        buffer[f] := ProcessFrame(buffer[f]);
      }
      assert input[..buffer.Length] == input;
    }
  }

  lemma HopAllIs(tracks: seq<Track>, channels: nat, hop: nat, r: seq<Track>)
    requires TracksShaped(tracks, channels, hop) && |r| == channels
    requires forall c :: 0 <= c < channels ==> r[c] == Hopped(tracks[c], hop)
    ensures r == HopAll(tracks, channels, hop)
  {
    hide Hopped;
  }

  lemma TransformShaped(s: Setup, i: seq<seq<real>>, p: seq<seq<C.Complex>>, r: seq<real>, ratio: real)
    requires Sound(s)
    ensures Shaped(s.transform(i, p, r, ratio).contribution, s.channels, 8 * s.hop)
  {
    hide AllZero, Shaped;
  }

  /** The invariant is about the buffers and their positions alone. */
  lemma SameBuffers(s: Setup, p: Shifter, q: Shifter)
    requires Inv(s, p) && q.tracks == p.tracks && q.fill == p.fill && q.dryPos == p.dryPos && q.countdown == p.countdown
    ensures Inv(s, q)
  {
    hide TrackAged, TrackIdle, TrackShaped;
    if Idle(s, p) {
      assert Idle(s, q);
    } else {
      var d: nat, l: nat :| Aged(s, p, d, l);
      assert Aged(s, q, d, l);
    }
  }
}
