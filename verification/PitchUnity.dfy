/**
 * AudioPitchShift at zero semitones: if a window that is not rotated comes back as itself under a gain whose overlaps
 * sum to one, the wet signal, and so every mix of it, is the input delayed by exactly N frames.
 */
module PitchUnity {
  import AudioFrames
  import DelayLines
  import opened PitchShifters
  import opened Ramps
  import opened Reals

  /** Sample i of a channel; silence before the first frame. */
  ghost function At(x: seq<seq<real>>, i: int, c: nat): real {
    if 0 <= i < |x| && c < |x[i]| then x[i][c] else 0.0
  }

  /** The gains that a sample at position j of a window has in this window and in those that follow. */
  ghost function Overlap(g: seq<real>, hop: nat, j: nat): real
    requires hop > 0
    decreases |g| - j
  {
    if j >= |g| then 0.0 else g[j] + Overlap(g, hop, j + hop)
  }

  /** The overlaps of every position sum to one. */
  ghost predicate Complete(g: seq<real>, hop: nat)
    requires hop > 0
  {
    |g| == 8 * hop && forall k :: 0 <= k < hop ==> Overlap(g, hop, k) == 1.0
  }

  /** A window comes back under the gain, and rotations stay zero. */
  ghost predicate Returned(s: Setup, g: seq<real>, inputs: seq<seq<real>>, a: Analysis) {
    && Shaped(inputs, s.channels, |g|) && Shaped(a.contribution, s.channels, |g|)
    && (forall c, k :: 0 <= c < s.channels && 0 <= k < |g| ==> a.contribution[c][k] == Mul(g[k], inputs[c][k]))
    && Zero(a.rotation) && |a.rotation| == |s.silent.rotation|
  }

  ghost predicate Faithful(s: Setup, g: seq<real>) {
    && Zero(s.silent.rotation)
    && forall i, p, r :: Shaped(i, s.channels, |g|) && Zero(r) && |r| == |s.silent.rotation| ==>
                           Returned(s, g, i, s.transform(i, p, r, 1.0))
  }

  // ---------------------------------------------------------------- the buffers of a channel

  ghost predicate InputHolds(input: seq<real>, hop: nat, fill: nat, x: seq<seq<real>>, c: nat) {
    |input| == 8 * hop && forall k :: 0 <= k < 7 * hop + fill && k < 8 * hop ==>
        input[k] == At(x, |x| - 7 * hop - fill + k, c)
  }

  ghost predicate AccumHolds(accum: seq<real>, hop: nat, fill: nat, x: seq<seq<real>>, c: nat, g: seq<real>)
    requires hop > 0
  {
    && |accum| == 8 * hop
    && (forall k :: 0 <= k < 7 * hop ==> accum[k] == Mul(Overlap(g, hop, k + hop), At(x, |x| - fill - 7 * hop + k, c)))
    && (forall k :: 7 * hop <= k < 8 * hop ==> accum[k] == 0.0)
  }

  ghost predicate EmitHolds(emit: seq<real>, hop: nat, fill: nat, x: seq<seq<real>>, c: nat) {
    |emit| == hop && forall k :: 0 <= k < hop ==> emit[k] == At(x, |x| - fill - 8 * hop + k, c)
  }

  ghost predicate DryHolds(dry: seq<real>, dryPos: nat, x: seq<seq<real>>, c: nat) {
    dryPos < |dry| && forall d :: 1 <= d <= |dry| ==> dry[DelayLines.Slot(dryPos, d, |dry|)] == At(x, |x| - d, c)
  }

  ghost predicate TrackDelays(tr: Track, hop: nat, fill: nat, dryPos: nat, x: seq<seq<real>>, c: nat, g: seq<real>) {
    && TrackShaped(tr, hop) && hop > 0 && fill <= hop
    && InputHolds(tr.input, hop, fill, x, c) && AccumHolds(tr.accum, hop, fill, x, c, g)
    && EmitHolds(tr.emit, hop, fill, x, c) && DryHolds(tr.dry, dryPos, x, c)
  }

  lemma InputFed(input: seq<real>, hop: nat, fill: nat, x: seq<seq<real>>, y: seq<real>, c: nat)
    requires InputHolds(input, hop, fill, x, c) && fill < hop && c < |y|
    ensures InputHolds(input[7 * hop + fill := y[c]], hop, fill + 1, x + [y], c)
  {
  }

  lemma DryFed(dry: seq<real>, dryPos: nat, x: seq<seq<real>>, y: seq<real>, c: nat)
    requires DryHolds(dry, dryPos, x, c) && c < |y|
    ensures DryHolds(dry[dryPos := y[c]], DelayLines.NextSlot(dryPos, |dry|), x + [y], c)
  {
    var n, next := |dry|, DelayLines.NextSlot(dryPos, |dry|);
    forall d | 1 <= d <= n
      ensures dry[dryPos := y[c]][DelayLines.Slot(next, d, n)] == At(x + [y], |x| + 1 - d, c)
    {
      if d > 1 {
        assert DelayLines.Slot(next, d, n) == DelayLines.Slot(dryPos, d - 1, n) != dryPos;
      }
    }
  }

  /** A frame joins the input window and the delay; what is accumulated and emitted is of earlier frames. */
  lemma FedDelays(tr: Track, hop: nat, fill: nat, dryPos: nat, x: seq<seq<real>>, y: seq<real>, c: nat, g: seq<real>)
    requires TrackDelays(tr, hop, fill, dryPos, x, c, g) && fill < hop && dryPos < 8 * hop && c < |y|
    ensures TrackDelays(Fed(tr, hop, fill, dryPos, y[c]), hop, fill + 1, DelayLines.NextSlot(dryPos, 8 * hop), x + [y],
                        c, g)
  {
    InputFed(tr.input, hop, fill, x, y, c);
    DryFed(tr.dry, dryPos, x, y, c);
    hide InputHolds, DryHolds, Overlap;
  }

  lemma OverlapUnfolds(g: seq<real>, hop: nat, j: nat)
    requires hop > 0
    ensures j < |g| ==> Overlap(g, hop, j) == g[j] + Overlap(g, hop, j + hop)
    ensures j >= |g| ==> Overlap(g, hop, j) == 0.0
  {
  }

  /** What the accumulator holds once a whole window has been added to it. */
  lemma Accumulates(accum: seq<real>, input: seq<real>, contribution: seq<real>, hop: nat, x: seq<seq<real>>, c: nat,
                    g: seq<real>,
                    k: nat)
    requires hop > 0 && |g| == |contribution| == 8 * hop && AccumHolds(accum, hop, hop, x, c, g)
    requires InputHolds(input, hop, hop, x, c) && k < 8 * hop && contribution[k] == Mul(g[k], input[k])
    ensures accum[k] + contribution[k] == Mul(Overlap(g, hop, k), At(x, |x| - 8 * hop + k, c))
  {
    hide Mul, At, Overlap;
    OverlapUnfolds(g, hop, k);
    OverlapUnfolds(g, hop, k + hop);
    var v := At(x, |x| - 8 * hop + k, c);
    assert input[k] == v;
    MulAdds(v, g[k], Overlap(g, hop, k + hop));
    MulIs(0.0, v);
  }

  /** A hop emits samples whose overlaps are complete, and shifts the rest. */
  lemma HopDelays(tr: Track, hop: nat, dryPos: nat, x: seq<seq<real>>, c: nat, g: seq<real>, contribution: seq<real>)
    requires TrackDelays(tr, hop, hop, dryPos, x, c, g) && hop > 0 && Complete(g, hop) && |contribution| == 8 * hop
    requires forall k :: 0 <= k < 8 * hop ==> contribution[k] == Mul(g[k], tr.input[k])
    ensures TrackDelays(Hopped(tr.(accum := Added(tr.accum, contribution)), hop), hop, 0, dryPos, x, c, g)
  {
    hide Mul, At, Overlap, DryHolds;
    var added := Added(tr.accum, contribution);
    forall k | 0 <= k < 8 * hop
      ensures added[k] == Mul(Overlap(g, hop, k), At(x, |x| - 8 * hop + k, c))
    {
      Accumulates(tr.accum, tr.input, contribution, hop, x, c, g, k);
    }
    forall k | 0 <= k < hop
      ensures added[k] == At(x, |x| - 8 * hop + k, c)
    {
      MulLaws(At(x, |x| - 8 * hop + k, c), 1.0, 1.0);
    }
    var after := Hopped(tr.(accum := added), hop);
    assert EmitHolds(after.emit, hop, 0, x, c);
    assert InputHolds(after.input, hop, 0, x, c);
    forall k | 0 <= k < 7 * hop
      ensures after.accum[k] == Mul(Overlap(g, hop, k + hop), At(x, |x| - 7 * hop + k, c))
    {
      assert after.accum[k] == added[k + hop];
    }
  }

  // ---------------------------------------------------------------- all channels

  ghost predicate TracksDelay(s: Setup, tracks: seq<Track>, fill: nat, dryPos: nat, x: seq<seq<real>>, g: seq<real>) {
    |tracks| == s.channels && forall c :: 0 <= c < s.channels ==> TrackDelays(tracks[c], s.hop, fill, dryPos, x, c, g)
  }

  /** The state of a shifter at zero semitones that has taken in x since its buffers were silent. */
  ghost predicate Delaying(s: Setup, p: Shifter, x: seq<seq<real>>, g: seq<real>) {
    && StateShaped(s, p) && p.ratio == 1.0 && Zero(p.rotation) && |p.rotation| == |s.silent.rotation|
    && TracksDelay(s, p.tracks, p.fill, p.dryPos, x, g)
  }

  lemma FedAllDelays(s: Setup, p: Shifter, x: seq<seq<real>>, y: seq<real>, g: seq<real>)
    requires Delaying(s, p, x, g) && |y| == s.channels
    ensures TracksDelay(s, FedAll(s, p, y), p.fill + 1, DelayLines.NextSlot(p.dryPos, 8 * s.hop), x + [y], g)
  {
    forall c | 0 <= c < s.channels
      ensures TrackDelays(FedAll(s, p, y)[c], s.hop, p.fill + 1, DelayLines.NextSlot(p.dryPos, 8 * s.hop), x + [y], c,
                          g)
    {
      FedDelays(p.tracks[c], s.hop, p.fill, p.dryPos, x, y, c, g);
    }
  }

  lemma HopFrameDelays(s: Setup, p: Shifter, x: seq<seq<real>>, g: seq<real>)
    requires PitchShifters.Sound(s) && Faithful(s, g) && Complete(g, s.hop) && TracksShaped(p.tracks, s.channels, s.hop)
    requires p.ratio == 1.0 && Zero(p.rotation) && |p.rotation| == |s.silent.rotation|
    requires TracksDelay(s, p.tracks, s.hop, p.dryPos, x, g)
    ensures var q := HopFrame(s, p, true);
            && Zero(q.rotation) && |q.rotation| == |s.silent.rotation|
            && TracksDelay(s, q.tracks, 0, p.dryPos, x, g)
  {
    hide TrackDelays, Overlap, Zero, Hopped, Added;
    var inputs := Inputs(p.tracks);
    var a := s.transform(inputs, p.previous, p.rotation, 1.0);
    assert Shaped(inputs, s.channels, 8 * s.hop);
    assert Returned(s, g, inputs, a);
    forall c | 0 <= c < s.channels
      ensures TrackDelays(HopFrame(s, p, true).tracks[c], s.hop, 0, p.dryPos, x, c, g)
    {
      HopDelays(p.tracks[c], s.hop, p.dryPos, x, c, g, a.contribution[c]);
    }
  }

  /** A frame whose transforms are evaluated. */
  lemma EvaluatedDelays(s: Setup, p: Shifter, x: seq<seq<real>>, y: seq<real>, g: seq<real>)
    requires PitchShifters.Sound(s) && Faithful(s, g) && Complete(g, s.hop) && Delaying(s, p, x, g) && |y| == s.channels
    ensures Delaying(s, FrameWith(s, p, y, true), x + [Entered(y)], g)
  {
    hide TracksDelay, Faithful, Complete, Zero, FedAll, HopFrame, PitchShifters.Sound;
    var entered := Entered(y);
    FedAllDelays(s, p, x, entered, g);
    var moved := p.(tracks := FedAll(s, p, entered), countdown := NextCountdown(s, p, AudioFrames.InputSet(entered)),
                    dryPos := DelayLines.NextSlot(p.dryPos, 8 * s.hop), mix := Moved(p.mix, p.left),
                    trim := Moved(p.trim, p.left), left := Countdown(p.left));
    if p.fill + 1 == s.hop {
      HopFrameDelays(s, moved.(fill := 0), x + [entered], g);
      HopKeeps(s, moved.(fill := 0));
      HopRatio(s, moved.(fill := 0));
    }
  }

  lemma HopRatio(s: Setup, p: Shifter)
    requires PitchShifters.Sound(s) && TracksShaped(p.tracks, s.channels, s.hop)
    ensures HopFrame(s, p, true).ratio == p.ratio
  {
    hide Added, Hopped;
  }

  /** Wet and dry agree: both are the input of N frames before. */
  lemma DelayedOutput(s: Setup, p: Shifter, x: seq<seq<real>>, g: seq<real>, c: nat)
    requires Delaying(s, p, x, g) && c < s.channels
    ensures p.tracks[c].emit[p.fill] == p.tracks[c].dry[p.dryPos] == At(x, |x| - 8 * s.hop, c)
    ensures LiveOutput(s, p)[c] == p.trim.now * At(x, |x| - 8 * s.hop, c)
  {
    var tr := p.tracks[c];
    assert TrackDelays(tr, s.hop, p.fill, p.dryPos, x, c, g);
    assert DelayLines.Slot(p.dryPos, 8 * s.hop, 8 * s.hop) == p.dryPos;
    SameBlend(p.mix.now, p.trim.now, At(x, |x| - 8 * s.hop, c));
  }

  lemma SameBlend(m: real, t: real, v: real)
    ensures Blend(m, t, v, v) == t * v
  {
    assert (1.0 - m) * v + m * v == v;
  }

  // ---------------------------------------------------------------- whole runs

  ghost function AllEntered(xs: seq<seq<real>>): (r: seq<seq<real>>)
    ensures |r| == |xs| && forall i :: 0 <= i < |xs| ==> r[i] == Entered(xs[i])
  {
    seq(|xs|, i requires 0 <= i < |xs| => Entered(xs[i]))
  }

  lemma {:induction false} RunDelays(s: Setup, p: Shifter, xs: seq<seq<real>>, g: seq<real>)
    requires PitchShifters.Sound(s) && Inv(s, p) && StateShaped(s, p)
    requires forall i :: 0 <= i < |xs| ==> |xs[i]| == s.channels
    requires Faithful(s, g) && Complete(g, s.hop) && Delaying(s, p, [], g)
    ensures Inv(s, FramesAfter(s, p, xs)) && Delaying(s, FramesAfter(s, p, xs), AllEntered(xs), g)
    decreases |xs|
  {
    hide PitchShifters.Sound, Inv, Faithful, Complete, Delaying, Frame, FrameWith, Entered, LiveOutput;
    if xs == [] {
      assert AllEntered(xs) == [];
    } else {
      var before, y := xs[..|xs| - 1], xs[|xs| - 1];
      RunDelays(s, p, before, g);
      var q := FramesAfter(s, p, before);
      EvaluatedDelays(s, q, AllEntered(before), y, g);
      SkippingIsExact(s, q, y);
      FrameKeeps(s, q, y);
      assert AllEntered(xs) == AllEntered(before) + [Entered(y)];
    }
  }

  /** Silent buffers hold the N frames of silence before the first one. */
  lemma IdleDelays(s: Setup, p: Shifter, g: seq<real>)
    requires Idle(s, p) && p.ratio == 1.0 && Zero(p.rotation) && |p.rotation| == |s.silent.rotation|
    ensures Delaying(s, p, [], g)
  {
    hide Overlap;
    forall c | 0 <= c < s.channels
      ensures TrackDelays(p.tracks[c], s.hop, p.fill, p.dryPos, [], c, g)
    {
      assert TrackIdle(p.tracks[c]);
    }
  }

  /**
   * At zero semitones, from silent buffers and whatever the mix and its ramp, every output frame is the input frame of
   * exactly N frames before, under the trim: the wet path and the dry path agree sample by sample.
   */
  lemma UnityIsDelay(s: Setup, p: Shifter, xs: seq<seq<real>>, y: seq<real>, g: seq<real>, c: nat)
    requires PitchShifters.Sound(s) && Idle(s, p) && forall i :: 0 <= i < |xs| ==> |xs[i]| == s.channels
    requires |y| == s.channels && c < s.channels
    requires Faithful(s, g) && Complete(g, s.hop)
    requires p.ratio == 1.0 && Zero(p.rotation) && |p.rotation| == |s.silent.rotation|
    ensures var q := FramesAfter(s, p, xs);
            Output(s, q, y)[c] ==
            q.trim.now * if |xs| < 8 * s.hop then 0.0 else Entered(xs[|xs| - 8 * s.hop])[c]
  {
    hide PitchShifters.Sound, Faithful, Complete, Delaying, Idle, FramesAfter, LiveOutput, Output, Inv, StateShaped,
         Zero, Entered;
    IdleDelays(s, p, g);
    IdleShaped(s, p);
    RunDelays(s, p, xs, g);
    var q := FramesAfter(s, p, xs);
    SkippingIsExact(s, q, y);
    DelayedOutput(s, q, AllEntered(xs), g, c);
  }

  lemma IdleShaped(s: Setup, p: Shifter)
    requires Idle(s, p)
    ensures StateShaped(s, p) && Inv(s, p)
  {
  }
}
