/**
 * AudioPitchShift at every ratio: the dry signal is the input of N frames before, and the wet one the overlapping sum
 * of what the last eight hops contributed, each computed from the last N frames of input.
 */
module PitchOverlaps {
  import AudioFrames
  import DelayLines
  import opened PitchShifters
  import opened PitchUnity
  import opened Ramps
  import opened Reals

  /** What the contributions of a channel, the newest last, add up to at position k of the newest window. */
  ghost function Overlapping(ks: seq<seq<real>>, hop: nat, k: nat): real
    requires hop > 0 && forall i :: 0 <= i < |ks| ==> |ks[i]| == 8 * hop
    decreases |ks|
  {
    if ks == [] || k >= 8 * hop then 0.0 else ks[|ks| - 1][k] + Overlapping(ks[..|ks| - 1], hop, k + hop)
  }

  /** The contribution of channel c to every hop. */
  ghost function OfChannel(hops: seq<seq<seq<real>>>, channels: nat, hop: nat, c: nat): (ks: seq<seq<real>>)
    requires AllShaped(hops, channels, hop) && c < channels
    ensures |ks| == |hops| && forall h :: 0 <= h < |hops| ==> ks[h] == hops[h][c] && |ks[h]| == 8 * hop
  {
    seq(|hops|, h requires 0 <= h < |hops| => hops[h][c])
  }

  ghost predicate AllShaped(hops: seq<seq<seq<real>>>, channels: nat, hop: nat) {
    forall h :: 0 <= h < |hops| ==> Shaped(hops[h], channels, 8 * hop)
  }

  /** The buffers of a channel that has taken in x and had these contributions. */
  ghost predicate TrackHolds(tr: Track, hop: nat, fill: nat, dryPos: nat, x: seq<seq<real>>, c: nat, ks: seq<seq<real>>)
    requires hop > 0 && forall i :: 0 <= i < |ks| ==> |ks[i]| == 8 * hop
  {
    && TrackShaped(tr, hop) && InputHolds(tr.input, hop, fill, x, c) && DryHolds(tr.dry, dryPos, x, c)
    && (forall k :: 0 <= k < 8 * hop ==> tr.accum[k] == Overlapping(ks, hop, k + hop))
    && (forall k :: 0 <= k < hop ==> tr.emit[k] == Overlapping(ks, hop, k))
  }

  ghost predicate TracksHold(s: Setup, tracks: seq<Track>, fill: nat, dryPos: nat, x: seq<seq<real>>,
                             hops: seq<seq<seq<real>>>) {
    && s.hop > 0 && |tracks| == s.channels && AllShaped(hops, s.channels, s.hop)
    && forall c :: 0 <= c < s.channels ==>
         TrackHolds(tracks[c], s.hop, fill, dryPos, x, c, OfChannel(hops, s.channels, s.hop, c))
  }

  ghost predicate Holding(s: Setup, p: Shifter, x: seq<seq<real>>, hops: seq<seq<seq<real>>>) {
    StateShaped(s, p) && TracksHold(s, p.tracks, p.fill, p.dryPos, x, hops)
  }

  lemma FedHolds(tr: Track, hop: nat, fill: nat, dryPos: nat, x: seq<seq<real>>, y: seq<real>, c: nat,
                 ks: seq<seq<real>>)
    requires hop > 0 && forall i :: 0 <= i < |ks| ==> |ks[i]| == 8 * hop
    requires TrackHolds(tr, hop, fill, dryPos, x, c, ks) && fill < hop && dryPos < 8 * hop && c < |y|
    ensures TrackHolds(Fed(tr, hop, fill, dryPos, y[c]), hop, fill + 1, DelayLines.NextSlot(dryPos, 8 * hop), x + [y],
                       c, ks)
  {
    PitchUnity.InputFed(tr.input, hop, fill, x, y, c);
    DryFed(tr.dry, dryPos, x, y, c);
    hide InputHolds, DryHolds, Overlapping;
  }

  lemma AllFed(s: Setup, p: Shifter, x: seq<seq<real>>, y: seq<real>, hops: seq<seq<seq<real>>>)
    requires Holding(s, p, x, hops) && |y| == s.channels
    ensures TracksHold(s, FedAll(s, p, y), p.fill + 1, DelayLines.NextSlot(p.dryPos, 8 * s.hop), x + [y], hops)
  {
    hide TrackHolds, Fed;
    forall c | 0 <= c < s.channels
      ensures TrackHolds(FedAll(s, p, y)[c], s.hop, p.fill + 1, DelayLines.NextSlot(p.dryPos, 8 * s.hop), x + [y], c,
                         OfChannel(hops, s.channels, s.hop, c))
    {
      FedHolds(p.tracks[c], s.hop, p.fill, p.dryPos, x, y, c, OfChannel(hops, s.channels, s.hop, c));
    }
  }

  /** A hop adds its contribution to the overlapping ones, emits the first part of the sum, and moves the window on. */
  lemma HopHolds(tr: Track, hop: nat, dryPos: nat, x: seq<seq<real>>, c: nat, ks: seq<seq<real>>, k0: seq<real>)
    requires hop > 0 && |k0| == 8 * hop && forall i :: 0 <= i < |ks| ==> |ks[i]| == 8 * hop
    requires TrackHolds(tr, hop, hop, dryPos, x, c, ks)
    ensures TrackHolds(Hopped(tr.(accum := Added(tr.accum, k0)), hop), hop, 0, dryPos, x, c, ks + [k0])
  {
    hide At, DryHolds;
    var added, all := Added(tr.accum, k0), ks + [k0];
    assert all[..|all| - 1] == ks;
    forall k | 0 <= k < 8 * hop
      ensures added[k] == Overlapping(all, hop, k)
    {
    }
    hide Overlapping;
    var after := Hopped(tr.(accum := added), hop);
    assert InputHolds(after.input, hop, 0, x, c);
    forall k | 0 <= k < 8 * hop
      ensures after.accum[k] == Overlapping(all, hop, k + hop)
    {
      if k < 7 * hop {
        assert after.accum[k] == added[k + hop];
      } else {
        PastEnd(all, hop, k + hop);
      }
    }
  }

  lemma PastEnd(ks: seq<seq<real>>, hop: nat, k: nat)
    requires hop > 0 && k >= 8 * hop && forall i :: 0 <= i < |ks| ==> |ks[i]| == 8 * hop
    ensures Overlapping(ks, hop, k) == 0.0
  {
  }

  /** What the transform makes of the windows of a whole hop. */
  ghost function HopOf(s: Setup, p: Shifter): (k: seq<seq<real>>)
    requires PitchShifters.Sound(s)
    ensures Shaped(k, s.channels, 8 * s.hop)
  {
    s.transform(Inputs(p.tracks), p.previous, p.rotation, p.ratio).contribution
  }

  lemma HopFrameHolds(s: Setup, p: Shifter, x: seq<seq<real>>, hops: seq<seq<seq<real>>>)
    requires PitchShifters.Sound(s) && TracksShaped(p.tracks, s.channels, s.hop)
    requires TracksHold(s, p.tracks, s.hop, p.dryPos, x, hops)
    ensures TracksHold(s, HopFrame(s, p, true).tracks, 0, p.dryPos, x, hops + [HopOf(s, p)])
  {
    hide TrackHolds, Hopped, Added;
    var all := hops + [HopOf(s, p)];
    forall c | 0 <= c < s.channels
      ensures TrackHolds(HopFrame(s, p, true).tracks[c], s.hop, 0, p.dryPos, x, c, OfChannel(all, s.channels, s.hop, c))
    {
      var ks := OfChannel(hops, s.channels, s.hop, c);
      assert OfChannel(all, s.channels, s.hop, c) == ks + [HopOf(s, p)[c]];
      HopHolds(p.tracks[c], s.hop, p.dryPos, x, c, ks, HopOf(s, p)[c]);
    }
  }

  /** The shifter as a frame y has been taken in and before a hop that it may complete. */
  ghost function TakenIn(s: Setup, p: Shifter, y: seq<real>): (q: Shifter)
    requires StateShaped(s, p) && |y| == s.channels
  {
    var entered := Entered(y);
    p.(tracks := FedAll(s, p, entered), countdown := NextCountdown(s, p, AudioFrames.InputSet(entered)),
       dryPos := DelayLines.NextSlot(p.dryPos, 8 * s.hop), mix := Moved(p.mix, p.left), trim := Moved(p.trim, p.left),
       left := Countdown(p.left), fill := 0)
  }

  lemma EvaluatedHolds(s: Setup, p: Shifter, x: seq<seq<real>>, y: seq<real>, hops: seq<seq<seq<real>>>)
    requires PitchShifters.Sound(s) && Holding(s, p, x, hops) && |y| == s.channels
    ensures Holding(s, FrameWith(s, p, y, true), x + [Entered(y)],
                    if p.fill + 1 == s.hop then hops + [HopOf(s, TakenIn(s, p, y))] else hops)
  {
    hide TracksHold, FedAll, HopFrame, PitchShifters.Sound, HopOf;
    AllFed(s, p, x, Entered(y), hops);
    if p.fill + 1 == s.hop {
      HopFrameHolds(s, TakenIn(s, p, y), x + [Entered(y)], hops);
      HopKeeps(s, TakenIn(s, p, y));
    }
  }

  /** The contributions of the hops that a run completes. */
  ghost function HopsOf(s: Setup, p: Shifter, xs: seq<seq<real>>): (hops: seq<seq<seq<real>>>)
    requires PitchShifters.Sound(s) && StateShaped(s, p) && forall i :: 0 <= i < |xs| ==> |xs[i]| == s.channels
    ensures AllShaped(hops, s.channels, s.hop)
    decreases |xs|
  {
    if xs == [] then []
    else
      var q := FramesAfter(s, p, xs[..|xs| - 1]);
      HopsOf(s, p, xs[..|xs| - 1])
      + (if q.fill + 1 == s.hop then [HopOf(s, TakenIn(s, q, xs[|xs| - 1]))] else [])
  }

  lemma {:induction false} RunHolds(s: Setup, p: Shifter, xs: seq<seq<real>>)
    requires PitchShifters.Sound(s) && Inv(s, p) && StateShaped(s, p)
    requires Holding(s, p, [], []) && forall i :: 0 <= i < |xs| ==> |xs[i]| == s.channels
    ensures Inv(s, FramesAfter(s, p, xs))
    ensures Holding(s, FramesAfter(s, p, xs), AllEntered(xs), HopsOf(s, p, xs))
    decreases |xs|
  {
    hide PitchShifters.Sound, Inv, Holding, Frame, FrameWith, Entered, LiveOutput, HopOf, TakenIn;
    if xs == [] {
      assert AllEntered(xs) == [];
    } else {
      var before, y := xs[..|xs| - 1], xs[|xs| - 1];
      RunHolds(s, p, before);
      var q := FramesAfter(s, p, before);
      EvaluatedHolds(s, q, AllEntered(before), y, HopsOf(s, p, before));
      SkippingIsExact(s, q, y);
      FrameKeeps(s, q, y);
      assert AllEntered(xs) == AllEntered(before) + [Entered(y)];
      assert HopsOf(s, p, before) + [] == HopsOf(s, p, before);
    }
  }

  lemma IdleHolds(s: Setup, p: Shifter)
    requires Idle(s, p)
    ensures Holding(s, p, [], [])
  {
    forall c | 0 <= c < s.channels
      ensures TrackHolds(p.tracks[c], s.hop, p.fill, p.dryPos, [], c, OfChannel([], s.channels, s.hop, c))
    {
      assert TrackIdle(p.tracks[c]);
    }
  }

  /** A blend: t times the one signal at m = 0, the other at m = 1, and on the line between. */
  ghost predicate Blended(out: real, m: real, t: real, dry: real, wet: real) {
    && (m == 0.0 ==> out == t * dry) && (m == 1.0 ==> out == t * wet)
    && out == t * (dry + m * (wet - dry))
  }

  lemma BlendIs(m: real, t: real, dry: real, wet: real)
    ensures Blended(Blend(m, t, dry, wet), m, t, dry, wet)
  {
    assert (1.0 - m) * dry + m * wet == dry + m * (wet - dry);
  }

  /**
   * What is heard over every run from silent buffers, at every ratio: the mix of the input of N frames before and of
   * the overlapping contributions, under the trim.
   */
  lemma OutputMixes(s: Setup, p: Shifter, xs: seq<seq<real>>, y: seq<real>, c: nat)
    requires PitchShifters.Sound(s) && Idle(s, p) && forall i :: 0 <= i < |xs| ==> |xs[i]| == s.channels
    requires |y| == s.channels && c < s.channels && StateShaped(s, p) && s.hop > 0
    ensures var q := FramesAfter(s, p, xs);
            var dry := if |xs| < 8 * s.hop then 0.0 else Entered(xs[|xs| - 8 * s.hop])[c];
            var wet := Overlapping(OfChannel(HopsOf(s, p, xs), s.channels, s.hop, c), s.hop, q.fill);
            Blended(Output(s, q, y)[c], q.mix.now, q.trim.now, dry, wet)
  {
    hide PitchShifters.Sound, Idle, FramesAfter, Output, Inv, HopsOf, Overlapping, Entered, Blend, Blended;
    IdleHolds(s, p);
    IdleShaped(s, p);
    RunHolds(s, p, xs);
    var q := FramesAfter(s, p, xs);
    SkippingIsExact(s, q, y);
    var tr, ks := q.tracks[c], OfChannel(HopsOf(s, p, xs), s.channels, s.hop, c);
    assert TrackHolds(tr, s.hop, q.fill, q.dryPos, AllEntered(xs), c, ks);
    assert DelayLines.Slot(q.dryPos, 8 * s.hop, 8 * s.hop) == q.dryPos;
    BlendIs(q.mix.now, q.trim.now, tr.dry[q.dryPos], tr.emit[q.fill]);
  }

  /** The windows of a hop are the last N frames of input. */
  lemma WindowIsInput(s: Setup, p: Shifter, xs: seq<seq<real>>, y: seq<real>, c: nat, k: nat)
    requires PitchShifters.Sound(s) && Idle(s, p) && forall i :: 0 <= i < |xs| ==> |xs[i]| == s.channels
    requires |y| == s.channels && c < s.channels && k < 8 * s.hop && StateShaped(s, p)
    requires FramesAfter(s, p, xs).fill + 1 == s.hop
    ensures var t := TakenIn(s, FramesAfter(s, p, xs), y);
            && |t.tracks| == s.channels && |t.tracks[c].input| == 8 * s.hop
            && t.tracks[c].input[k] == At(AllEntered(xs) + [Entered(y)], |xs| + 1 - 8 * s.hop + k, c)
  {
    hide PitchShifters.Sound, Idle, FramesAfter, Inv, HopsOf, Overlapping, Entered, At;
    IdleHolds(s, p);
    IdleShaped(s, p);
    RunHolds(s, p, xs);
    var q := FramesAfter(s, p, xs);
    AllFed(s, q, AllEntered(xs), Entered(y), HopsOf(s, p, xs));
    assert TrackHolds(TakenIn(s, q, y).tracks[c], s.hop, s.hop, DelayLines.NextSlot(q.dryPos, 8 * s.hop),
                      AllEntered(xs) + [Entered(y)], c, OfChannel(HopsOf(s, p, xs), s.channels, s.hop, c));
  }
}
