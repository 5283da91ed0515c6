/**
 * Metering around an effect's processor, from extAudioEffect::process(): buffers are cut at the ends of meter
 * intervals, and what is published does not depend on how the stream is cut into buffers.
 */
module Meters {
  import opened Reals

  type Samples = seq<real>

  /**
   * A processor whose output does not depend on the partition: one frame after the other, each with the reduction
   * that it applied.  gain_reduction() is the largest of a call, and meter_reset()
   * restarts what its own values sum up.
   */
  datatype Processor<!P> = Processor(step: (P, Samples) -> (P, Samples, real), values: P -> seq<real>, restart: P -> P)

  datatype Snapshot = Snapshot(sequence: nat, position: nat, interval: nat, inputs: seq<real>, outputs: seq<real>,
                               reduction: real, values: seq<real>)

  /** The accumulators of an effect, and the snapshots that it has published. */
  datatype Meter = Meter(frames: nat, position: nat, inputs: seq<real>, outputs: seq<real>, reduction: real,
                         published: seq<Snapshot>)

  /** 50 ms, rounded up to whole frames. */
  function IntervalOf(rate: int): (i: nat)
    requires rate >= 2
    ensures i > 0
  {
    AtLeastOne((rate + 19) / 20)
  }

  function AtLeastOne(x: int): (n: nat)
    ensures n >= 1
  {
    if x < 1 then 1 else x
  }

  /** The interval is the ceiling of rate / 20. */
  lemma IntervalIsCeiling(rate: int)
    requires rate >= 2
    ensures 20 * IntervalOf(rate) >= rate && 20 * (IntervalOf(rate) - 1) < rate
  {
  }

  // ---------------------------------------------------------------- one frame after the other

  function Louder(peaks: seq<real>, x: Samples): (r: seq<real>)
    ensures |r| == |peaks|
    ensures forall c :: 0 <= c < |peaks| ==> r[c] == if c < |x| then Max(peaks[c], Abs(x[c])) else peaks[c]
  {
    seq(|peaks|, c requires 0 <= c < |peaks| => if c < |x| then Max(peaks[c], Abs(x[c])) else peaks[c])
  }

  datatype State<P> = State(meter: Meter, processor: P)

  /** publish_meter(): the accumulators become a snapshot, and start again. */
  function Publish<P>(proc: Processor<P>, s: State<P>): State<P> {
    var m := s.meter;
    var snapshot := Snapshot(|m.published| + 1, m.position, m.frames, m.inputs, m.outputs, m.reduction,
                             proc.values(s.processor));
    State(Meter(0, m.position, Zeros(|m.inputs|), Zeros(|m.outputs|), 0.0, m.published + [snapshot]),
          proc.restart(s.processor))
  }

  function Measured<P>(proc: Processor<P>, s: State<P>, x: Samples): State<P> {
    var r := proc.step(s.processor, x);
    var m := s.meter;
    State(Meter(m.frames + 1, m.position + 1, Louder(m.inputs, x), Louder(m.outputs, r.1), Max(m.reduction, r.2),
                m.published), r.0)
  }

  function Frame<P>(proc: Processor<P>, interval: nat, s: State<P>, x: Samples): State<P> {
    var after := Measured(proc, s, x);
    if after.meter.frames == interval then Publish(proc, after) else after
  }

  /** The stream, frame by frame. */
  function Stream<P>(proc: Processor<P>, interval: nat, s: State<P>, xs: seq<Samples>): State<P>
    decreases |xs|
  {
    if xs == [] then s else Frame(proc, interval, Stream(proc, interval, s, xs[..|xs| - 1]), xs[|xs| - 1])
  }

  function Output<P>(proc: Processor<P>, interval: nat, s: State<P>, xs: seq<Samples>, i: nat): Samples
    requires i < |xs|
  {
    proc.step(Stream(proc, interval, s, xs[..i]).processor, xs[i]).1
  }

  lemma {:induction false} StreamAppend<P>(proc: Processor<P>, interval: nat, s: State<P>, a: seq<Samples>,
                                           b: seq<Samples>)
    ensures Stream(proc, interval, s, a + b) == Stream(proc, interval, Stream(proc, interval, s, a), b)
    decreases |b|
  {
    hide Frame;
    if b == [] {
      assert a + b == a;
    } else {
      assert (a + b)[..|a + b| - 1] == a + b[..|b| - 1];
      StreamAppend(proc, interval, s, a, b[..|b| - 1]);
    }
  }

  function Joined(parts: seq<seq<Samples>>): seq<Samples> {
    if parts == [] then [] else Joined(parts[..|parts| - 1]) + parts[|parts| - 1]
  }

  // ---------------------------------------------------------------- intervals

  /** Snapshot k is number k + 1, covers exactly one interval, and ends at its multiple of the interval. */
  ghost predicate Regular(m: Meter, interval: nat) {
    && m.frames < interval && m.reduction >= 0.0
    && m.position == |m.published| * interval + m.frames
    && forall k :: 0 <= k < |m.published| ==>
         m.published[k].sequence == k + 1 && m.published[k].interval == interval
         && m.published[k].position == (k + 1) * interval
  }

  lemma FrameRegular<P>(proc: Processor<P>, interval: nat, s: State<P>, x: Samples)
    requires Regular(s.meter, interval)
    ensures Regular(Frame(proc, interval, s, x).meter, interval)
  {
    hide Louder;
    var n := |s.meter.published|;
    assert (n + 1) * interval == n * interval + interval;
  }

  lemma {:induction false} StreamRegular<P>(proc: Processor<P>, interval: nat, s: State<P>, xs: seq<Samples>)
    requires Regular(s.meter, interval)
    ensures Regular(Stream(proc, interval, s, xs).meter, interval)
    decreases |xs|
  {
    hide Frame, Regular;
    if xs == [] {
    } else {
      StreamRegular(proc, interval, s, xs[..|xs| - 1]);
      FrameRegular(proc, interval, Stream(proc, interval, s, xs[..|xs| - 1]), xs[|xs| - 1]);
    }
  }

  // ---------------------------------------------------------------- a chunk inside an interval

  datatype Result<P> = Result(processor: P, outs: seq<Samples>, reduction: real)

  /** One call of the processor. */
  function Processed<P>(proc: Processor<P>, p: P, xs: seq<Samples>): (r: Result<P>)
    ensures |r.outs| == |xs| && r.reduction >= 0.0
    decreases |xs|
  {
    if xs == [] then Result(p, [], 0.0)
    else
      var before := Processed(proc, p, xs[..|xs| - 1]);
      var r := proc.step(before.processor, xs[|xs| - 1]);
      Result(r.0, before.outs + [r.1], Max(before.reduction, r.2))
  }

  function PeaksOf(peaks: seq<real>, xs: seq<Samples>): (r: seq<real>)
    ensures |r| == |peaks|
    decreases |xs|
  {
    if xs == [] then peaks else Louder(PeaksOf(peaks, xs[..|xs| - 1]), xs[|xs| - 1])
  }

  /** The accumulators after a chunk, before any publication. */
  function Accumulated<P>(proc: Processor<P>, s: State<P>, xs: seq<Samples>): State<P> {
    var r, m := Processed(proc, s.processor, xs), s.meter;
    State(Meter(m.frames + |xs|, m.position + |xs|, PeaksOf(m.inputs, xs), PeaksOf(m.outputs, r.outs),
                Max(m.reduction, r.reduction), m.published), r.processor)
  }

  lemma AccumulatedNext<P>(proc: Processor<P>, s: State<P>, xs: seq<Samples>)
    requires xs != []
    ensures Accumulated(proc, s, xs) == Measured(proc, Accumulated(proc, s, xs[..|xs| - 1]), xs[|xs| - 1])
  {
    hide Louder;
    var before := Processed(proc, s.processor, xs[..|xs| - 1]);
    var outs := Processed(proc, s.processor, xs).outs;
    assert outs[..|outs| - 1] == before.outs;
  }

  /** A chunk that fits the interval is metered as its frames would be. */
  lemma {:induction false} ChunkIsStream<P>(proc: Processor<P>, interval: nat, s: State<P>, xs: seq<Samples>)
    requires s.meter.frames < interval && s.meter.frames + |xs| <= interval && s.meter.reduction >= 0.0
    ensures Stream(proc, interval, s, xs) == AfterChunk(proc, interval, s, xs)
    decreases |xs|
  {
    hide Publish, Measured, Louder;
    if xs == [] {
    } else {
      ChunkIsStream(proc, interval, s, xs[..|xs| - 1]);
      AccumulatedNext(proc, s, xs);
    }
  }

  /** Before its last frame, a chunk leaves the processor as its frames would. */
  lemma ChunkOutput<P>(proc: Processor<P>, interval: nat, s: State<P>, xs: seq<Samples>, j: nat)
    requires s.meter.frames < interval && s.meter.frames + |xs| <= interval && s.meter.reduction >= 0.0 && j < |xs|
    ensures Processed(proc, s.processor, xs).outs[j] == Output(proc, interval, s, xs, j)
  {
    hide Publish, Frame, PeaksOf, Louder;
    ChunkIsStream(proc, interval, s, xs[..j]);
    ProcessedAt(proc, s.processor, xs, j);
  }

  lemma {:induction false} ProcessedAt<P>(proc: Processor<P>, p: P, xs: seq<Samples>, j: nat)
    requires j < |xs|
    ensures Processed(proc, p, xs).outs[j] == proc.step(Processed(proc, p, xs[..j]).processor, xs[j]).1
    decreases |xs|
  {
    if j < |xs| - 1 {
      ProcessedAt(proc, p, xs[..|xs| - 1], j);
      assert xs[..|xs| - 1][..j] == xs[..j];
    }
  }

  /** The output of a frame does not depend on where its buffer starts. */
  lemma OutputShifts<P>(proc: Processor<P>, interval: nat, s: State<P>, input: seq<Samples>, at: nat, xs: seq<Samples>,
                        j: nat)
    requires at + |xs| <= |input| && xs == input[at..at + |xs|] && j < |xs|
    ensures Output(proc, interval, Stream(proc, interval, s, input[..at]), xs, j) ==
            Output(proc, interval, s, input, at + j)
  {
    hide Stream;
    StreamAppend(proc, interval, s, input[..at], xs[..j]);
    assert input[..at] + xs[..j] == input[..at + j];
  }

  // ---------------------------------------------------------------- calls of process()

  /** The state that a call leaves, and the frames that it makes of its buffer. */
  datatype Called<P> = Called(state: State<P>, outs: seq<Samples>)

  /** A chunk that ends no later than the interval is accumulated, and published at the end of the interval. */
  function AfterChunk<P>(proc: Processor<P>, interval: nat, s: State<P>, xs: seq<Samples>): (next: State<P>)
    requires s.meter.frames < interval && s.meter.frames + |xs| <= interval
    ensures next.meter.frames < interval && (s.meter.reduction >= 0.0 ==> next.meter.reduction >= 0.0)
  {
    var after := Accumulated(proc, s, xs);
    if after.meter.frames == interval then Publish(proc, after) else after
  }

  /** process(): chunks up to the end of the buffer or of the interval, each through the processor at once. */
  function ProcessCall<P>(proc: Processor<P>, interval: nat, s: State<P>, xs: seq<Samples>): (c: Called<P>)
    requires s.meter.frames < interval
    ensures c.state.meter.frames < interval
    decreases |xs|
  {
    if xs == [] then Called(s, [])
    else
      var left := interval - s.meter.frames;
      var count := if |xs| < left then |xs| else left;
      var next := AfterChunk(proc, interval, s, xs[..count]);
      var rest := ProcessCall(proc, interval, next, xs[count..]);
      Called(rest.state, Processed(proc, s.processor, xs[..count]).outs + rest.outs)
  }

  /** A call makes of its buffer, and leaves, what its frames would one by one. */
  lemma {:induction false} CallIsStream<P>(proc: Processor<P>, interval: nat, s: State<P>, xs: seq<Samples>)
    requires s.meter.frames < interval && s.meter.reduction >= 0.0
    ensures var c := ProcessCall(proc, interval, s, xs);
            && c.state == Stream(proc, interval, s, xs) && c.state.meter.reduction >= 0.0
            && c.outs == Outputs(proc, interval, s, xs, 0, |xs|)
    decreases |xs|
  {
    hide Output, Processed, AfterChunk, Stream;
    if xs == [] {
      StreamStarts(proc, interval, s, xs);
    } else {
      var left := interval - s.meter.frames;
      var count := if |xs| < left then |xs| else left;
      var chunk, rest := xs[..count], xs[count..];
      var next := AfterChunk(proc, interval, s, chunk);
      ChunkIsStream(proc, interval, s, chunk);
      StreamAppend(proc, interval, s, chunk, rest);
      assert chunk + rest == xs;
      CallIsStream(proc, interval, next, rest);
      OutputsJoin(proc, interval, s, xs, count, next);
    }
  }

  /** The outputs of a first chunk and of what follows it are those of the whole. */
  lemma OutputsJoin<P>(proc: Processor<P>, interval: nat, s: State<P>, xs: seq<Samples>, count: nat, next: State<P>)
    requires count <= |xs| && s.meter.frames + count <= interval && s.meter.frames < interval
    requires s.meter.reduction >= 0.0
    requires next == Stream(proc, interval, s, xs[..count])
    ensures Processed(proc, s.processor, xs[..count]).outs
            + Outputs(proc, interval, next, xs[count..], 0, |xs| - count) ==
            Outputs(proc, interval, s, xs, 0, |xs|)
  {
    hide Output, Processed, Stream;
    var chunk, rest := xs[..count], xs[count..];
    var outs := Processed(proc, s.processor, chunk).outs + Outputs(proc, interval, next, rest, 0, |rest|);
    forall j | 0 <= j < |xs|
      ensures outs[j] == Output(proc, interval, s, xs, j)
    {
      if j < count {
        ChunkOutput(proc, interval, s, chunk, j);
        SameOutput(proc, interval, s, chunk, xs, j);
      } else {
        OutputShifts(proc, interval, s, xs, count, rest, j - count);
      }
    }
  }

  lemma SameOutput<P>(proc: Processor<P>, interval: nat, s: State<P>, xs: seq<Samples>, ys: seq<Samples>, j: nat)
    requires j < |xs| <= |ys| && xs == ys[..|xs|]
    ensures Output(proc, interval, s, xs, j) == Output(proc, interval, s, ys, j)
  {
    assert xs[..j] == ys[..j];
  }

  /** Successive calls. */
  function Calls<P>(proc: Processor<P>, interval: nat, s: State<P>, parts: seq<seq<Samples>>): (c: Called<P>)
    requires s.meter.frames < interval
    ensures c.state.meter.frames < interval
    decreases |parts|
  {
    if parts == [] then Called(s, [])
    else
      var before := Calls(proc, interval, s, parts[..|parts| - 1]);
      var last := ProcessCall(proc, interval, before.state, parts[|parts| - 1]);
      Called(last.state, before.outs + last.outs)
  }

  lemma {:induction false} CallsAreStream<P>(proc: Processor<P>, interval: nat, s: State<P>, parts: seq<seq<Samples>>)
    requires s.meter.frames < interval && s.meter.reduction >= 0.0
    ensures var c, all := Calls(proc, interval, s, parts), Joined(parts);
            && c.state == Stream(proc, interval, s, all) && c.state.meter.reduction >= 0.0
            && c.outs == Outputs(proc, interval, s, all, 0, |all|)
    decreases |parts|
  {
    hide Output, Stream, ProcessCall;
    if parts == [] {
      StreamStarts(proc, interval, s, []);
    } else {
      var before, last := parts[..|parts| - 1], parts[|parts| - 1];
      var all, at := Joined(parts), |Joined(before)|;
      CallsAreStream(proc, interval, s, before);
      CallIsStream(proc, interval, Calls(proc, interval, s, before).state, last);
      StreamAppend(proc, interval, s, Joined(before), last);
      assert all[..at] == Joined(before) && last == all[at..at + |last|];
      var outs := Calls(proc, interval, s, parts).outs;
      forall j | 0 <= j < |all|
        ensures outs[j] == Output(proc, interval, s, all, j)
      {
        if j < at {
          SameOutput(proc, interval, s, Joined(before), all, j);
        } else {
          OutputShifts(proc, interval, s, all, at, last, j - at);
        }
      }
    }
  }

  /**
   * However a stream is cut into calls of process(), the chunks that the calls are cut into in turn publish the same
   * snapshots, leave the same accumulators and processor, and make the same output frames.
   */
  lemma AnyPartition<P>(proc: Processor<P>, interval: nat, s: State<P>, parts: seq<seq<Samples>>,
                        others: seq<seq<Samples>>)
    requires s.meter.frames < interval && s.meter.reduction >= 0.0 && Joined(parts) == Joined(others)
    ensures Calls(proc, interval, s, parts) == Calls(proc, interval, s, others)
  {
    hide Calls, Stream, Joined;
    CallsAreStream(proc, interval, s, parts);
    CallsAreStream(proc, interval, s, others);
  }

  // ---------------------------------------------------------------- what a snapshot covers

  /** An interval is about to begin: k snapshots are published and nothing is accumulated. */
  ghost predicate Between(m: Meter, n: nat, k: nat) {
    |m.published| == k && m.frames == 0 && m.inputs == Zeros(n) == m.outputs && m.reduction == 0.0
  }

  /** The output frames of a range of the stream. */
  ghost function Outputs<P>(proc: Processor<P>, interval: nat, s: State<P>, xs: seq<Samples>, from: nat,
                            end: nat): (r: seq<Samples>)
    requires from <= end <= |xs|
    ensures |r| == end - from && forall j :: 0 <= j < end - from ==> r[j] == Output(proc, interval, s, xs, from + j)
  {
    seq(end - from, j requires 0 <= j < end - from => Output(proc, interval, s, xs, from + j))
  }

  /** Snapshots, once published, stay. */
  lemma {:induction false} PublishedStays<P>(proc: Processor<P>, interval: nat, s: State<P>, xs: seq<Samples>)
    ensures s.meter.published <= Stream(proc, interval, s, xs).meter.published
    decreases |xs|
  {
    hide Louder;
    if xs != [] {
      PublishedStays(proc, interval, s, xs[..|xs| - 1]);
    }
  }

  /** A snapshot of an interval's frames, from the processor as it was when the interval began. */
  ghost predicate Covers<P>(proc: Processor<P>, snapshot: Snapshot, p: P, inputs: seq<Samples>, outputs: seq<Samples>,
                            channels: nat) {
    && snapshot.interval == |inputs|
    && snapshot.inputs == PeaksOf(Zeros(channels), inputs) && snapshot.outputs == PeaksOf(Zeros(channels), outputs)
    && snapshot.reduction == Processed(proc, p, inputs).reduction
    && snapshot.values == proc.values(Processed(proc, p, inputs).processor)
  }

  /** One whole interval publishes one snapshot, of exactly its own frames. */
  lemma IntervalPublishes<P>(proc: Processor<P>, interval: nat, s: State<P>, xs: seq<Samples>, n: nat, k: nat)
    requires Between(s.meter, n, k) && |xs| == interval > 0
    ensures var m := Stream(proc, interval, s, xs).meter;
            && Between(m, n, k + 1)
            && Covers(proc, m.published[k], s.processor, xs, Outputs(proc, interval, s, xs, 0, interval), n)
  {
    hide Stream, Output, Processed, PeaksOf;
    ChunkIsStream(proc, interval, s, xs);
    var outs := Processed(proc, s.processor, xs).outs;
    forall j | 0 <= j < interval
      ensures outs[j] == Output(proc, interval, s, xs, j)
    {
      ChunkOutput(proc, interval, s, xs, j);
    }
    assert outs == Outputs(proc, interval, s, xs, 0, interval);
  }

  /** The interval that begins at a: k intervals have ended, and its snapshot is number k + 1. */
  lemma {:induction false} IntervalBegins<P>(proc: Processor<P>, interval: nat, s: State<P>, xs: seq<Samples>, n: nat,
                                             k: nat, a: nat)
    requires Between(s.meter, n, 0) && interval > 0 && a == k * interval <= |xs|
    ensures Between(Stream(proc, interval, s, xs[..a]).meter, n, k)
    decreases k
  {
    hide Between, Stream;
    if k == 0 {
      assert a == 0;
      StreamStarts(proc, interval, s, xs);
    } else {
      var b := a - interval;
      assert b == (k - 1) * interval;
      ProductNat(k - 1, interval);
      IntervalBegins(proc, interval, s, xs, n, k - 1, b);
      StreamAppend(proc, interval, s, xs[..b], xs[b..a]);
      assert xs[..b] + xs[b..a] == xs[..a];
      IntervalPublishes(proc, interval, Stream(proc, interval, s, xs[..b]), xs[b..a], n, k - 1);
    }
  }

  lemma ProductNat(a: nat, b: nat)
    ensures a * b >= 0
  {
  }

  /**
   * From a reset meter, snapshot k of the stream covers exactly frames k * interval to (k + 1) * interval, whatever
   * follows: its peaks are those of that input and of the output it became.
   */
  lemma SnapshotCovers<P>(proc: Processor<P>, interval: nat, s: State<P>, xs: seq<Samples>, n: nat, k: nat, a: nat)
    requires Between(s.meter, n, 0) && interval > 0 && a == k * interval && a + interval <= |xs|
    ensures var m := Stream(proc, interval, s, xs).meter;
            && k < |m.published|
            && Covers(proc, m.published[k], Stream(proc, interval, s, xs[..a]).processor, xs[a..a + interval],
                      Outputs(proc, interval, s, xs, a, a + interval), n)
  {
    hide Stream, Output, Covers;
    var b := a + interval;
    var before := Stream(proc, interval, s, xs[..a]);
    IntervalBegins(proc, interval, s, xs, n, k, a);
    StreamAppend(proc, interval, s, xs[..a], xs[a..b]);
    assert xs[..a] + xs[a..b] == xs[..b];
    IntervalPublishes(proc, interval, before, xs[a..b], n, k);
    forall j | 0 <= j < interval
      ensures Output(proc, interval, before, xs[a..b], j) == Output(proc, interval, s, xs, a + j)
    {
      OutputShifts(proc, interval, s, xs, a, xs[a..b], j);
    }
    assert Outputs(proc, interval, before, xs[a..b], 0, interval) == Outputs(proc, interval, s, xs, a, b);
    StreamAppend(proc, interval, s, xs[..b], xs[b..]);
    assert xs[..b] + xs[b..] == xs;
    PublishedStays(proc, interval, Stream(proc, interval, s, xs[..b]), xs[b..]);
  }

  /** The next interval begins with the processor of this one, restarted. */
  lemma IntervalRestarts<P>(proc: Processor<P>, interval: nat, s: State<P>, xs: seq<Samples>, n: nat, k: nat, a: nat)
    requires Between(s.meter, n, 0) && interval > 0 && a == k * interval && a + interval <= |xs|
    ensures Stream(proc, interval, s, xs[..a + interval]).processor ==
            proc.restart(Processed(proc, Stream(proc, interval, s, xs[..a]).processor, xs[a..a + interval]).processor)
  {
    hide Stream, Processed, PeaksOf;
    var b := a + interval;
    IntervalBegins(proc, interval, s, xs, n, k, a);
    StreamAppend(proc, interval, s, xs[..a], xs[a..b]);
    assert xs[..a] + xs[a..b] == xs[..b];
    ChunkIsStream(proc, interval, Stream(proc, interval, s, xs[..a]), xs[a..b]);
  }

  ghost function Reduction<P>(proc: Processor<P>, p: P, xs: seq<Samples>, i: nat): real
    requires i < |xs|
  {
    proc.step(Processed(proc, p, xs[..i]).processor, xs[i]).2
  }

  /** The reduction of a call is the largest that one of its frames had. */
  lemma {:induction false} ReductionIs<P>(proc: Processor<P>, p: P, xs: seq<Samples>)
    ensures var r := Processed(proc, p, xs).reduction;
            && (forall i :: 0 <= i < |xs| ==> Reduction(proc, p, xs, i) <= r)
            && (if r == 0.0 then true else exists i :: 0 <= i < |xs| && Reduction(proc, p, xs, i) == r)
    decreases |xs|
  {
    if xs != [] {
      var before := xs[..|xs| - 1];
      ReductionIs(proc, p, before);
      forall i | 0 <= i < |before|
        ensures Reduction(proc, p, xs, i) == Reduction(proc, p, before, i)
      {
        assert before[..i] == xs[..i];
      }
      assert Reduction(proc, p, xs, |before|) == proc.step(Processed(proc, p, before).processor, xs[|before|]).2;
      hide Reduction;
    }
  }

  /** A peak is the loudest sample of its channel. */
  lemma {:induction false} PeakIs(xs: seq<Samples>, n: nat, c: nat)
    requires c < n && forall i :: 0 <= i < |xs| ==> c < |xs[i]|
    ensures var peak := PeaksOf(Zeros(n), xs)[c];
            && (forall i :: 0 <= i < |xs| ==> Abs(xs[i][c]) <= peak)
            && (if peak == 0.0 then true else exists i :: 0 <= i < |xs| && Abs(xs[i][c]) == peak)
    decreases |xs|
  {
    if xs != [] {
      var before, last := xs[..|xs| - 1], xs[|xs| - 1];
      PeakIs(before, n, c);
      assert xs[|xs| - 1] == last;
      var peak := PeaksOf(Zeros(n), xs)[c];
      if peak != 0.0 && peak != Abs(last[c]) {
        var i :| 0 <= i < |before| && Abs(before[i][c]) == peak;
        assert xs[i] == before[i];
      }
    }
  }

  class Effect<P> {
    const proc: Processor<P>
    const rate: int
    const channels: nat
    var processor: P
    var meterFrames: nat
    var meterPosition: nat
    var inputPeaks: seq<real>
    var outputPeaks: seq<real>
    var reduction: real
    var published: seq<Snapshot>

    ghost function Now(): State<P>
      reads this
    {
      State(Meter(meterFrames, meterPosition, inputPeaks, outputPeaks, reduction, published), processor)
    }

    ghost predicate Valid()
      reads this
    {
      rate >= 2 && Regular(Now().meter, IntervalOf(rate))
    }

    constructor (proc: Processor<P>, rate: int, channels: nat, processor: P)
      requires rate >= 2
      ensures Valid() && this.proc == proc && this.rate == rate && published == [] && this.processor == processor
    {
      this.proc, this.rate, this.channels, this.processor := proc, rate, channels, processor;
      meterFrames, meterPosition, reduction, published := 0, 0, 0.0, [];
      inputPeaks, outputPeaks := Zeros(channels), Zeros(channels);
    }

    /** publish_meter() */
    method PublishMeter()
      modifies this
      ensures Now() == if old(meterFrames) == 0 then old(Now()) else Publish(proc, old(Now()))
    {
      if meterFrames == 0 {
        return;
      }
      published := published + [Snapshot(|published| + 1, meterPosition, meterFrames, inputPeaks, outputPeaks,
                                         reduction, proc.values(processor))];
      meterFrames := 0;
      inputPeaks, outputPeaks := Zeros(|inputPeaks|), Zeros(|outputPeaks|);
      reduction := 0.0;
      processor := proc.restart(processor);
    }

    /** The peaks of a chunk. */
    static method Raise(peaks: seq<real>, xs: seq<Samples>) returns (r: seq<real>)
      ensures r == PeaksOf(peaks, xs)
    {
      hide Louder;
      r := peaks;
      for f := 0 to |xs|
        invariant r == PeaksOf(peaks, xs[..f])
      {
        assert xs[..f + 1][..f] == xs[..f];
        r := Louder(r, xs[f]);
      }
      assert xs[..|xs|] == xs;
    }

    /** One chunk through the processor, metered on both sides. */
    method Chunk(xs: seq<Samples>) returns (outs: seq<Samples>)
      requires Valid() && meterFrames + |xs| <= IntervalOf(rate)
      modifies this
      ensures Valid() && Now() == Stream(proc, IntervalOf(rate), old(Now()), xs)
      ensures outs == Processed(proc, old(processor), xs).outs
    {
      hide PeaksOf, Processed, Publish, Regular;
      StreamRegular(proc, IntervalOf(rate), Now(), xs);
      RegularParts(Now().meter, IntervalOf(rate));
      ChunkIsStream(proc, IntervalOf(rate), Now(), xs);
      inputPeaks := Raise(inputPeaks, xs);
      var r := Processed(proc, processor, xs);
      processor, outs := r.processor, r.outs;
      outputPeaks := Raise(outputPeaks, outs);
      reduction := Max(reduction, r.reduction);
      meterFrames := meterFrames + |xs|;
      meterPosition := meterPosition + |xs|;
      if meterFrames == IntervalOf(rate) {
        PublishMeter();
      }
    }

    /** The next chunk of a buffer: up to its end or the end of the interval. */
    method NextChunk(buffer: array<Samples>, done: nat, ghost input: seq<Samples>,
                     ghost was: State<P>) returns (done': nat)
      requires Valid() && done < buffer.Length == |input|
      requires forall i :: done <= i < buffer.Length ==> buffer[i] == input[i]
      requires Now() == Stream(proc, IntervalOf(rate), was, input[..done])
      modifies this, buffer
      ensures Valid() && done < done' <= buffer.Length
      ensures forall i :: 0 <= i < buffer.Length && !(done <= i < done') ==> buffer[i] == old(buffer[i])
      ensures forall i :: done <= i < done' ==> buffer[i] == Output(proc, IntervalOf(rate), was, input, i)
      ensures Now() == Stream(proc, IntervalOf(rate), was, input[..done'])
    {
      hide Regular, Stream, Output, Processed;
      var interval := IntervalOf(rate);
      RegularParts(Now().meter, interval);
      var left: nat := buffer.Length - done;
      var count: nat := if left <= interval - meterFrames then left else interval - meterFrames;
      done' := done + count;
      var xs := buffer[done..done'];
      assert xs == input[done..done'];
      ghost var s := Now();
      StreamAppend(proc, interval, was, input[..done], xs);
      assert input[..done] + xs == input[..done'];
      var outs := Chunk(xs);
      forall j | 0 <= j < |xs|
        ensures outs[j] == Output(proc, interval, was, input, done + j)
      {
        ChunkOutput(proc, interval, s, xs, j);
        OutputShifts(proc, interval, was, input, done, xs, j);
      }
      Store(buffer, done, outs);
      forall i | done <= i < done'
        ensures buffer[i] == Output(proc, interval, was, input, i)
      {
        assert outs[i - done] == Output(proc, interval, was, input, done + (i - done));
      }
    }

    /** process(): the buffer is cut at the ends of intervals. */
    method Process(buffer: array<Samples>)
      requires Valid()
      modifies this, buffer
      ensures Valid() && Now() == Stream(proc, IntervalOf(rate), old(Now()), old(buffer[..]))
      ensures forall i :: 0 <= i < buffer.Length ==>
                buffer[i] == Output(proc, IntervalOf(rate), old(Now()), old(buffer[..]), i)
    {
      hide Regular, Stream, Output;
      ghost var input, was := buffer[..], Now();
      StreamStarts(proc, IntervalOf(rate), was, input);
      var done: nat := 0;
      while done < buffer.Length
        invariant done <= buffer.Length && Valid() && forall i :: done <= i < buffer.Length ==> buffer[i] == input[i]
        invariant forall i :: 0 <= i < done ==> buffer[i] == Output(proc, IntervalOf(rate), was, input, i)
        invariant Now() == Stream(proc, IntervalOf(rate), was, input[..done])
      {
        done := NextChunk(buffer, done, input, was);
      }
      assert input[..buffer.Length] == input;
    }

    /** The same, as one of the successive calls whose partition does not matter. */
    method ProcessCalled(buffer: array<Samples>)
      requires Valid()
      modifies this, buffer
      ensures Valid() && old(meterFrames) < IntervalOf(rate)
      ensures Now() == ProcessCall(proc, IntervalOf(rate), old(Now()), old(buffer[..])).state
      ensures buffer[..] == ProcessCall(proc, IntervalOf(rate), old(Now()), old(buffer[..])).outs
    {
      hide Regular, Stream, Output;
      ghost var s, input := Now(), buffer[..];
      RegularParts(s.meter, IntervalOf(rate));
      CallIsStream(proc, IntervalOf(rate), s, input);
      Process(buffer);
      assert buffer[..] == Outputs(proc, IntervalOf(rate), s, input, 0, |input|);
    }

    /** Write the output of a chunk back into the buffer. */
    static method Store(buffer: array<Samples>, at: nat, outs: seq<Samples>)
      requires at + |outs| <= buffer.Length
      modifies buffer
      ensures forall i :: 0 <= i < buffer.Length ==>
                buffer[i] == if at <= i < at + |outs| then outs[i - at] else old(buffer[i])
    {
      for k := 0 to |outs|
        invariant forall i :: 0 <= i < buffer.Length ==>
                    buffer[i] == if at <= i < at + k then outs[i - at] else old(buffer[i])
      {
        buffer[at + k] := outs[k];
      }
    }
  }

  lemma StreamStarts<P>(proc: Processor<P>, interval: nat, s: State<P>, input: seq<Samples>)
    ensures Stream(proc, interval, s, input[..0]) == s
  {
  }

  lemma RegularParts(m: Meter, interval: nat)
    requires Regular(m, interval)
    ensures m.frames < interval && m.reduction >= 0.0
  {
  }
}
