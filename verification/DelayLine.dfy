/**
 * What AudioDelay and AudioFlanger share: a history of written frames that reads as zero before its start, read heads
 * that crossfade, a ring that holds the history lazily, and the quiet counter that retires it.
 */
module DelayLines {
  import opened AudioFrames
  import opened Ramps
  import opened Reals

  type Samples = seq<real>

  ghost predicate Wide(hist: seq<Samples>, channels: nat) {
    forall i :: 0 <= i < |hist| ==> |hist[i]| == channels
  }

  /** The sample `distance` frames back; before the first frame written since the last clear there is silence. */
  function Past(hist: seq<Samples>, distance: nat, c: nat): real
    requires distance > 0 && forall i :: 0 <= i < |hist| ==> c < |hist[i]|
  {
    if distance > |hist| then 0.0 else hist[|hist| - distance][c]
  }

  function Whole(distance: real): (w: nat)
    requires distance >= 0.0
    ensures w as real <= distance < w as real + 1.0
  {
    distance.Floor
  }

  lemma WholeMonotone(a: real, b: real)
    requires 0.0 <= a <= b
    ensures Whole(a) <= Whole(b)
  {
  }

  /** The value between two frames of hist, on the line through them. */
  function Tap(hist: seq<Samples>, distance: real, c: nat): real
    requires distance >= 1.0 && forall i :: 0 <= i < |hist| ==> c < |hist[i]|
  {
    var whole := Whole(distance);
    var fraction := distance - whole as real;
    var near := Past(hist, whole, c);
    if fraction == 0.0 then near else near + (Past(hist, whole + 1, c) - near) * fraction
  }

  lemma BlendBelow(x: real, y: real, t: real, bound: real, z: real)
    requires 0.0 <= t <= 1.0 && x <= bound && y <= bound && z == x + (y - x) * t
    ensures z <= bound
  {
    var r := 1.0 - t;
    hide Mul;
    BlendSum(x, y, t, r, z);
    BlendSum(bound, bound, t, r, bound);
    MulOrdered(t, y, bound);
    MulOrdered(r, x, bound);
  }

  lemma BlendSum(x: real, y: real, t: real, r: real, z: real)
    requires z == x + (y - x) * t && r == 1.0 - t
    ensures z == Mul(x, r) + Mul(y, t)
  {
  }

  lemma Blended(x: real, y: real, t: real, bound: real)
    requires 0.0 <= t <= 1.0 && Abs(x) <= bound && Abs(y) <= bound
    ensures Abs(x + (y - x) * t) <= bound
  {
    var z := x + (y - x) * t;
    BlendBelow(x, y, t, bound, z);
    BlendBelow(-x, -y, t, bound, -z);
  }

  /** A tap is within any bound on the samples it can reach. */
  lemma TapWithin(hist: seq<Samples>, distance: real, c: nat, reach: nat, bound: real)
    requires distance >= 1.0 && Whole(distance) + 1 <= reach && forall i :: 0 <= i < |hist| ==> c < |hist[i]|
    requires bound >= 0.0 && forall d :: 1 <= d <= reach ==> Abs(Past(hist, d, c)) <= bound
    ensures Abs(Tap(hist, distance, c)) <= bound
  {
    hide Past;
    var whole := Whole(distance);
    Blended(Past(hist, whole, c), Past(hist, whole + 1, c), distance - whole as real, bound);
  }

  // ---------------------------------------------------------------- read heads

  datatype Heads = Heads(delay: real, fading: real, left: nat, pending: real, queued: bool)

  function StartDelay(h: Heads, delay: real, frames: nat): Heads {
    h.(fading := h.delay, delay := delay, left := frames)
  }

  /** A queued time starts when the crossfade has finished. */
  function BeginFrame(h: Heads, frames: nat): Heads {
    if h.left == 0 && h.queued then StartDelay(h, h.pending, frames).(queued := false) else h
  }

  /** An edit crossfades to another time, or replaces the one queued time. */
  function Edited(h: Heads, delay: real, frames: nat): Heads {
    if h.left > 0 then h.(pending := delay, queued := delay != h.delay)
    else
      var idle := h.(queued := false);
      if delay != h.delay then StartDelay(idle, delay, frames) else idle
  }

  function EndFrame(h: Heads): Heads {
    h.(left := Countdown(h.left))
  }

  function HeadBlend(left: nat, frames: nat): (b: real)
    requires frames > 0
  {
    if left > 0 then 1.0 - left as real / frames as real else 1.0
  }

  /** The new head, or the blend of both during a crossfade. */
  function Crossfaded(hist: seq<Samples>, near: real, fading: real, left: nat, frames: nat, c: nat): real
    requires near >= 1.0 && fading >= 1.0 && frames > 0 && forall i :: 0 <= i < |hist| ==> c < |hist[i]|
  {
    var t := Tap(hist, near, c);
    if left > 0 then
      var o := Tap(hist, fading, c);
      o + (t - o) * HeadBlend(left, frames)
    else t
  }

  lemma HeadBlendRange(left: nat, frames: nat)
    requires frames > 0 && left <= frames
    ensures 0.0 <= HeadBlend(left, frames) <= 1.0
  {
    if left > 0 {
      QuotientTimes(left as real, frames as real);
      CancelLoose(frames as real, left as real / frames as real, 1.0);
      CancelLoose(frames as real, 0.0, left as real / frames as real);
    }
  }

  lemma CrossfadedWithin(hist: seq<Samples>, near: real, fading: real, left: nat, frames: nat, c: nat, reach: nat,
                         bound: real)
    requires near >= 1.0 && fading >= 1.0 && frames > 0 && left <= frames
    requires forall i :: 0 <= i < |hist| ==> c < |hist[i]|
    requires Whole(near) + 1 <= reach && (left > 0 ==> Whole(fading) + 1 <= reach)
    requires bound >= 0.0 && forall d :: 1 <= d <= reach ==> Abs(Past(hist, d, c)) <= bound
    ensures Abs(Crossfaded(hist, near, fading, left, frames, c)) <= bound
  {
    hide Past, Tap, HeadBlend;
    TapWithin(hist, near, c, reach, bound);
    if left > 0 {
      TapWithin(hist, fading, c, reach, bound);
      HeadBlendRange(left, frames);
      Blended(Tap(hist, fading, c), Tap(hist, near, c), HeadBlend(left, frames), bound);
    }
  }

  /** A crossfade starts on the fading head, moves by 1 / frames per frame, and ends on the near head. */
  lemma CrossfadeEnds(hist: seq<Samples>, near: real, fading: real, left: nat, frames: nat, c: nat)
    requires near >= 1.0 && fading >= 1.0 && frames > 0 && left < frames
    requires forall i :: 0 <= i < |hist| ==> c < |hist[i]|
    ensures Crossfaded(hist, near, fading, frames, frames, c) == Tap(hist, fading, c)
    ensures Crossfaded(hist, near, fading, 0, frames, c) == Tap(hist, near, c)
    ensures HeadBlend(left, frames) == HeadBlend(left + 1, frames) + 1.0 / frames as real
  {
    hide Tap;
    var n, l := frames as real, left as real;
    QuotientTimes(n, n);
    QuotientTimes(l, n);
    QuotientTimes(l + 1.0, n);
    QuotientTimes(1.0, n);
    SameQuotient(n, 1.0, n / n);
    SameQuotient(n, (l + 1.0) / n, l / n + 1.0 / n);
  }

  lemma SameQuotient(n: real, a: real, b: real)
    requires n > 0.0 && a * n == b * n
    ensures a == b
  {
    CancelLoose(n, a, b);
    CancelLoose(n, b, a);
  }

  /** A whole distance reads one stored sample. */
  lemma WholeTap(hist: seq<Samples>, distance: nat, c: nat)
    requires distance >= 1 && forall i :: 0 <= i < |hist| ==> c < |hist[i]|
    ensures Tap(hist, distance as real, c) == Past(hist, distance, c)
  {
    assert Whole(distance as real) == distance;
  }

  /** Between two whole distances a read lies on the line from one sample to the other. */
  lemma FractionalTap(hist: seq<Samples>, whole: nat, t: real, c: nat)
    requires whole >= 1 && 0.0 <= t < 1.0 && forall i :: 0 <= i < |hist| ==> c < |hist[i]|
    ensures Tap(hist, whole as real + t, c) - Past(hist, whole, c) ==
            t * (Past(hist, whole + 1, c) - Past(hist, whole, c))
  {
    hide Past;
    assert Whole(whole as real + t) == whole;
  }

  /** The time that the heads are on their way to. */
  function Aim(h: Heads): real {
    if h.queued then h.pending else h.delay
  }

  ghost function HeadsAfter(h: Heads, frames: nat, n: nat): Heads {
    if n == 0 then h else EndFrame(BeginFrame(HeadsAfter(h, frames, n - 1), frames))
  }

  /** Frames until the heads rest: those of the crossfade that runs, and those of the queued one. */
  ghost function FramesToRest(h: Heads, frames: nat): nat {
    h.left + if h.queued then frames else 0
  }

  lemma {:induction false} HeadsApproach(h: Heads, frames: nat, n: nat)
    requires frames > 0 && h.left <= frames
    ensures var q := HeadsAfter(h, frames, n);
            && q.left <= frames && Aim(q) == Aim(h)
            && FramesToRest(q, frames) == if n <= FramesToRest(h, frames) then FramesToRest(h, frames) - n else 0
  {
    if n > 0 {
      HeadsApproach(h, frames, n - 1);
    }
  }

  /** An edit is heard: within two crossfades the heads rest at its time, even if another crossfade was running. */
  lemma EditArrives(h: Heads, delay: real, frames: nat, n: nat)
    requires frames > 0 && h.left <= frames && n >= 2 * frames
    ensures var q := HeadsAfter(Edited(h, delay, frames), frames, n);
            q.delay == delay && q.left == 0 && !q.queued
  {
    HeadsApproach(Edited(h, delay, frames), frames, n);
  }

  /** An edit makes no jump: right after it, and after a queued time has started, the read is what it was before. */
  lemma EditContinues(hist: seq<Samples>, h: Heads, delay: real, frames: nat, c: nat)
    requires frames > 0 && h.left <= frames && h.delay >= 1.0 && h.fading >= 1.0 && h.pending >= 1.0 && delay >= 1.0
    requires forall i :: 0 <= i < |hist| ==> c < |hist[i]|
    ensures var e, b := Edited(h, delay, frames), BeginFrame(h, frames);
            var read := Crossfaded(hist, h.delay, h.fading, h.left, frames, c);
            && Crossfaded(hist, e.delay, e.fading, e.left, frames, c) == read
            && Crossfaded(hist, b.delay, b.fading, b.left, frames, c) == read
  {
    hide Tap;
    CrossfadeEnds(hist, delay, h.delay, 0, frames, c);
    CrossfadeEnds(hist, h.pending, h.delay, 0, frames, c);
  }

  /** Every time that the heads use or have queued lies in a range. */
  ghost predicate HeadsIn(h: Heads, low: real, high: real, frames: nat) {
    && h.left <= frames
    && low <= h.delay <= high
    && (h.left > 0 ==> low <= h.fading <= high)
    && (h.queued ==> low <= h.pending <= high)
  }

  lemma HeadsStay(h: Heads, low: real, high: real, frames: nat)
    requires HeadsIn(h, low, high, frames)
    ensures HeadsIn(BeginFrame(h, frames), low, high, frames)
    ensures HeadsIn(EndFrame(h), low, high, frames)
  {
  }

  lemma EditedIn(h: Heads, delay: real, low: real, high: real, frames: nat)
    requires HeadsIn(h, low, high, frames) && low <= delay <= high
    ensures HeadsIn(Edited(h, delay, frames), low, high, frames)
  {
  }

  // ---------------------------------------------------------------- writing, and the quiet counter

  /** Magnitudes below the floor are stored as zero. */
  function Flush(x: real): (r: real)
    ensures Abs(r) <= Abs(x) && (Abs(x) >= FLOOR ==> r == x)
  {
    if Abs(x) < FLOOR then 0.0 else x
  }

  function Flushed(f: Samples): (r: Samples)
    ensures |r| == |f| && forall c :: 0 <= c < |f| ==> r[c] == Flush(f[c])
  {
    seq(|f|, c requires 0 <= c < |f| => Flush(f[c]))
  }

  /** The largest magnitude that is not flushed. */
  function Loudest(f: Samples, i: nat): (peak: real)
    requires i <= |f|
    ensures peak >= 0.0 && forall c :: 0 <= c < i ==> Abs(Flush(f[c])) <= peak
  {
    if i == 0 then 0.0
    else if Abs(f[i - 1]) < FLOOR then Loudest(f, i - 1)
    else Max(Loudest(f, i - 1), Abs(f[i - 1]))
  }

  lemma {:induction false} LoudestWithin(f: Samples, i: nat, bound: real)
    requires i <= |f| && bound >= 0.0 && forall c :: 0 <= c < |f| ==> Abs(f[c]) <= bound
    ensures Loudest(f, i) <= bound
  {
    if i == 0 {
    } else {
      LoudestWithin(f, i - 1, bound);
    }
  }

  /** What is remembered since the last clear, and how many frames at its end are within the residual. */
  datatype Memory = Memory(hist: seq<Samples>, reference: real, quiet: nat, live: bool)

  const NOTHING := Memory([], 0.0, 0, false)

  /** The end of a live frame: the frame is written, and a long enough quiet retires everything. */
  function Settled(m: Memory, reference: real, value: Samples, peak: real, capacity: nat): Memory {
    if peak > Residual(reference) then Memory(m.hist + [Flushed(value)], reference, 0, true)
    else if m.quiet + 1 >= capacity then NOTHING
    else Memory(m.hist + [Flushed(value)], reference, m.quiet + 1, true)
  }

  /** Without history nothing is stored; with it, the quiet frames are within the residual. */
  ghost predicate Tracked(m: Memory, channels: nat, capacity: nat) {
    && m.reference >= 0.0 && Wide(m.hist, channels)
    && (!m.live ==> m.hist == [] && m.quiet == 0)
    && (m.live ==> m.quiet < capacity)
    && m.quiet <= |m.hist|
    && forall i, c :: |m.hist| - m.quiet <= i < |m.hist| && 0 <= c < channels ==>
         Abs(m.hist[i][c]) <= Residual(m.reference)
  }

  lemma ResidualGrows(a: real, b: real)
    requires a <= b
    ensures Residual(a) <= Residual(b)
  {
  }

  lemma SettledTracked(m: Memory, reference: real, value: Samples, peak: real, channels: nat, capacity: nat)
    requires Tracked(m, channels, capacity) && reference >= m.reference && |value| == channels && capacity > 0
    requires peak >= Loudest(value, |value|)
    ensures Tracked(Settled(m, reference, value, peak, capacity), channels, capacity)
  {
    hide Residual, Flush, Loudest;
    ResidualGrows(m.reference, reference);
    var hist' := m.hist + [Flushed(value)];
    if peak <= Residual(reference) {
      forall i, c | |hist'| - (m.quiet + 1) <= i < |hist'| && 0 <= c < channels
        ensures Abs(hist'[i][c]) <= Residual(reference)
      {
        if i < |m.hist| {
          assert Abs(m.hist[i][c]) <= Residual(m.reference);
        }
      }
    }
  }

  /** A loop whose gain is at most 1 - 1 / headroom keeps within the headroom of its input. */
  lemma HeadroomSum(bound: real, peak: real, most: real, limit: real, headroom: real)
    requires 0.0 <= bound <= headroom * peak && most <= limit && limit >= 0.0 && limit * headroom + 1.0 == headroom
    ensures peak + most * bound <= headroom * peak
  {
    MulMonotone(most, limit, bound);
    MulMonotone(bound, headroom * peak, limit);
    LimitedHeadroom(limit, headroom, peak);
  }

  lemma LimitedHeadroom(limit: real, headroom: real, peak: real)
    requires limit * headroom + 1.0 == headroom
    ensures limit * (headroom * peak) == headroom * peak - peak
  {
    assert limit * (headroom * peak) == (limit * headroom) * peak;
    assert (headroom - 1.0) * peak == headroom * peak - peak;
  }

  ghost predicate AllWithin(hist: seq<Samples>, channels: nat, bound: real) {
    forall i, c :: 0 <= i < |hist| && 0 <= c < channels && c < |hist[i]| ==> Abs(hist[i][c]) <= bound
  }

  lemma AppendWithin(hist: seq<Samples>, value: Samples, channels: nat, bound: real)
    requires AllWithin(hist, channels, bound) && |value| == channels
    requires forall c :: 0 <= c < channels ==> Abs(value[c]) <= bound
    ensures AllWithin(hist + [Flushed(value)], channels, bound)
  {
    hide Flush, Abs;
    var hist' := hist + [Flushed(value)];
    forall i, c | 0 <= i < |hist'| && 0 <= c < channels && c < |hist'[i]|
      ensures Abs(hist'[i][c]) <= bound
    {
    }
  }

  lemma LargerBound(hist: seq<Samples>, channels: nat, bound: real, larger: real)
    requires AllWithin(hist, channels, bound) && bound <= larger
    ensures AllWithin(hist, channels, larger)
  {
  }

  /** When a history of at least `capacity` quiet frames retires, every readable sample is within the residual. */
  lemma RetiredWithinResidual(m: Memory, reference: real, value: Samples, peak: real, channels: nat, capacity: nat,
                              distance: nat, c: nat)
    requires Tracked(m, channels, capacity) && reference >= m.reference && |value| == channels && capacity > 0
    requires peak >= Loudest(value, |value|) && peak <= Residual(reference) && m.quiet + 1 >= capacity
    requires 1 <= distance <= capacity && c < channels
    ensures Wide(m.hist + [Flushed(value)], channels)
    ensures Abs(Past(m.hist + [Flushed(value)], distance, c)) <= Residual(reference)
  {
    hide Residual, Flush, Loudest;
    ResidualGrows(m.reference, reference);
    var hist' := m.hist + [Flushed(value)];
    if distance > 1 && distance <= |hist'| {
      assert Abs(m.hist[|hist'| - distance][c]) <= Residual(m.reference);
    }
  }

  /** Once every live frame counts as quiet, the history is gone after `capacity` of them. */
  lemma {:induction false} QuietCounts(ms: nat -> Memory, from: nat, i: nat, capacity: nat)
    requires forall n: nat :: n >= from && ms(n + 1).live ==> ms(n).live && ms(n + 1).quiet == ms(n).quiet + 1
    requires ms(from + i).live
    ensures ms(from + i).quiet >= i
  {
    if i == 0 {
    } else {
      assert ms((from + i - 1) + 1).live;
      QuietCounts(ms, from, i - 1, capacity);
    }
  }

  lemma QuietRetires(ms: nat -> Memory, from: nat, capacity: nat)
    requires forall n: nat :: n >= from && ms(n + 1).live ==> ms(n).live && ms(n + 1).quiet == ms(n).quiet + 1
    requires forall n: nat :: ms(n).live ==> ms(n).quiet < capacity
    ensures !ms(from + capacity).live
  {
    if ms(from + capacity).live {
      QuietCounts(ms, from, capacity, capacity);
      assert false;
    }
  }

  // ---------------------------------------------------------------- the ring

  /** The slot `distance` behind the cursor. */
  function Slot(cursor: nat, distance: nat, capacity: nat): (i: nat)
    requires cursor < capacity && 1 <= distance <= capacity
    ensures i < capacity
  {
    if distance <= cursor then cursor - distance else cursor + capacity - distance
  }

  /** The ring holds the last `written` frames of the history behind its cursor. */
  ghost predicate RingHolds(ring: seq<Samples>, cursor: nat, written: nat, hist: seq<Samples>) {
    && cursor < |ring|
    && written == (if |hist| < |ring| then |hist| else |ring|)
    && forall d :: 1 <= d <= written ==> ring[Slot(cursor, d, |ring|)] == hist[|hist| - d]
  }

  function NextSlot(cursor: nat, capacity: nat): (i: nat)
    requires cursor < capacity
    ensures i < capacity
  {
    if cursor + 1 == capacity then 0 else cursor + 1
  }

  lemma RingWrites(ring: seq<Samples>, cursor: nat, written: nat, hist: seq<Samples>, value: Samples)
    requires RingHolds(ring, cursor, written, hist)
    ensures RingHolds(ring[cursor := value], NextSlot(cursor, |ring|),
                      if written < |ring| then written + 1 else written,
                      hist + [value])
  {
    var ring', cursor', hist' := ring[cursor := value], NextSlot(cursor, |ring|), hist + [value];
    var written' := if written < |ring| then written + 1 else written;
    forall d | 1 <= d <= written'
      ensures ring'[Slot(cursor', d, |ring|)] == hist'[|hist'| - d]
    {
      if d > 1 {
        assert Slot(cursor', d, |ring|) == Slot(cursor, d - 1, |ring|);
        assert ring[Slot(cursor, d - 1, |ring|)] == hist[|hist| - (d - 1)];
      }
    }
  }

  /** Reading through `written` is reading the zero-extended history, whatever the slots of the ring still hold. */
  lemma RingReads(ring: seq<Samples>, cursor: nat, written: nat, hist: seq<Samples>, distance: nat, c: nat)
    requires RingHolds(ring, cursor, written, hist) && 1 <= distance <= |ring|
    requires forall i :: 0 <= i < |hist| ==> c < |hist[i]|
    ensures distance <= written ==> c < |ring[Slot(cursor, distance, |ring|)]|
    ensures Past(hist, distance, c) == if distance > written then 0.0 else ring[Slot(cursor, distance, |ring|)][c]
  {
  }

  lemma NothingHeld(ring: seq<Samples>, cursor: nat, written: nat)
    requires RingHolds(ring, cursor, written, [])
    ensures RingHolds(ring, NextSlot(cursor, |ring|), written, [])
  {
  }

  lemma TrackedGrows(m: Memory, reference: real, channels: nat, capacity: nat)
    requires Tracked(m, channels, capacity) && m.reference <= reference
    ensures Tracked(m.(reference := reference), channels, capacity)
  {
    hide Residual;
    ResidualGrows(m.reference, reference);
  }

  lemma TrackedParts(m: Memory, channels: nat, capacity: nat)
    requires Tracked(m, channels, capacity)
    ensures m.reference >= 0.0 && Wide(m.hist, channels)
    ensures if m.live then m.quiet < capacity else m.hist == []
  {
  }

  /** The memory after a frame with input or history, and without either. */
  function Remembered(m: Memory, dry: Samples, value: Samples, peak: real, capacity: nat): Memory {
    var reference := Peak(m.reference, dry, |dry|);
    if m.live || InputSet(dry) then Settled(m, reference, value, peak, capacity) else m.(reference := reference)
  }

  lemma RememberedTracked(m: Memory, dry: Samples, value: Samples, peak: real, channels: nat, capacity: nat)
    requires Tracked(m, channels, capacity) && |value| == channels && capacity > 0 && peak >= Loudest(value, |value|)
    ensures Tracked(Remembered(m, dry, value, peak, capacity), channels, capacity)
  {
    hide Residual, Loudest, Flush, Peak;
    var reference := Peak(m.reference, dry, |dry|);
    if m.live || InputSet(dry) {
      SettledTracked(m, reference, value, peak, channels, capacity);
    } else {
      TrackedGrows(m, reference, channels, capacity);
    }
  }

  /** The memory of a processor in its ring. */
  class History {
    const ring: array<Samples>
    const channels: nat
    var cursor: nat           // Where the next frame of hist goes in the ring
    var written: nat          // The length of hist, as far as the ring reaches
    var reference: real       // What the residual of Tracked() is relative to
    var quiet: nat            // How many frames at the end of hist are within it
    var live: bool            // Without it, hist is empty
    ghost var hist: seq<Samples>

    ghost function Now(): Memory
      reads this
    {
      Memory(hist, reference, quiet, live)
    }

    ghost predicate Valid()
      reads this, ring
    {
      && ring.Length >= 3
      && RingHolds(ring[..], cursor, written, hist)
      && Tracked(Now(), channels, ring.Length)
    }

    /** Storage of any content: clearing is constant-time. */
    constructor (ring: array<Samples>, channels: nat)
      requires ring.Length >= 3
      ensures Valid() && this.ring == ring && this.channels == channels && Now() == NOTHING && cursor == 0
    {
      this.ring, this.channels := ring, channels;
      cursor, written, reference, quiet, live, hist := 0, 0, 0.0, 0, false, [];
    }

    /** A stored sample `distance` frames back; beyond the frames written since the last clear there is silence. */
    function Sample(distance: nat, c: nat): (r: real)
      requires Valid() && 1 <= distance <= ring.Length && c < channels
      reads this, ring
      ensures r == Past(hist, distance, c)
    {
      RingReads(ring[..], cursor, written, hist, distance, c);
      if distance > written then 0.0
      else
        var index := cursor - distance;
        ring[if index < 0 then index + ring.Length else index][c]
    }

    /** Linear interpolation. */
    method Read(distance: real, c: nat) returns (r: real)
      requires Valid() && c < channels && 1.0 <= distance <= ring.Length as real - 1.0
      ensures r == Tap(hist, distance, c)
    {
      hide Past, RingHolds, Residual;
      var whole := Whole(distance);
      var fraction := distance - whole as real;
      var near := Sample(whole, c);
      r := if fraction == 0.0 then near else near + (Sample(whole + 1, c) - near) * fraction;
    }

    /** The new head, blended with the fading one during a crossfade. */
    method ReadHeads(near: real, fading: real, left: nat, frames: nat, c: nat) returns (t: real)
      requires Valid() && c < channels && frames > 0
      requires 1.0 <= near <= ring.Length as real - 1.0 && 1.0 <= fading
      requires left > 0 ==> fading <= ring.Length as real - 1.0
      ensures t == Crossfaded(hist, near, fading, left, frames, c)
    {
      hide Tap, HeadBlend, RingHolds, Residual;
      t := Read(near, c);
      if left > 0 {
        var o := Read(fading, c);
        t := o + (t - o) * HeadBlend(left, frames);
      }
    }

    method ReadInput(x: Samples) returns (dry: Samples, inputSet: bool)
      requires Valid()
      modifies this`reference
      ensures Valid()
      ensures dry == Clamped(x) && inputSet == InputSet(dry) && reference == Peak(old(reference), dry, |dry|)
    {
      hide Clamped, RingHolds, Residual, Tracked;
      ghost var was := Now();
      dry, inputSet := Clamped(x), false;
      for c := 0 to |x|
        invariant reference == Peak(old(reference), dry, c)
        invariant inputSet == exists i :: 0 <= i < c && dry[i] != 0.0
      {
        inputSet := inputSet || dry[c] != 0.0;
        reference := Max(reference, Abs(dry[c]));
      }
      TrackedGrows(was, reference, channels, ring.Length);
    }

    /** Write a frame, and retire the history after enough quiet ones. */
    method Write(value: Samples, others: real)
      requires ring.Length >= 3 && RingHolds(ring[..], cursor, written, hist) && others >= 0.0
      modifies this`cursor, this`written, this`reference, this`quiet, this`live, this`hist, ring
      ensures RingHolds(ring[..], cursor, written, hist)
      ensures Now() == Settled(old(Now()), old(reference), value, Max(others, Loudest(value, |value|)), ring.Length)
    {
      hide Flush, Residual;
      var peak := others;
      var slot: Samples := value;
      for c := 0 to |value|
        invariant |slot| == |value| && peak == Max(others, Loudest(value, c))
        invariant forall i :: 0 <= i < c ==> slot[i] == Flush(value[i])
        invariant forall i :: c <= i < |value| ==> slot[i] == value[i]
      {
        if Abs(value[c]) >= FLOOR {
          peak := Max(peak, Abs(value[c]));
        }
        slot := slot[c := Flush(value[c])];
      }
      assert slot == Flushed(value);
      RingWrites(ring[..], cursor, written, hist, slot);
      ghost var after := ring[..][cursor := slot];
      ring[cursor] := slot;
      assert ring[..] == after;
      hist := hist + [slot];
      if written < ring.Length {
        written := written + 1;
      }
      cursor := NextSlot(cursor, ring.Length);
      live := true;
      if peak > Residual(reference) {
        quiet := 0;
      } else {
        quiet := quiet + 1;
        if quiet >= ring.Length {
          hist, live, written, reference, quiet := [], false, 0, 0.0, 0;
        }
      }
    }

    /** A frame with input or history is written; the cursor steps in any case. */
    method Store(dry: Samples, value: Samples, others: real, ghost was: Memory)
      requires Valid() && |value| == channels && others >= 0.0
      requires Now() == was.(reference := Peak(was.reference, dry, |dry|)) && Tracked(was, channels, ring.Length)
      modifies this, ring
      ensures Valid()
      ensures Now() == Remembered(was, dry, value, Max(others, Loudest(value, |value|)), ring.Length)
    {
      hide Residual, Loudest, RingHolds, Tracked, Peak, Flushed;
      TrackedParts(was, channels, ring.Length);
      RememberedTracked(was, dry, value, Max(others, Loudest(value, |value|)), channels, ring.Length);
      if live || InputSet(dry) {
        Write(value, others);
      } else {
        NothingHeld(ring[..], cursor, written);
        cursor := NextSlot(cursor, ring.Length);
      }
    }
  }
}
