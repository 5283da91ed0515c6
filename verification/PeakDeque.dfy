/**
 * The sliding-window maximum of audio_limiter_dsp.h: a monotonic deque of peaks in a circular array, whose front is the
 * largest level of the last lookahead + 1 frames.
 */
module PeakDeques {
  import opened Reals

  datatype Peak = Peak(sequence: nat, level: real)

  /** The largest of levels lo .. hi - 1. */
  function MaxLevel(levels: seq<real>, lo: nat, hi: nat): (m: real)
    requires lo < hi <= |levels|
    ensures forall i :: lo <= i < hi ==> levels[i] <= m
    ensures exists i :: lo <= i < hi && levels[i] == m
    decreases hi - lo
  {
    if hi == lo + 1 then levels[lo] else Max(MaxLevel(levels, lo, hi - 1), levels[hi - 1])
  }

  lemma MaxLevelIs(levels: seq<real>, lo: nat, hi: nat, m: real, at: nat)
    requires lo <= at < hi <= |levels| && levels[at] == m && forall i :: lo <= i < hi ==> levels[i] <= m
    ensures MaxLevel(levels, lo, hi) == m
  {
  }

  /** Where the window of the last lookahead + 1 of n frames starts. */
  function WindowStart(n: nat, lookahead: nat): nat {
    if n <= lookahead + 1 then 0 else n - (lookahead + 1)
  }

  /** Peaks in order of their frames, each larger than the next, all recorded levels of the window. */
  ghost predicate Monotonic(q: seq<Peak>, levels: seq<real>, from: nat) {
    && (forall k :: 0 <= k < |q| ==> from <= q[k].sequence < |levels| && q[k].level == levels[q[k].sequence])
    && (forall j, k :: 0 <= j < k < |q| ==> q[j].sequence < q[k].sequence && q[k].level < q[j].level)
  }

  /** A level that a peak of the same frame or a later one matches. */
  ghost predicate Covered(q: seq<Peak>, levels: seq<real>, i: nat)
    requires i < |levels|
  {
    exists k :: 0 <= k < |q| && i <= q[k].sequence && levels[i] <= q[k].level
  }

  /** The deque after |levels| frames. */
  ghost predicate Tracks(q: seq<Peak>, levels: seq<real>, lookahead: nat) {
    var from := WindowStart(|levels|, lookahead);
    Monotonic(q, levels, from) && forall i :: from <= i < |levels| ==> Covered(q, levels, i)
  }

  /** The front is the window maximum. */
  lemma FrontIsMax(q: seq<Peak>, levels: seq<real>, lookahead: nat)
    requires Tracks(q, levels, lookahead) && |levels| > 0
    ensures |q| > 0 && q[0].level == MaxLevel(levels, WindowStart(|levels|, lookahead), |levels|)
  {
    var from := WindowStart(|levels|, lookahead);
    assert Covered(q, levels, |levels| - 1);
    forall i | from <= i < |levels|
      ensures levels[i] <= q[0].level
    {
      assert Covered(q, levels, i);
    }
    MaxLevelIs(levels, from, |levels|, q[0].level, q[0].sequence);
  }

  lemma {:induction false} Apart(q: seq<Peak>, levels: seq<real>, from: nat, k: nat)
    requires Monotonic(q, levels, from) && k < |q|
    ensures q[k].sequence >= from + k
  {
    if k > 0 {
      Apart(q, levels, from, k - 1);
    }
  }

  /** Distinct frames of a window of lookahead + 1 never overflow as many entries. */
  lemma NeverOverflows(q: seq<Peak>, levels: seq<real>, from: nat)
    requires Monotonic(q, levels, from) && from <= |levels|
    ensures |q| <= |levels| - from
  {
    if |q| > 0 {
      Apart(q, levels, from, |q| - 1);
    }
  }

  /** Entries of frames that have left the window go from the front. */
  lemma DropFront(q: seq<Peak>, levels: seq<real>, from: nat, d: nat)
    requires Monotonic(q, levels, 0) && d <= |q| && (forall k :: 0 <= k < d ==> q[k].sequence < from)
    requires d < |q| ==> q[d].sequence >= from
    ensures Monotonic(q[d..], levels, from)
    ensures forall i :: from <= i < |levels| && Covered(q, levels, i) ==> Covered(q[d..], levels, i)
  {
    var r := q[d..];
    forall i | from <= i < |levels| && Covered(q, levels, i)
      ensures Covered(r, levels, i)
    {
      var k :| 0 <= k < |q| && i <= q[k].sequence && levels[i] <= q[k].level;
      assert r[k - d] == q[k];
    }
  }

  /** Peaks that a newer level matches go from the back, and the newer level takes their place. */
  lemma PushBack(q: seq<Peak>, levels: seq<real>, from: nat, keep: nat, level: real)
    requires Monotonic(q, levels, from) && keep <= |q| && from <= |levels|
    requires (keep > 0 ==> q[keep - 1].level > level) && forall k :: keep <= k < |q| ==> q[k].level <= level
    ensures Monotonic(q[..keep] + [Peak(|levels|, level)], levels + [level], from)
    ensures forall i :: from <= i < |levels| && Covered(q, levels, i) ==>
                          Covered(q[..keep] + [Peak(|levels|, level)], levels + [level], i)
    ensures Covered(q[..keep] + [Peak(|levels|, level)], levels + [level], |levels|)
  {
    var r, levels' := q[..keep] + [Peak(|levels|, level)], levels + [level];
    forall i | from <= i < |levels| && Covered(q, levels, i)
      ensures Covered(r, levels', i)
    {
      var k :| 0 <= k < |q| && i <= q[k].sequence && levels[i] <= q[k].level;
      if k < keep {
        assert r[k] == q[k];
      } else {
        assert r[keep] == Peak(|levels|, level);
      }
    }
    assert r[keep] == Peak(|levels|, level);
  }

  lemma Tracked(q: seq<Peak>, levels: seq<real>, lookahead: nat, d: nat, keep: nat, level: real)
    requires Tracks(q, levels, lookahead) && d <= |q| && keep <= |q| - d
    requires var from := WindowStart(|levels| + 1, lookahead);
             (forall k :: 0 <= k < d ==> q[k].sequence < from) && (d < |q| ==> q[d].sequence >= from)
    requires keep > 0 ==> q[d + keep - 1].level > level
    requires forall k :: d + keep <= k < |q| ==> q[k].level <= level
    ensures Tracks(q[d..][..keep] + [Peak(|levels|, level)], levels + [level], lookahead)
  {
    var from, was := WindowStart(|levels| + 1, lookahead), WindowStart(|levels|, lookahead);
    DropFront(q, levels, from, d);
    PushBack(q[d..], levels, from, keep, level);
    var r := q[d..][..keep] + [Peak(|levels|, level)];
    forall i | from <= i < |levels| + 1
      ensures Covered(r, levels + [level], i)
    {
      if i < |levels| {
        assert Covered(q, levels, i);
      }
    }
  }

  // ---------------------------------------------------------------- the circular array

  function Wrapped(i: nat, capacity: nat): (j: nat)
    requires i < 2 * capacity
    ensures j < capacity
  {
    if i >= capacity then i - capacity else i
  }

  /** The array holds q from its head on. */
  ghost predicate Holds(peaks: seq<Peak>, head: nat, q: seq<Peak>) {
    head < |peaks| && |q| <= |peaks| && forall k :: 0 <= k < |q| ==> peaks[Wrapped(head + k, |peaks|)] == q[k]
  }

  class PeakDeque {
    const peaks: array<Peak>
    const lookahead: nat
    var head: nat
    var count: nat
    var sequence: nat             // The number of the next level
    ghost var q: seq<Peak>
    ghost var levels: seq<real>

    ghost predicate Valid()
      reads this, peaks
    {
      && peaks.Length == lookahead + 1 && sequence == |levels| && count == |q|
      && Holds(peaks[..], head, q) && Tracks(q, levels, lookahead)
    }

    constructor (lookahead: nat)
      ensures Valid() && this.lookahead == lookahead && levels == [] && fresh(peaks)
    {
      this.lookahead := lookahead;
      peaks := new Peak[lookahead + 1](_ => Peak(0, 0.0));
      head, count, sequence, q, levels := 0, 0, 0, [], [];
    }

    /** reset() */
    method Reset()
      requires Valid()
      modifies this
      ensures Valid() && levels == []
    {
      head, count, sequence, q, levels := 0, 0, 0, [], [];
    }

    /** Drop what has left the window from the front of q. */
    method DiscardOld() returns (ghost d: nat)
      requires Valid()
      modifies this`head, this`count, this`q
      ensures d <= |old(q)| && q == old(q)[d..] && count == |q| && Holds(peaks[..], head, q)
      ensures forall k :: 0 <= k < d ==> old(q)[k].sequence + lookahead < sequence
      ensures d < |old(q)| ==> old(q)[d].sequence + lookahead >= sequence
    {
      hide Tracks;
      d := 0;
      while count > 0 && peaks[head].sequence + lookahead < sequence
        invariant d <= |old(q)| && q == old(q)[d..] && count == |q| && Holds(peaks[..], head, q)
        invariant forall k :: 0 <= k < d ==> old(q)[k].sequence + lookahead < sequence
        decreases count
      {
        assert peaks[Wrapped(head + 0, peaks.Length)] == q[0] == old(q)[d];
        DropHeld(peaks[..], head, q);
        head := if head + 1 == peaks.Length then 0 else head + 1;
        count := count - 1;
        d, q := d + 1, q[1..];
      }
      if count > 0 {
        assert peaks[Wrapped(head + 0, peaks.Length)] == q[0] == old(q)[d];
      }
    }

    /** Drop what `level` dominates from the back of q. */
    method PopBack(level: real)
      requires count == |q| && Holds(peaks[..], head, q)
      modifies this`count, this`q
      ensures count == |q| <= |old(q)| && q == old(q)[..|q|] && Holds(peaks[..], head, q)
      ensures |q| > 0 ==> q[|q| - 1].level > level
      ensures forall k :: |q| <= k < |old(q)| ==> old(q)[k].level <= level
    {
      while count > 0 && peaks[Wrapped(head + count - 1, peaks.Length)].level <= level
        invariant count == |q| <= |old(q)| && q == old(q)[..|q|] && Holds(peaks[..], head, q)
        invariant forall k :: |q| <= k < |old(q)| ==> old(q)[k].level <= level
        decreases count
      {
        assert peaks[Wrapped(head + (count - 1), peaks.Length)] == q[count - 1];
        count := count - 1;
        q := q[..count];
      }
      if count > 0 {
        assert peaks[Wrapped(head + (count - 1), peaks.Length)] == q[count - 1];
      }
    }

    method Push(x: Peak)
      requires count == |q| < peaks.Length && Holds(peaks[..], head, q)
      modifies this`count, this`q, peaks
      ensures count == |q| && q == old(q) + [x] && Holds(peaks[..], head, q)
    {
      var slot := Wrapped(head + count, peaks.Length);
      PushHeld(peaks[..], head, q, x);
      ghost var after := peaks[..][slot := x];
      peaks[slot] := x;
      assert peaks[..] == after;
      count := count + 1;
      q := q + [x];
    }

    /** Insert the newest level; the result is the maximum over the delayed frame and everything newer. */
    method Track(level: real) returns (window: real)
      requires Valid()
      modifies this, peaks
      ensures Valid() && levels == old(levels) + [level]
      ensures window == MaxLevel(levels, WindowStart(|levels|, lookahead), |levels|)
    {
      hide Tracks, MaxLevel;
      ghost var q0 := q;
      ghost var d := DiscardOld();
      ghost var q1 := q;
      PopBack(level);
      Tracked(q0, levels, lookahead, d, count, level);
      Fits(q + [Peak(|levels|, level)], levels + [level], lookahead);
      Push(Peak(sequence, level));
      levels := levels + [level];
      sequence := sequence + 1;
      FrontIsMax(q, levels, lookahead);
      assert peaks[Wrapped(head + 0, peaks.Length)] == q[0];
      window := peaks[head].level;
    }
  }

  lemma Fits(q: seq<Peak>, levels: seq<real>, lookahead: nat)
    requires Tracks(q, levels, lookahead)
    ensures |q| <= lookahead + 1
  {
    NeverOverflows(q, levels, WindowStart(|levels|, lookahead));
  }

  lemma DropHeld(peaks: seq<Peak>, head: nat, q: seq<Peak>)
    requires Holds(peaks, head, q) && |q| > 0
    ensures Holds(peaks, if head + 1 == |peaks| then 0 else head + 1, q[1..])
  {
    var head' := if head + 1 == |peaks| then 0 else head + 1;
    forall k | 0 <= k < |q| - 1
      ensures peaks[Wrapped(head' + k, |peaks|)] == q[1..][k]
    {
      assert Wrapped(head' + k, |peaks|) == Wrapped(head + (k + 1), |peaks|);
    }
  }

  lemma PushHeld(peaks: seq<Peak>, head: nat, q: seq<Peak>, x: Peak)
    requires Holds(peaks, head, q) && |q| < |peaks|
    ensures Holds(peaks[Wrapped(head + |q|, |peaks|) := x], head, q + [x])
  {
  }
}
