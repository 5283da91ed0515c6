/** Linear ramps: a value that a constant step brings to its end within a number of frames. */
module Ramps {
  import opened Reals

  function StepTo(a: real, b: real, frames: nat): (s: real)
    requires frames > 0
  {
    (b - a) / (frames as real)
  }

  ghost predicate OnLine(now: real, end: real, step: real, left: nat) {
    if left == 0 then now == end else step * (left as real) == end - now
  }

  lemma LineNext(now: real, end: real, step: real, left: nat)
    requires OnLine(now, end, step, left) && left > 1
    ensures OnLine(now + step, end, step, left - 1)
  {
    assert step * (left as real) == step * ((left - 1) as real) + step;
  }

  lemma LineStart(a: real, b: real, frames: nat)
    requires frames > 0
    ensures OnLine(a, b, StepTo(a, b, frames), frames)
  {
    QuotientTimes(b - a, frames as real);
  }

  /** Between two values at least `low`, the ramp stays at least `low`. */
  lemma LineAbove(now: real, end: real, step: real, left: nat, low: real)
    requires OnLine(now, end, step, left) && left > 1 && low <= now && low <= end
    ensures low <= now + step
  {
    var n := left as real;
    if step < 0.0 {
      ProductSign(-step, n - 1.0);
      assert step * n == step * (n - 1.0) + step;
    }
  }

  lemma LineDone(end: real, step: real)
    ensures OnLine(end, end, step, 0)
  {
  }

  lemma LineScaled(now: real, end: real, step: real, left: nat)
    requires OnLine(now, end, step, left) && left > 0
    ensures OnLine(-now, -end, -step, left)
  {
  }

  lemma LineSum(a: real, a': real, s: real, b: real, b': real, t: real, left: nat)
    requires OnLine(a, a', s, left) && OnLine(b, b', t, left) && left > 0
    ensures OnLine(a + b, a' + b', s + t, left)
  {
  }

  /** x is n / m of the way from a to b. */
  ghost predicate Along(a: real, b: real, x: real, n: nat, m: nat) {
    (x - a) * (m as real) == (b - a) * (n as real)
  }

  lemma AlongStarts(a: real, b: real, m: nat)
    ensures Along(a, b, a, 0, m)
  {
  }

  /** A step takes it one part further, and the last part ends on b. */
  lemma AlongNext(a: real, b: real, x: real, n: nat, m: nat)
    requires Along(a, b, x, n, m) && n < m
    ensures Along(a, b, x + StepTo(a, b, m), n + 1, m) && Along(a, b, b, m, m)
  {
    QuotientTimes(b - a, m as real);
    assert (x + StepTo(a, b, m) - a) * (m as real) == (x - a) * (m as real) + StepTo(a, b, m) * (m as real);
    assert (b - a) * ((n + 1) as real) == (b - a) * (n as real) + (b - a);
  }

  // ---------------------------------------------------------------- one smoothed value

  datatype Line = Line(now: real, end: real, step: real)

  function Countdown(left: nat): nat {
    if left == 0 then 0 else left - 1
  }

  /** One frame, with `left` frames of the ramp to go: the last one lands on the end exactly. */
  function Moved(l: Line, left: nat): Line {
    if left == 0 then l else if left > 1 then l.(now := l.now + l.step) else l.(now := l.end)
  }

  /** A ramp from the current value to another end. */
  function Aimed(l: Line, end: real, frames: nat): Line
    requires frames > 0
  {
    Line(l.now, end, StepTo(l.now, end, frames))
  }

  ghost predicate Between(l: Line, left: nat, low: real, high: real) {
    OnLine(l.now, l.end, l.step, left) && low <= l.now <= high && low <= l.end <= high
  }

  lemma MovedBetween(l: Line, left: nat, low: real, high: real)
    requires Between(l, left, low, high)
    ensures Between(Moved(l, left), Countdown(left), low, high)
  {
    hide OnLine;
    if left > 1 {
      LineNext(l.now, l.end, l.step, left);
      LineAbove(l.now, l.end, l.step, left, low);
      LineScaled(l.now, l.end, l.step, left);
      LineAbove(-l.now, -l.end, -l.step, left, -high);
    } else if left == 1 {
      LineDone(l.end, l.step);
    } else {
      assert Moved(l, left) == l && Countdown(left) == left;
    }
  }

  lemma AimedBetween(l: Line, end: real, frames: nat, low: real, high: real)
    requires frames > 0 && low <= l.now <= high && low <= end <= high
    ensures Between(Aimed(l, end, frames), frames, low, high)
  {
    hide OnLine, StepTo;
    LineStart(l.now, end, frames);
  }

  /** Frames left of a ramp, n frames later. */
  function Left(left: nat, n: nat): nat {
    if n < left then left - n else 0
  }

  ghost function LineAfter(l: Line, left: nat, n: nat): Line {
    if n == 0 then l else Moved(LineAfter(l, left, n - 1), Left(left, n - 1))
  }

  /** n frames into a ramp from a to b: n / m of the way, and on b from the last frame on. */
  ghost predicate Ramped(a: real, b: real, x: real, n: nat, m: nat) {
    if n < m then Along(a, b, x, n, m) else x == b
  }

  /** After n frames, an edited value is n / frames of the way to its new end, which it reaches and keeps. */
  lemma {:induction false} LineRamps(l: Line, end: real, frames: nat, n: nat)
    requires 0 < frames
    ensures var p := LineAfter(Aimed(l, end, frames), frames, n);
            p.end == end && p.step == StepTo(l.now, end, frames) && Ramped(l.now, end, p.now, n, frames)
  {
    hide StepTo, Along;
    if n == 0 {
      AlongStarts(l.now, end, frames);
    } else {
      LineRamps(l, end, frames, n - 1);
      if n - 1 < frames {
        AlongNext(l.now, end, LineAfter(Aimed(l, end, frames), frames, n - 1).now, n - 1, frames);
      }
    }
  }
}
