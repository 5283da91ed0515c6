/** Frames of samples as the audio processors read them: clamped input, its peak, and the residual that ends a tail. */
module AudioFrames {
  import opened Reals

  const RESIDUAL: real := 0.000001
  const FLOOR: real := 0.000000000000000000000000000001
  const INPUT_LIMIT: real := 1000000000000000000000000000000.0

  function Clamp(x: real): (r: real)
    ensures -INPUT_LIMIT <= r <= INPUT_LIMIT && (-INPUT_LIMIT <= x <= INPUT_LIMIT ==> r == x)
  {
    Max(-INPUT_LIMIT, Min(x, INPUT_LIMIT))
  }

  function Clamped(x: seq<real>): (dry: seq<real>)
    ensures |dry| == |x| && forall i :: 0 <= i < |x| ==> dry[i] == Clamp(x[i])
  {
    seq(|x|, i requires 0 <= i < |x| => Clamp(x[i]))
  }

  /** The largest magnitude so far. */
  function Peak(reference: real, dry: seq<real>, i: nat): (r: real)
    requires i <= |dry|
    ensures r >= reference && forall j :: 0 <= j < i ==> Abs(dry[j]) <= r
  {
    if i == 0 then reference else Max(Peak(reference, dry, i - 1), Abs(dry[i - 1]))
  }

  predicate InputSet(dry: seq<real>) {
    exists i :: 0 <= i < |dry| && dry[i] != 0.0
  }

  function Residual(reference: real): (r: real)
    ensures r > 0.0 && r >= reference * RESIDUAL
  {
    Max(reference * RESIDUAL, FLOOR)
  }

  function Silence(n: nat): (x: seq<real>)
    ensures |x| == n && forall i :: 0 <= i < n ==> x[i] == 0.0
  {
    Zeros(n)
  }

  lemma {:induction false} SilentPeak(reference: real, n: nat, i: nat)
    requires i <= n && reference >= 0.0
    ensures Peak(reference, Clamped(Silence(n)), i) == reference
  {
    if i == 0 {
    } else {
      SilentPeak(reference, n, i - 1);
    }
  }

  lemma SilentDry(n: nat)
    ensures Clamped(Silence(n)) == Silence(n) && !InputSet(Clamped(Silence(n)))
  {
  }

  /** An LFO phase advances around the circle. */
  function WrappedPhase(phase: real, circle: real): real {
    if phase >= circle then phase - circle else phase
  }

  /** A phase on the circle that has turned by n increments from where it started, less some whole turns. */
  ghost predicate Turned(phase: real, start: real, increment: real, circle: real, n: nat, turns: nat) {
    0.0 <= phase < circle && phase == start + n as real * increment - turns as real * circle
  }

  lemma NoTurn(start: real, increment: real, circle: real)
    requires 0.0 <= start < circle
    ensures Turned(start, start, increment, circle, 0, 0)
  {
  }

  lemma NextTurn(phase: real, start: real, increment: real, circle: real, n: nat, turns: nat) returns (next: nat)
    requires 0.0 <= increment < circle && Turned(phase, start, increment, circle, n, turns)
    ensures Turned(WrappedPhase(phase + increment, circle), start, increment, circle, n + 1, next)
  {
    next := if phase + increment >= circle then turns + 1 else turns;
    assert (n + 1) as real * increment == n as real * increment + increment;
    assert (turns + 1) as real * circle == turns as real * circle + circle;
  }
}
