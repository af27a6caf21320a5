/**
 The unwrapping effect of the PacMan page: a state machine over the
 continuous (unwrapped) rotation angle and the previous raw angle. Each new
 raw angle is folded into the continuous angle along the shortest path
 across the 0/360 seam, and an overflow guard snaps the continuous angle
 back to the raw angle once its magnitude exceeds ten turns.
 */
module Unwrap {
  import opened Turns

  /** Magnitude of the continuous angle above which it is reset. */
  const OverflowBound: real := 3600.0

  /**
   `cont` is the rendered rotation (`continuousAngle`); `prev` is the raw
   angle seen by the previous update (`previousAngleRef.current`).
   */
  datatype State = State(cont: real, prev: real)

  /** Both start at 0. */
  const Initial: State := State(0.0, 0.0)

  /** The overflow guard fires on the next update. */
  predicate Overflows(s: State) {
    Abs(s.cont) > OverflowBound
  }

  /**
   The shortest-path increment from `prev` to `raw`: it always differs from
   the raw difference by whole turns, it is the raw difference itself when
   that is at most half a turn, and for raw angles in [0, 360) it is never
   more than half a turn.
   */
  function Step(prev: real, raw: real): (d: real)
    ensures WholeTurns(raw - prev - d)
    ensures Abs(raw - prev) <= HalfTurn ==> d == raw - prev
    ensures InTurn(prev) && InTurn(raw) ==> Abs(d) <= HalfTurn
  {
    var delta := raw - prev;
    if Abs(delta) > HalfTurn then
      if prev > raw then
        WholeTurnsOf(-1);
        delta + FullTurn
      else
        WholeTurnsOf(1);
        delta - FullTurn
    else
      WholeTurnsOf(0);
      delta
  }

  /**
   One run of the effect for a new raw angle. After the update `prev` is
   the new raw angle. On reset the continuous angle becomes the raw angle;
   otherwise it moves by an increment congruent to the raw difference and,
   for raw angles in [0, 360), of at most half a turn. Either way, if the
   continuous angle differed from the previous raw angle by whole turns,
   it differs from the new raw angle by whole turns.
   */
  function Integrate(s: State, raw: real): (r: State)
    ensures r.prev == raw
    ensures Overflows(s) ==> r.cont == raw
    ensures !Overflows(s) ==> WholeTurns(r.cont - s.cont - (raw - s.prev))
    ensures !Overflows(s) && InTurn(s.prev) && InTurn(raw) ==> Abs(r.cont - s.cont) <= HalfTurn
    ensures WholeTurns(s.cont - s.prev) ==> WholeTurns(r.cont - r.prev)
  {
    if Overflows(s) then
      WholeTurnsOf(0);
      State(raw, raw)
    else
      StepKeepsTurns(s.cont, s.prev, raw);
      State(s.cont + Step(s.prev, raw), raw)
  }

  /**
   Adding the shortest-path increment keeps a continuous angle that points
   where the previous raw angle points pointing where the new one points.
   */
  lemma StepKeepsTurns(cont: real, prev: real, raw: real)
    ensures WholeTurns(cont - prev) ==> WholeTurns(cont + Step(prev, raw) - raw)
  {
    var d := Step(prev, raw);
    if WholeTurns(cont - prev) {
      WholeTurnsNeg(raw - prev - d);
      WholeTurnsAdd(cont - prev, d - (raw - prev));
      assert cont + d - raw == cont - prev + (d - (raw - prev));
    }
  }

  /**
   Among all increments that reach `raw` from `prev` up to whole turns, the
   one the tracker takes has the smallest magnitude.
   */
  lemma StepIsShortest(prev: real, raw: real, e: real)
    requires InTurn(prev) && InTurn(raw)
    requires WholeTurns(raw - prev - e)
    ensures Abs(Step(prev, raw)) <= Abs(e)
  {
    var d := Step(prev, raw);
    WholeTurnsNeg(raw - prev - d);
    WholeTurnsAdd(raw - prev - e, d - (raw - prev));
    assert d - e == (raw - prev - e) + (d - (raw - prev));
    if d != e {
      WholeTurnsGap(d - e);
    }
  }

  /**
   The shortest increment is unique except in the tie at exactly half a
   turn: any increment congruent to the raw difference and smaller than
   half a turn is the one the tracker takes.
   */
  lemma StepIsUnique(prev: real, raw: real, e: real)
    requires InTurn(prev) && InTurn(raw)
    requires WholeTurns(raw - prev - e)
    requires Abs(e) < HalfTurn
    ensures Step(prev, raw) == e
  {
    var d := Step(prev, raw);
    WholeTurnsNeg(raw - prev - d);
    WholeTurnsAdd(raw - prev - e, d - (raw - prev));
    assert d - e == (raw - prev - e) + (d - (raw - prev));
    if d != e {
      WholeTurnsGap(d - e);
    }
  }

  /**
   The three branches of the update when the guard does not fire: no wrap
   adds the raw difference; a downward wrap through 0 (previous angle
   above the new one) adds the difference plus a turn; an upward wrap
   through 360 adds the difference minus a turn.
   */
  lemma IntegrateBranches(s: State, raw: real)
    requires !Overflows(s)
    ensures Abs(raw - s.prev) <= HalfTurn ==> Integrate(s, raw).cont == s.cont + (raw - s.prev)
    ensures Abs(raw - s.prev) > HalfTurn && s.prev > raw ==>
      Integrate(s, raw).cont == s.cont + (raw - s.prev) + FullTurn
    ensures Abs(raw - s.prev) > HalfTurn && s.prev <= raw ==>
      Integrate(s, raw).cont == s.cont + (raw - s.prev) - FullTurn
  {
  }

  /** Crossing the seam from 359 to 1 moves forward by 2, not back by 358. */
  lemma DownwardWrapExample(cont: real)
    requires Abs(cont) <= OverflowBound
    ensures Integrate(State(cont, 359.0), 1.0) == State(cont + 2.0, 1.0)
  {
  }

  /** Crossing the seam from 1 to 359 moves back by 2, not forward by 358. */
  lemma UpwardWrapExample(cont: real)
    requires Abs(cont) <= OverflowBound
    ensures Integrate(State(cont, 1.0), 359.0) == State(cont - 2.0, 359.0)
  {
  }

  /**
   The reset is invisible modulo whole turns: the continuous angle it
   produces points where the normal update would have pointed it.
   */
  lemma ResetKeepsDirection(s: State, raw: real)
    requires Overflows(s)
    requires WholeTurns(s.cont - s.prev)
    ensures WholeTurns(Integrate(s, raw).cont - (s.cont + Step(s.prev, raw)))
  {
    var d := Step(s.prev, raw);
    WholeTurnsNeg(s.cont - s.prev);
    WholeTurnsAdd(-(s.cont - s.prev), raw - s.prev - d);
    assert raw - (s.cont + d) == -(s.cont - s.prev) + (raw - s.prev - d);
  }
}
