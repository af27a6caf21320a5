/**
 The pointer handlers of the PacMan page: each turns the arctangent angle
 from the avatar's centre to the pointer (in degrees, as an abstract real
 in [-180, 180]) into a raw angle in [0, 360) by adding a calibration
 offset, taking the JavaScript remainder by 360 and lifting a negative
 remainder by one full turn.
 */
module Pointer {
  import opened Turns

  /** Calibration offset of the mouse handler. */
  const MouseOffset: real := -145.0

  /** Calibration offset of the touch handler. */
  const TouchOffset: real := 180.0

  /**
   `(a + offset) % 360`, then `+ 360` when the remainder is negative.
   For every input the result is a direction in [0, 360) that differs from
   `a + offset` by whole turns.
   */
  function Normalize(a: real, offset: real): (r: real)
    ensures InTurn(r)
    ensures WholeTurns(a + offset - r)
  {
    var t := JsRem360(a + offset);
    if t < 0.0 then
      WholeTurnsOf(-1);
      WholeTurnsAdd(a + offset - t, FullTurn * (-1) as real);
      t + FullTurn
    else
      t
  }

  /** Raw angle produced by a mouse move. */
  function MouseAngle(a: real): (r: real)
    ensures InTurn(r)
    ensures WholeTurns(a + MouseOffset - r)
  {
    Normalize(a, MouseOffset)
  }

  /** Raw angle produced by a touch move. */
  function TouchAngle(a: real): (r: real)
    ensures InTurn(r)
    ensures WholeTurns(a + TouchOffset - r)
  {
    Normalize(a, TouchOffset)
  }

  /**
   The truncating remainder plus the sign fix-up computes exactly the
   floored remainder modulo 360.
   */
  lemma NormalizeIsFloorMod(a: real, offset: real)
    ensures Normalize(a, offset) == FloorMod360(a + offset)
  {
    var r := Normalize(a, offset);
    var m := FloorMod360(a + offset);
    WholeTurnsNeg(a + offset - r);
    WholeTurnsAdd(r - (a + offset), a + offset - m);
    CanonicalUnique(r, m);
  }

  /**
   For an arctangent result in [-180, 180], the mouse handler rotates the
   pointer direction back by 145 degrees, wrapping below zero.
   */
  lemma MouseAngleCases(a: real)
    requires -HalfTurn <= a <= HalfTurn
    ensures a >= 145.0 ==> MouseAngle(a) == a - 145.0
    ensures a < 145.0 ==> MouseAngle(a) == a + 215.0
  {
    var r := MouseAngle(a);
    var e := if a >= 145.0 then a - 145.0 else a + 215.0;
    if a >= 145.0 {
      WholeTurnsOf(0);
    } else {
      WholeTurnsOf(-1);
    }
    assert WholeTurns(a + MouseOffset - e);
    WholeTurnsNeg(a + MouseOffset - r);
    WholeTurnsAdd(r - (a + MouseOffset), a + MouseOffset - e);
    CanonicalUnique(r, e);
  }

  /**
   For an arctangent result in [-180, 180], the touch handler turns the
   pointer direction by half a turn; the one input reaching 360 (the
   pointer straight to the left, 180 degrees) wraps to 0.
   */
  lemma TouchAngleCases(a: real)
    requires -HalfTurn <= a <= HalfTurn
    ensures a < HalfTurn ==> TouchAngle(a) == a + 180.0
    ensures a == HalfTurn ==> TouchAngle(a) == 0.0
  {
    var r := TouchAngle(a);
    var e := if a < HalfTurn then a + 180.0 else 0.0;
    if a < HalfTurn {
      WholeTurnsOf(0);
    } else {
      WholeTurnsOf(1);
    }
    assert WholeTurns(a + TouchOffset - e);
    WholeTurnsNeg(a + TouchOffset - r);
    WholeTurnsAdd(r - (a + TouchOffset), a + TouchOffset - e);
    CanonicalUnique(r, e);
  }
}
