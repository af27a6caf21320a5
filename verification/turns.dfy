/**
 Angle arithmetic shared by the orientation tracker: absolute value, the
 JavaScript remainder operator `%` with a divisor of 360, and the notion of
 two angles being equal up to whole turns.

 All angles are exact reals measured in degrees; the floating-point rounding
 of the browser is not modelled.
 */
module Turns {

  /** One full rotation, in degrees. */
  const FullTurn: real := 360.0

  /** Half a rotation: the largest step the shortest path ever takes. */
  const HalfTurn: real := 180.0

  function Abs(x: real): (r: real)
    ensures r >= 0.0
    ensures r == x || r == -x
  {
    if x < 0.0 then -x else x
  }

  /** `a` lies in the half-open interval [0, 360). */
  predicate InTurn(a: real) {
    0.0 <= a < FullTurn
  }

  /** `x` is an integer multiple of 360, i.e. a whole number of turns. */
  predicate WholeTurns(x: real) {
    (x / FullTurn).Floor as real == x / FullTurn
  }

  /** Rounds toward zero, as JavaScript's remainder does with its quotient. */
  function Trunc(x: real): (r: int)
    ensures x >= 0.0 ==> 0.0 <= r as real <= x < r as real + 1.0
    ensures x < 0.0 ==> r as real - 1.0 < x <= r as real <= 0.0
  {
    if x >= 0.0 then x.Floor else -((-x).Floor)
  }

  /**
   JavaScript `x % 360`: the remainder of a quotient truncated toward zero.
   The result carries the sign of the dividend and is strictly smaller than
   a full turn in magnitude.
   */
  function JsRem360(x: real): (r: real)
    ensures -FullTurn < r < FullTurn
    ensures x >= 0.0 ==> r >= 0.0
    ensures x <= 0.0 ==> r <= 0.0
    ensures WholeTurns(x - r)
  {
    var q := Trunc(x / FullTurn);
    WholeTurnsOf(q);
    x - FullTurn * q as real
  }

  /**
   The mathematical (floored) remainder modulo 360, the reference
   definition of "the direction `x` points in".
   */
  function FloorMod360(x: real): (r: real)
    ensures InTurn(r)
    ensures WholeTurns(x - r)
  {
    var q := (x / FullTurn).Floor;
    WholeTurnsOf(q);
    x - FullTurn * q as real
  }

  lemma WholeTurnsOf(k: int)
    ensures WholeTurns(FullTurn * k as real)
  {
    assert FullTurn * k as real / FullTurn == k as real;
  }

  /** Whole turns are closed under addition. */
  lemma WholeTurnsAdd(x: real, y: real)
    requires WholeTurns(x) && WholeTurns(y)
    ensures WholeTurns(x + y)
  {
    var a := (x / FullTurn).Floor;
    var b := (y / FullTurn).Floor;
    assert x + y == FullTurn * (a + b) as real;
    WholeTurnsOf(a + b);
  }

  /** Whole turns are closed under negation. */
  lemma WholeTurnsNeg(x: real)
    requires WholeTurns(x)
    ensures WholeTurns(-x)
  {
    var a := (x / FullTurn).Floor;
    assert -x == FullTurn * (-a) as real;
    WholeTurnsOf(-a);
  }

  /** A nonzero whole number of turns is at least one full turn in size. */
  lemma WholeTurnsGap(x: real)
    requires WholeTurns(x) && x != 0.0
    ensures Abs(x) >= FullTurn
  {
    var a := (x / FullTurn).Floor;
    assert x == FullTurn * a as real;
    assert a != 0;
  }

  /** Two angles in [0, 360) that differ by whole turns are equal. */
  lemma CanonicalUnique(a: real, b: real)
    requires InTurn(a) && InTurn(b)
    requires WholeTurns(a - b)
    ensures a == b
  {
    if a != b {
      WholeTurnsGap(a - b);
    }
  }

  /**
   The direction an angle points in is the one angle in [0, 360) it
   differs from by whole turns.
   */
  lemma FloorModOfCongruent(x: real, a: real)
    requires InTurn(a)
    requires WholeTurns(x - a)
    ensures FloorMod360(x) == a
  {
    var m := FloorMod360(x);
    WholeTurnsNeg(x - m);
    WholeTurnsAdd(m - x, x - a);
    assert m - a == (m - x) + (x - a);
    CanonicalUnique(m, a);
  }
}
