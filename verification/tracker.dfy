/**
 The orientation tracker as a whole: pointer events produce raw angles, and
 the unwrapping effect runs whenever the raw angle changes (the effect's
 only dependency is the raw angle, and the previous raw angle always equals
 the current one between updates).
 */
module Tracker {
  import opened Turns
  import opened Pointer
  import opened Unwrap

  /** A pointer event, carrying the arctangent angle from the avatar's centre. */
  datatype PointerEvent = MouseMove(atan: real) | TouchMove(atan: real)

  /** The raw angle a handler stores for an event. */
  function RawAngle(ev: PointerEvent): (r: real)
    ensures InTurn(r)
    ensures ev.MouseMove? ==> WholeTurns(ev.atan + MouseOffset - r)
    ensures ev.TouchMove? ==> WholeTurns(ev.atan + TouchOffset - r)
  {
    match ev
    case MouseMove(a) => MouseAngle(a)
    case TouchMove(a) => TouchAngle(a)
  }

  /**
   What storing a raw angle does: the effect runs only when the stored
   value changes, so an unchanged value leaves the state as it was. Skipping
   it is indistinguishable from running it with a zero difference, except
   when the overflow guard would have fired.
   */
  function Effect(s: State, raw: real): (r: State)
    ensures r.prev == raw
    ensures raw == s.prev ==> r == s
    ensures r != Integrate(s, raw) ==> raw == s.prev && Overflows(s)
    ensures WholeTurns(s.cont - s.prev) ==> WholeTurns(r.cont - r.prev)
  {
    if raw == s.prev then s else Integrate(s, raw)
  }

  /**
   One pointer event: the handler stores the event's raw angle and the
   effect runs on it. Afterwards the previous raw angle is the event's; a
   consistent tracker stays consistent and, unless the overflow guard
   fires, turns by at most half a turn.
   */
  function Handle(s: State, ev: PointerEvent): (r: State)
    ensures r.prev == RawAngle(ev)
    ensures Consistent(s) ==> Consistent(r)
    ensures Consistent(s) && !Overflows(s) ==> Abs(r.cont - s.cont) <= HalfTurn
  {
    EffectKeepsConsistent(s, RawAngle(ev));
    Effect(s, RawAngle(ev))
  }

  /**
   The states the tracker can be in between events: the continuous angle
   points where the last raw angle points, the last raw angle is in
   [0, 360), and the overflow guard keeps the continuous angle within ten
   and a half turns.
   */
  predicate Consistent(s: State) {
    && WholeTurns(s.cont - s.prev)
    && InTurn(s.prev)
    && Abs(s.cont) <= OverflowBound + HalfTurn
  }

  /**
   Storing a raw angle in [0, 360) keeps the tracker consistent and, unless
   the overflow guard fires, turns it by at most half a turn.
   */
  lemma EffectKeepsConsistent(s: State, raw: real)
    ensures Consistent(s) && InTurn(raw) ==> Consistent(Effect(s, raw))
    ensures Consistent(s) && InTurn(raw) && !Overflows(s) ==>
      Abs(Effect(s, raw).cont - s.cont) <= HalfTurn
  {
    if Consistent(s) && InTurn(raw) && raw != s.prev && !Overflows(s) {
      assert Abs(Integrate(s, raw).cont - s.cont) <= HalfTurn;
    }
  }

  /**
   Replays a sequence of pointer events. The final previous raw angle is
   that of the last event, and consistency is preserved by every event.
   */
  function Replay(s: State, evs: seq<PointerEvent>): (r: State)
    ensures |evs| == 0 ==> r == s
    ensures |evs| > 0 ==> r.prev == RawAngle(evs[|evs| - 1])
    ensures Consistent(s) ==> Consistent(r)
    decreases |evs|
  {
    if |evs| == 0 then
      s
    else
      Replay(Handle(s, evs[0]), evs[1..])
  }

  lemma InitialConsistent()
    ensures Consistent(Initial)
  {
    WholeTurnsOf(0);
  }

  /** In a consistent state the rendered rotation points at the last raw angle. */
  lemma ConsistentPointsAtPrev(s: State)
    requires Consistent(s)
    ensures FloorMod360(s.cont) == s.prev
  {
    FloorModOfCongruent(s.cont, s.prev);
  }

  /**
   From the initial state, after any sequence of pointer events, the
   continuous angle (the rendered rotation) points exactly in the direction
   of the last raw angle, and its magnitude stays bounded.
   */
  lemma RenderedMatchesPointer(evs: seq<PointerEvent>)
    ensures FloorMod360(Replay(Initial, evs).cont) == Replay(Initial, evs).prev
    ensures Abs(Replay(Initial, evs).cont) <= OverflowBound + HalfTurn
    ensures |evs| > 0 ==> FloorMod360(Replay(Initial, evs).cont) == RawAngle(evs[|evs| - 1])
  {
    InitialConsistent();
    ConsistentPointsAtPrev(Replay(Initial, evs));
  }

  /** Replaying one more event is one more pointer event after the replay. */
  lemma {:induction false} ReplaySnoc(s: State, evs: seq<PointerEvent>, ev: PointerEvent)
    ensures Replay(s, evs + [ev]) == Handle(Replay(s, evs), ev)
    decreases |evs|
  {
    if |evs| > 0 {
      assert (evs + [ev])[0] == evs[0];
      assert (evs + [ev])[1..] == evs[1..] + [ev];
      ReplaySnoc(Handle(s, evs[0]), evs[1..], ev);
    } else {
      assert (evs + [ev])[1..] == [];
    }
  }

  /**
   From any consistent state, in particular the initial one, whatever the
   pointer does, the update for the `k`-th event turns the avatar by at
   most half a turn unless it is an overflow reset.
   */
  lemma NoJumpsExceptResets(s: State, evs: seq<PointerEvent>, k: nat)
    requires Consistent(s)
    requires k < |evs|
    ensures !Overflows(Replay(s, evs[..k])) ==>
      Abs(Replay(s, evs[..k + 1]).cont - Replay(s, evs[..k]).cont) <= HalfTurn
  {
    assert evs[..k + 1] == evs[..k] + [evs[k]];
    ReplaySnoc(s, evs[..k], evs[k]);
  }
}
