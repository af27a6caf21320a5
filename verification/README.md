# PacMan orientation tracker

A Dafny model of the pointer-orientation tracker of the PacMan page
(`app/page.tsx`). The avatar is rotated by a *continuous* angle that must
never jump when the pointer crosses the 0/360 seam. The tracker has two
parts:

- **Raw-angle normalisation** (module `Pointer`). The mouse and touch
  handlers take the arctangent angle from the avatar's centre to the
  pointer, add a calibration offset (−145 for the mouse, +180 for touch),
  take the JavaScript remainder by 360 and add 360 when that remainder is
  negative. The JavaScript `%` is a truncating remainder whose result has
  the sign of the dividend; module `Turns` models it and the floored
  remainder it is compared against.
- **Angle unwrapping** (module `Unwrap`). This is a state machine over
  `State(cont, prev)`: `cont` is the continuous rotation and `prev` is the
  previous raw angle. Each new raw angle is folded into `cont` along the
  shortest path. When `|cont| > 3600` the state snaps to `State(raw, raw)`.

Module `Tracker` ties them together. It models the pointer events, and
the effect that runs only when the stored raw angle changes. It then
replays any sequence of events from the initial state `State(0, 0)`.

Angles are exact `real`s in degrees. The `Math.atan2` result is an
abstract real; normalisation is proved for every real, not only for
[−180, 180].

## Model

| member | source | states |
|---|---|---|
| Turns.JsRem360 | app/page.tsx:61-62 | JavaScript `x % 360` lies strictly between −360 and 360, carries the sign of the dividend, and differs from `x` by whole turns |
| Pointer.Normalize | app/page.tsx:61-63 | the offset angle reduced by `%` and the negative fix-up lies in [0, 360) and points in the same direction as `a + offset` |
| Pointer.MouseAngle | app/page.tsx:61-63 | the mouse handler's raw angle lies in [0, 360) and is the arctangent angle minus 145 up to whole turns |
| Pointer.TouchAngle | app/page.tsx:79-81 | the touch handler's raw angle lies in [0, 360) and is the arctangent angle plus 180 up to whole turns |
| Pointer.NormalizeIsFloorMod | app/page.tsx:61-63 | truncating remainder plus the `< 0 ? + 360` fix-up equals the mathematical floored remainder modulo 360, for every input and offset |
| Pointer.MouseAngleCases | app/page.tsx:61-63 | for an arctangent angle in [−180, 180], the mouse raw angle is `a − 145` when `a ≥ 145` and `a + 215` otherwise |
| Pointer.TouchAngleCases | app/page.tsx:79-81 | for an arctangent angle in [−180, 180], the touch raw angle is `a + 180`, except that `a = 180` wraps to 0 |
| Unwrap.Step | app/page.tsx:24-40 | the increment differs from the raw difference by whole turns; it is the raw difference when that is at most 180; for raw angles in [0, 360) its magnitude is at most 180 |
| Unwrap.Integrate | app/page.tsx:16-44 | after an update `prev` is the new raw angle. Under overflow (`abs(cont) > 3600`) `cont` becomes exactly the raw angle. Otherwise `cont` moves by an increment congruent to the raw difference, and by at most 180 for in-range angles. The invariant "`cont − prev` is whole turns" is preserved on both paths |
| Unwrap.StepIsShortest | app/page.tsx:24-40 | among all increments congruent to the raw difference, the one taken has the smallest magnitude (the rotation takes the shortest path) |
| Unwrap.StepIsUnique | app/page.tsx:24-40 | any congruent increment smaller than 180 in magnitude is the one taken, so only the exact half-turn tie has two shortest paths |
| Unwrap.IntegrateBranches | app/page.tsx:25-40 | without overflow: no wrap adds `raw − prev`; a downward wrap (`prev > raw`) adds `raw − prev + 360`; an upward wrap adds `raw − prev − 360` |
| Unwrap.DownwardWrapExample | app/page.tsx:30-32 | going from 359 to 1 adds +2 to the continuous angle, not −358 |
| Unwrap.UpwardWrapExample | app/page.tsx:33-36 | going from 1 to 359 adds −2 to the continuous angle, not +358 |
| Unwrap.ResetKeepsDirection | app/page.tsx:17-22 | the overflow reset points the avatar in the same direction, modulo whole turns, as the normal update would have |
| Tracker.RawAngle | app/page.tsx:61-81 | each handler stores a raw angle in [0, 360) congruent to the arctangent angle plus that handler's offset |
| Tracker.Effect | app/page.tsx:16-44 | the effect fires only when the raw angle changes: an unchanged raw angle leaves the state exactly as it was, even above the overflow bound. Skipping it differs from running `Integrate` only when the raw angle is unchanged and the overflow guard would have fired. It preserves the whole-turns invariant |
| Tracker.Handle | app/page.tsx:16-81 | one pointer event (the handler stores its raw angle, then the effect runs) leaves `prev` equal to the event's raw angle, keeps a consistent tracker consistent, and without a reset moves `cont` by at most 180 |
| Tracker.EffectKeepsConsistent | app/page.tsx:16-44 | storing a raw angle in [0, 360) keeps `cont − prev` whole turns, `prev` in [0, 360) and `abs(cont) ≤ 3780`; without a reset `cont` moves by at most 180 |
| Unwrap.StepKeepsTurns | app/page.tsx:25-40 | adding the increment to a continuous angle congruent to the previous raw angle gives one congruent to the new raw angle |
| Tracker.Replay | app/page.tsx:5-44 | replaying events ends with `prev` equal to the last event's raw angle and preserves consistency |
| Tracker.InitialConsistent | app/page.tsx:5-7 | the initial state `cont = prev = 0` is consistent |
| Tracker.ReplaySnoc | app/page.tsx:16-44 | replaying one more event equals handling that event after the replay, so the effect is a left fold over the events |
| Tracker.NoJumpsExceptResets | app/page.tsx:18-43 | from any consistent state, including the initial one, the update for any event of any sequence turns the avatar by at most 180 degrees unless it is an overflow reset |
| Tracker.RenderedMatchesPointer | app/page.tsx:5-44 | from the initial state, after any events, the rendered rotation points exactly at the last raw angle (its floored remainder modulo 360 is that angle) and stays within 3780 degrees |

## Left out

- `calculateAngle` (`app/page.tsx:11-13`) is left out: `Math.atan2` and the conversion from radians to degrees are floating-point library calls. Their result is an abstract real input.
- Floating-point rounding is not modelled. In IEEE doubles, a tiny negative remainder plus 360 can round to exactly 360. With exact reals the raw angle is always below 360.
- The DOM and event plumbing is host I/O and is left out: the missing-container check, `getBoundingClientRect`, client coordinates, the avatar-centre computation and the `touches[0]` check (`app/page.tsx:46-58`, `66-78`).
- React rendering and batching are left out. The model treats each stored raw angle as one run of the effect, and a repeated value as no run (`Tracker.Effect`).
- The SVG markup, the `+3` degree CSS rotation offset and the CSS transition (`app/page.tsx:85-123`) are presentation only.
- `components/RedirectDialog.tsx` is not part of this model. It consists of timers, navigation and dialog state.

## Notes

- The mouse and touch handlers use different calibration offsets (−145 and +180). The model keeps both as written. It does not decide whether the asymmetry is intended.
- The raw angle is a real in [0, 360), not an integer from 0 to 359 as the handlers' comments suggest. The model follows the code.
