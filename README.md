# Dungeon-hack character state, modelled in Dafny

This project models the per-frame character state of `DeckComponent`, the
map view of the dungeon-hack application. The component keeps four pieces
of mutable state and updates them from input handlers and from a frame
callback:

- **held keys** (`keyPressed`): `keydown` adds the key, `keyup` removes it,
  the window's `blur` clears the set (module `Keys`);
- **map centre** (`center`): each frame the held direction keys propose a
  centre one fixed offset away per axis (opposite keys cancel); a proposal
  that moves is projected to a screen pixel, the map layer is picked under
  that pixel with radius 1, and the centre becomes the proposal snapped onto
  the picked polygon's outer ring, or the raw proposal when nothing was
  picked; a missing engine or a projection that yields no pixel leaves the
  centre unchanged (module `Movement`; a missing viewport, which makes the
  source throw, is under "Left out");
- **attack swing** (`actionStart`, `actionAngle`): a click arms the swing
  only when none is in flight; each frame computes
  `progress = (now - start) / 200` and a piecewise-linear angle that reaches
  half the target angle (-90 degrees) at progress 0.5 and mirrors back to 0 at
  progress 1; above progress 1 the swing ends (module `Swing`);
- **sprite rotation**: sprites flagged as action-linked (the right hand and
  the pickaxe) are drawn at the pointer angle plus the swing angle, the
  others at the pointer angle (module `Icons`).

`DeckModel.DeckComponent` is a class with the component's fields; its
handlers and frame routines change them in place and are each specified by
the pure functions of the modules above, where the properties are proved.
The engine's viewport projection and picking are the two function-valued
fields of `Movement.Deck`; an absent engine is `None`. The polyline snapping
routine (`nearestPointOnLine`) and `atan2` in degrees are function-valued
parameters. Nothing is assumed about what any of them returns. The wall
clock is the parameter `now`, in whole milliseconds. A ghost field,
`engineCalls`, records the projection and pick queries each frame makes, so
that the model can state when the engine is not queried at all.

Two places where the code's tests do not do what their names suggest:

- The swing ends only when the progress is strictly greater than 1: at
  progress exactly 1 the angle is 0 but the swing is still in flight
  (`Swing.ArmedAtFullProgress`). The model follows the code.
- A click tests the start time against `null`, while the frame tests it for
  truthiness, so a start time of 0 is "armed" for clicks and "idle" for
  frames. A click at time 0 therefore starts a swing that no frame ever ends
  (`Swing.ClickAtZeroNeverEnds`). The model keeps both tests as written;
  `Date.now()` is never 0 in practice.

## Model

| member | source | states |
|---|---|---|
| Keys.Apply | apps/dungeon-hack/src/app/deck/deck.component.ts:109-118 | key by key: after keydown the key is held along with every key held before; after keyup that key alone is gone; after blur no key is held |
| Keys.HeldIffPressedSinceRelease | apps/dungeon-hack/src/app/deck/deck.component.ts:109-118 | after any sequence of key events, a key is in the set exactly when it was pressed (or held at the start) and not released or blurred since |
| Keys.BlurForgetsEarlierKeys | apps/dungeon-hack/src/app/deck/deck.component.ts:109-111 | after a blur, a key not pressed again is not held, whatever was held before the blur |
| Movement.Proposal | apps/dungeon-hack/src/app/deck/deck.component.ts:158-172 | the proposal is the centre moved one offset left (a, ArrowLeft), right (d, ArrowRight), down (s, ArrowDown) or up (w, ArrowUp), opposite keys cancelling; it differs from the centre exactly when some axis does not cancel |
| Movement.CenterStep | apps/dungeon-hack/src/app/deck/deck.component.ts:174-199 | the new centre is the old one, the raw proposal, or the proposal snapped onto the ring of a polygon picked under the projected proposal; the engine is queried exactly when the proposal moves and the engine exists, first a projection of the proposal, then a pick only if the projection succeeded |
| Movement.AtRestNoQuery | apps/dungeon-hack/src/app/deck/deck.component.ts:158-177 | with no direction key held, or both axes cancelled, the frame makes no query and leaves the centre unchanged |
| Movement.UnprojectedIsNoop | apps/dungeon-hack/src/app/deck/deck.component.ts:178-181 | when the engine is absent or cannot project the proposal, the centre keeps its old value |
| Movement.MovingFrame | apps/dungeon-hack/src/app/deck/deck.component.ts:183-198 | a moving, projected frame makes one projection and one pick and commits the snapped point when the pick returns a polygon, otherwise the raw proposal |
| Movement.WalkOnOpenGround | apps/dungeon-hack/src/app/deck/deck.component.ts:155-199 | away from any polygon, n frames with the same keys move the centre n offsets per non-cancelled axis: speed is per frame, not per unit of time |
| Movement.NorthFromOrigin | apps/dungeon-hack/src/app/deck/deck.component.ts:155-199 | from (0, 0) holding w with nothing picked, the centre becomes (0, 0.00005) |
| Swing.Click | apps/dungeon-hack/src/app/deck/deck.component.ts:77-81 | a click records its time as the start only when no swing is in flight; otherwise the state is unchanged |
| Swing.SwingAngle | apps/dungeon-hack/src/app/deck/deck.component.ts:213-219 | above progress 0.5 the angle is the target times the remaining fraction of the swing |
| Swing.Tick | apps/dungeon-hack/src/app/deck/deck.component.ts:202-221 | a frame leaves a state with no (truthy) start alone; above progress 1 it returns to idle with angle 0; otherwise it keeps the start and sets the swing angle for the progress |
| Swing.SwingEndpoints | apps/dungeon-hack/src/app/deck/deck.component.ts:213-219 | the angle is 0 at progress 0 and 1 and half the target at progress 0.5 |
| Swing.SwingLinearAroundHalf | apps/dungeon-hack/src/app/deck/deck.component.ts:213-219 | the angle differs from its value at progress 0.5 by the target times (p - 0.5) before the turn and (0.5 - p) after it: both pieces meet at the turning point |
| Swing.SwingMirrored | apps/dungeon-hack/src/app/deck/deck.component.ts:213-219 | the angle at progress p equals the angle at 1 - p |
| Swing.SwingBounded | apps/dungeon-hack/src/app/deck/deck.component.ts:213-219 | for progress in [0, 1] the angle lies between 0 and half the target, so its magnitude never exceeds half the target's |
| Swing.WindUpMonotone | apps/dungeon-hack/src/app/deck/deck.component.ts:219 | during the wind-up the angle's magnitude grows with the progress |
| Swing.ArmedAtFullProgress | apps/dungeon-hack/src/app/deck/deck.component.ts:207-211 | at progress exactly 1 the angle is 0 and the swing is still in flight |
| Swing.ArmedClicksIgnored | apps/dungeon-hack/src/app/deck/deck.component.ts:77-81 | removing every click that arrives during a swing changes neither the final state nor any angle drawn |
| Swing.OneSwingInFlight | apps/dungeon-hack/src/app/deck/deck.component.ts:77-81 | until a swing's time is up, no click or frame replaces its start time |
| Swing.IdleStaysIdle | apps/dungeon-hack/src/app/deck/deck.component.ts:203 | without clicks, an animator holding no swing stays unchanged and every angle drawn is its angle |
| Swing.ClickAtZeroNeverEnds | apps/dungeon-hack/src/app/deck/deck.component.ts:203 | a click at time 0 starts a swing that no later click or frame changes |
| Swing.SwingTimeline | apps/dungeon-hack/src/app/deck/deck.component.ts:202-221 | with 200 ms and -90 degrees: -45 at 100 ms, 0 and still armed at 200 ms, idle at 201 ms |
| Icons.IconAngle | apps/dungeon-hack/src/app/deck/deck.component.ts:146 | action-linked sprites are turned from the pointer angle by the swing angle; the others are drawn at the pointer angle, so with no swing every sprite faces the pointer |
| Icons.ActionLinkedSprites | apps/dungeon-hack/src/app/deck/deck.component.ts:31-63 | exactly the right hand and the pickaxe follow the swing |
| Icons.DrawOrder | apps/dungeon-hack/src/app/deck/deck.component.ts:31-63 | the body is lowest, the face highest, the hands above the pickaxe |
| DeckModel.SwingTurnsSpritesAtMostHalfTarget | apps/dungeon-hack/src/app/deck/deck.component.ts:146 | during a swing the action-linked sprites turn between 0 and 45 degrees away from the pointer, towards the target |
| DeckModel.DeckComponent.constructor | apps/dungeon-hack/src/app/deck/deck.component.ts:24-30 | the centre starts at (0, 0), pointer angle 0, no key held, no swing, swing angle 0 |
| DeckModel.DeckComponent.OnBlur | apps/dungeon-hack/src/app/deck/deck.component.ts:109-111 | blur empties the held-key set and changes nothing else |
| DeckModel.DeckComponent.OnKeyUp | apps/dungeon-hack/src/app/deck/deck.component.ts:112-114 | keyup removes exactly that key and changes nothing else |
| DeckModel.DeckComponent.OnKeyDown | apps/dungeon-hack/src/app/deck/deck.component.ts:116-118 | keydown inserts the key and changes nothing else |
| DeckModel.DeckComponent.OnClick | apps/dungeon-hack/src/app/deck/deck.component.ts:77-81 | a click arms the swing at `now` as Swing.Click says; a start already set is kept |
| DeckModel.DeckComponent.OnHover | apps/dungeon-hack/src/app/deck/deck.component.ts:82-94 | a pointer off the map leaves the pointer angle unchanged; otherwise it is the bearing from centre to pointer in degrees less 270 |
| DeckModel.DeckComponent.UpdateCenter | apps/dungeon-hack/src/app/deck/deck.component.ts:155-200 | the centre becomes Movement.CenterStep's, and the queries made are exactly its calls |
| DeckModel.DeckComponent.UpdateAction | apps/dungeon-hack/src/app/deck/deck.component.ts:202-221 | the swing state becomes Swing.Tick's for `now` |
| DeckModel.DeckComponent.RenderLayers | apps/dungeon-hack/src/app/deck/deck.component.ts:223-240 | moves, then animates, then gives a camera on the new centre at zoom 16, every sprite's position at the new centre raised to its z-index, and each sprite's rotation per Icons.IconAngle |

## Left out

- `nearestPointOnLine` (a polyline-snapping library routine), the engine's viewport projection and picking, and `atan2`: foreign code, taken as function-valued parameters with no assumed properties; in particular the model does not claim the snapped point is the nearest point of the ring.
- Movement.CenterStep: the viewport lookup (`getViewports()[0]`) is folded into the engine's `project`, so only a missing engine or a failed projection is modelled, as a frame that leaves the centre unchanged; an empty viewport list makes the source throw instead, and any throw inside a frame (this one, or `lineString`'s below) ends the animation loop for good, because the next frame is requested only after the current one returns. The model does not capture that.
- `lineString` throwing on a ring with fewer than two points, and a picked feature without a first coordinate ring: library behaviour, not modelled; a picked polygon is reduced to its outer ring.
- Floating point: all coordinates, angles and the progress are reals, so opposite keys cancel exactly and a step is never absorbed by rounding; IEEE-754 rounding and NaN are not modelled.
- `ngAfterViewInit`: creating the engine and registering the listeners is plumbing; the constructor gives the initial field values and the engine is passed to each frame as an optional parameter.
- `animationLoop` and `requestAnimationFrame`: an unbounded loop driven by the display; a single frame is `RenderLayers`, and sequences of frames are modelled by `Movement.Walk` and `Swing.Run`.
- Layer construction (`GeoJsonLayer`, `IconLayer` options, icon atlas URLs, sizes, update triggers) and `setProps`: rendering configuration; `RenderLayers` returns only the camera and the sprites' positions and rotations.
- The trackout application and the empty application shell: engine and framework configuration with no logic of their own.
