# Orbit controls and MTL parsing, modelled in Dafny

This project models two parts of a small three.js viewer.

**The orbit camera controller.** `OrbitControls` keeps a camera orbiting a target. It has:

- a gesture state machine: none, rotate, dolly, pan, and their touch forms;
- the per-gesture anchors (rotate start, dolly start, pan start);
- the accumulators of one frame: the spherical delta, the dolly scale and the pan offset;
- a table of the active touch pointers, with a counter and a zoom-gesture flag;
- the `update` tick, which applies the accumulators to the spherical pose of the camera. The tick:
  - clamps the azimuth, the polar angle and the distance to their limits;
  - keeps the polar angle away from the poles;
  - adds the pan offset to the target;
  - decays or clears the delta;
  - reports a change.

Every DOM handler is a method of the class `Orbit.OrbitControls`, with field-granular `modifies` clauses. It takes the parts of the event it reads: the button, client or page coordinates, the touches, the key code, the pointer type and id. Every notification the controller dispatches is recorded in the ghost field `notices`, so the contracts say which start, end and change events a handler sends. Whether a tick reports a change is decided by the simplified change test described under "Left out".

The tick itself is a function, `Transform.Tick`, on a `Motion` record of the state it reads and writes. The methods are proved against it through the two-state predicate `TickedFrom`.

**The Wavefront MTL parser.** `MTLLoader.parse` works in these steps:

1. It splits the text into lines.
2. It trims each line and skips it when it is blank or a comment.
3. It splits the line at its first space into a lower-cased key and a trimmed value.
4. A `newmtl` line opens a fresh record `{name: value}` and registers it under its name.
5. Every other key is written into the record opened last. The keys `ka`, `kd` and `ks` store the first three whitespace-separated tokens of the value, each passed through `parseFloat`.

The result is the map of records together with `texturePath || path`. `Mtl.MTLLoader.Parse` is the loop, proved against a fold of a per-line step, `Mtl.ParseLines`. The string primitives it needs — `trim`, `indexOf`, `split`, the `/\s+/` split and `toLowerCase` — are in module `MtlText`, each with its specification.

Modules:

| module | contents |
|---|---|
| `Wrappers` | `Option` |
| `SphericalMath` | the clamps, `makeSafe`, the zoom scale, the angle helpers, the per-tick pose arithmetic and the decay |
| `Pointers` | the pointer table, the touch adapter and the dolly anchor |
| `Transform` | the camera-independent effect of each operation on the motion record, and the tick |
| `Orbit` | the controller class |
| `MtlText` | the string primitives |
| `Mtl` | the parser |

## Model

| member | source | states |
|---|---|---|
| SphericalMath.ClampBounds | src/utils/OrbitControls.ts:234-243 | `max(lo, min(hi, x))` is at least lo. It lies within ordered bounds, and leaves a value already within them unchanged. Below the lower bound it gives lo, above the upper bound hi. With crossed bounds it is always lo. |
| SphericalMath.ClampIdempotent | src/utils/OrbitControls.ts:234-243 | Clamping twice is clamping once. |
| SphericalMath.MakeSafeBounds | src/utils/OrbitControls.ts:240 | The safe polar angle lies in [EPS, π − EPS] and is unchanged when it already lies there. |
| SphericalMath.PowInUnit | src/utils/OrbitControls.ts:298-300 | A power of a base in (0, 1] stays in (0, 1]. It is below 1 for a positive exponent and a base below 1. |
| SphericalMath.ZoomScale | src/utils/OrbitControls.ts:298-300 | `0.95^zoomSpeed` is in (0, 1], below 1 for a positive speed, and 0.95 at the default speed 1. |
| SphericalMath.PinchZoomScale | src/utils/OrbitControls.ts:521-523 | The touch dolly scale (zoom scale times mobileZoomFactor) is positive. It equals the mouse zoom scale when the factor is 1. |
| SphericalMath.AutoRotationAngle | src/utils/OrbitControls.ts:294-296 | The angle per frame turns 2π·speed every 3600 frames: one turn per minute at 60 fps per unit of speed. |
| SphericalMath.DragAngle | src/utils/OrbitControls.ts:411-413 | A drag across the whole reference length turns 2π·rotateSpeed. No drag turns nothing. |
| SphericalMath.ApplyBounds | src/utils/OrbitControls.ts:234-243 | After one application of delta and scale, the azimuth and the radius are within their limits when these are ordered, and the polar angle is strictly between the poles. A value already within its limits is kept exactly. |
| SphericalMath.ApplyKeepsPolarLimits | src/utils/OrbitControls.ts:236-239 | When the polar limits lie inside [EPS, π − EPS], the polar angle after a tick respects them. |
| SphericalMath.SafeClampIdempotent | src/utils/OrbitControls.ts:236-239 | Clamping the polar angle and making it safe a second time changes nothing. |
| SphericalMath.ApplySettles | src/utils/OrbitControls.ts:234-243 | Re-applying a zero delta and the unit scale to a pose that has just been applied leaves it unchanged. |
| SphericalMath.DecayCases | src/utils/OrbitControls.ts:251-256 | Without damping the delta is cleared. With damping factor 1 it is also cleared, and with factor 0 it is kept. |
| SphericalMath.DecayThetaGeometric | src/utils/OrbitControls.ts:251-254 | n damped ticks scale the azimuth delta by (1 − dampingFactor)^n. |
| SphericalMath.DecayPhiGeometric | src/utils/OrbitControls.ts:251-254 | n damped ticks scale the polar delta by (1 − dampingFactor)^n. |
| SphericalMath.DecayGeometric | src/utils/OrbitControls.ts:251-254 | n damped ticks scale the whole delta geometrically. |
| Pointers.Find | src/utils/OrbitControls.ts:676 | A lookup finds a position exactly when the id is in the table, and the entry found is in the table. |
| Pointers.DistinctCons | src/utils/OrbitControls.ts:543 | A table with a leading entry has distinct ids exactly when the rest does and does not hold that id. |
| Pointers.SetPointer | src/utils/OrbitControls.ts:687-694 | After recording, the id maps to the new position and every other id maps to what it did before. The table grows by one exactly when the id was new, and the ids stay distinct. |
| Pointers.RemovePointer | src/utils/OrbitControls.ts:676-677 | After deleting, the id is absent and every other id is unchanged. The ids stay distinct, and the table shrinks by one exactly when the id was present. |
| Pointers.PointersToTouchAdapter.constructor | src/utils/OrbitControls.ts:4-18 | The adapter has one touch per table entry, in table order, whose page coordinates are the entry's client coordinates. |
| Pointers.PinchOf | src/utils/OrbitControls.ts:484-490 | The pinch anchor of two touches is a (squared) distance, never negative. |
| Pointers.TablePinch | src/utils/OrbitControls.ts:707 | A pinch can be read off the pointer table exactly when it holds at least two pointers, and it is a non-negative squared distance. |
| Pointers.SquareMonotone | src/utils/OrbitControls.ts:517-524 | For non-negative distances, comparing squares gives the same sign as comparing the distances. |
| Pointers.RiseIsSignOfDifference | src/utils/OrbitControls.ts:423-427 | The dolly direction computed from anchors is the sign of the difference of the y coordinates, or of the pinch distances they denote. |
| Transform.RotateLeft | src/utils/OrbitControls.ts:302-304 | rotateLeft subtracts the angle from the azimuth delta and touches nothing else. |
| Transform.RotateUp | src/utils/OrbitControls.ts:306-308 | rotateUp subtracts the angle from the polar delta and touches nothing else. |
| Transform.DollyIn | src/utils/OrbitControls.ts:358-369 | A perspective camera divides the scale by the dolly scale. An orthographic camera multiplies the zoom and clamps it to the zoom limits, and marks the zoom changed. An unknown camera leaves the motion alone. |
| Transform.DollyOut | src/utils/OrbitControls.ts:371-383 | A perspective camera multiplies the scale. An orthographic camera divides the zoom and clamps it, and marks it changed. An unknown camera leaves the motion alone. |
| Transform.DollyOutUndoesDollyIn | src/utils/OrbitControls.ts:358-383 | On a perspective camera, dolly out by the same scale exactly undoes dolly in. |
| Transform.Dolly | src/utils/OrbitControls.ts:423-427 | No rise, no dolly. Otherwise the sign of the rise selects dolly in or dolly out, as the handler's direction convention says. |
| Transform.Drag | src/utils/OrbitControls.ts:403-417 | A drag only changes the delta: it rotates left by the horizontal drag angle over the reference width and up by the vertical drag angle over the given height. |
| Transform.PanBy | src/utils/OrbitControls.ts:331-356 | A pan of a known camera by a non-zero step appends the step to the offset. An unknown camera, or a pan of no pixels, leaves the motion alone. |
| Transform.ZeroPanReportsNoChange | src/utils/OrbitControls.ts:262-269 | After a settled tick, a pan of no pixels followed by another tick reports no change, as adding the zero vector leaves the target where it was. |
| Transform.TickDelta | src/utils/OrbitControls.ts:231-233 | Auto-rotation, when on and idle, rotates the delta left by the auto-rotation angle. Otherwise the delta is used as it is. |
| Transform.TickRadius | src/utils/OrbitControls.ts:194-198 | A one-shot scale of value / radius sets the radius to value when the distance limits allow it. |
| Transform.TickSettles | src/utils/OrbitControls.ts:251-268 | With damping off and no auto-rotation, a second tick without new input reports no change and changes nothing. |
| Transform.TickWithinLimits | src/utils/OrbitControls.ts:234-243 | Every tick leaves the azimuth and the radius within ordered limits, and the polar angle strictly between the poles. |
| Orbit.ChangeNotice | src/utils/OrbitControls.ts:262-268 | A tick dispatches one change notification when it reports a change, and none otherwise. |
| Orbit.ButtonMode | src/utils/OrbitControls.ts:553-565 | The orbit button selects rotate. Otherwise the zoom button selects dolly, otherwise the pan button selects pan, and any other button selects nothing. |
| Orbit.TouchMode | src/utils/OrbitControls.ts:616-634 | One, two and three touches select touch rotate, dolly and pan. Every other count selects nothing. |
| Orbit.KeyPan | src/utils/OrbitControls.ts:459-476 | Up, bottom, left and right, tested in that order, pan by (0, s), (0, −s), (s, 0) and (−s, 0) for the key pan speed s. Any other key pans not at all. |
| Orbit.OrbitControls.constructor | src/utils/OrbitControls.ts:31-93 | Every option takes its default. The reset values are the initial target, position and zoom. There is no gesture and no pointer. One tick has run, and one change has been dispatched. |
| Orbit.OrbitControls.RotateLeft | src/utils/OrbitControls.ts:302-304 | The motion becomes Transform.RotateLeft of the old motion. |
| Orbit.OrbitControls.RotateUp | src/utils/OrbitControls.ts:306-308 | The motion becomes Transform.RotateUp of the old motion. |
| Orbit.OrbitControls.DollyIn | src/utils/OrbitControls.ts:358-369 | The motion becomes Transform.DollyIn of the old one. An unknown camera switches zoom off and every other option stays. |
| Orbit.OrbitControls.DollyOut | src/utils/OrbitControls.ts:371-383 | The motion becomes Transform.DollyOut of the old one. An unknown camera switches zoom off. |
| Orbit.OrbitControls.DollyStep | src/utils/OrbitControls.ts:423-427 | The motion becomes Transform.Dolly of the old one. Zoom is switched off only by a real step on an unknown camera. |
| Orbit.OrbitControls.Pan | src/utils/OrbitControls.ts:331-356 | The motion becomes Transform.PanBy of the old one, so a pan of no pixels leaves it alone. An unknown camera switches pan off. |
| Orbit.OrbitControls.Advance | src/utils/OrbitControls.ts:228-259 | The pose is the clamped application of the (auto-rotated) delta and scale. The delta decays, the target takes the pan offset, and the scale and offset reset. |
| Orbit.OrbitControls.DetectChange | src/utils/OrbitControls.ts:262-269 | A change is reported exactly when the zoom changed or the view differs from the last one. It is dispatched once, the view is remembered, and the zoom flag cleared. |
| Orbit.OrbitControls.Update | src/utils/OrbitControls.ts:224-271 | The new motion and the dispatched notification are exactly one Transform.Tick of the old motion, and the result is the tick's change flag. |
| Orbit.OrbitControls.SetSphericalRadius | src/utils/OrbitControls.ts:194-198 | One tick from the old motion with scale value / radius. A radius within the distance limits is then exactly value. |
| Orbit.OrbitControls.Reset | src/utils/OrbitControls.ts:205-213 | Target, pose and zoom return to their reset values. A change is dispatched, then one tick runs with its own notification, and the gesture ends. |
| Orbit.OrbitControls.OnMouseDown | src/utils/OrbitControls.ts:550-571 | Nothing happens when the controller is disabled or the selected gesture is disabled. Otherwise the button's gesture becomes the state and only its anchor moves to the event. A start is dispatched when a gesture is active. |
| Orbit.OrbitControls.HandleMoveRotate | src/utils/OrbitControls.ts:403-417 | One tick after the drag from the rotate anchor, with the vertical angle measured against the given height. The anchor moves to the event. |
| Orbit.OrbitControls.HandleMovePan | src/utils/OrbitControls.ts:432-439 | One tick after a pan by the drag from the pan anchor. The anchor moves to the event, and an unknown camera switches pan off. |
| Orbit.OrbitControls.HandleMouseMoveDolly | src/utils/OrbitControls.ts:419-430 | One tick after dolly in on moving down, or dolly out on moving up, by the zoom scale. The anchor moves to the event. |
| Orbit.OrbitControls.OnMouseMove | src/utils/OrbitControls.ts:573-588 | Ignored during a pinch, when disabled, outside a mouse gesture, or when the active gesture's flag is off. Otherwise exactly the active gesture's move runs. The vertical rotation is measured against the reference width, as the source does. The other anchors stay. |
| Orbit.OrbitControls.ContinueMouseGesture | src/utils/OrbitControls.ts:578-587 | In rotate, dolly or pan state, exactly that gesture's move runs: one tick after the drag from its anchor, the anchor moved to the event, and the other anchors kept. |
| Orbit.OrbitControls.OnMouseUp | src/utils/OrbitControls.ts:590-597 | When enabled, the gesture ends with exactly one end notification. When disabled, nothing changes. |
| Orbit.OrbitControls.HandleMouseWheel | src/utils/OrbitControls.ts:446-455 | One tick after dolly out on a wheel turned up, or dolly in on one turned down, by the zoom scale. |
| Orbit.OrbitControls.OnMouseWheel | src/utils/OrbitControls.ts:599-606 | Ignored when disabled, when zoom is off, or during a gesture other than rotate. Otherwise the wheel's tick, then a start and an end notification. |
| Orbit.OrbitControls.HandleKeyDown | src/utils/OrbitControls.ts:457-477 | An arrow key pans by its KeyPan step and one tick runs. Any other key changes nothing. |
| Orbit.OrbitControls.OnKeyDown | src/utils/OrbitControls.ts:608-611 | Keys act only when the controller, the keys and pan are all enabled; then as HandleKeyDown. |
| Orbit.OrbitControls.HandleTouchStartDolly | src/utils/OrbitControls.ts:484-490 | With two touches or more, the dolly anchor becomes their pinch. With fewer, the missing touch throws a TypeError and the anchor is kept. |
| Orbit.OrbitControls.OnTouchStart | src/utils/OrbitControls.ts:613-638 | Nothing happens when disabled or when the count's gesture is off. One, two or three touches start touch rotate, dolly or pan: that gesture's anchor is set and a start is dispatched. Any other count ends the gesture silently. |
| Orbit.OrbitControls.HandleDollyMove | src/utils/OrbitControls.ts:513-528 | One tick after the dolly step the anchor's rise selects. The anchor moves to the new position. |
| Orbit.OrbitControls.HandleTouchMoveDolly | src/utils/OrbitControls.ts:513-528 | With two touches, one tick after dolly out on a widening pinch, or dolly in on a narrowing one, by the zoom scale times mobileZoomFactor. With fewer, a TypeError and no change. |
| Orbit.OrbitControls.OnTouchMove | src/utils/OrbitControls.ts:640-664 | Ignored when disabled, or when the count's gesture is off or not the active one. Otherwise exactly that gesture's move runs, with the vertical rotation against the reference height. Any other count ends the gesture and changes nothing else. |
| Orbit.OrbitControls.ContinueTouchGesture | src/utils/OrbitControls.ts:645-663 | One, two or three touches run exactly the rotate, dolly or pan move of the first touches. Any other count sets the state to none and changes nothing else. |
| Orbit.OrbitControls.OnTouchEnd | src/utils/OrbitControls.ts:666-672 | When enabled, the gesture ends with exactly one end notification. When disabled, nothing changes. |
| Orbit.OrbitControls.SetPointer | src/utils/OrbitControls.ts:687-694 | The table becomes Pointers.SetPointer of the old one, at the event's client position. |
| Orbit.OrbitControls.ReleasePointer | src/utils/OrbitControls.ts:674-681 | An unknown pointer changes nothing. A known one leaves the table and the counter, each by one, and the pinch ends unless two remain. |
| Orbit.OrbitControls.PinchStart | src/utils/OrbitControls.ts:707 | The dolly anchor becomes the pinch of the first two table entries, or a TypeError when there are fewer. |
| Orbit.OrbitControls.PinchMove | src/utils/OrbitControls.ts:720 | The touch dolly move on the first two table entries, or a TypeError and no change when there are fewer. |
| Orbit.OrbitControls.OnPointerDown | src/utils/OrbitControls.ts:698-711 | Non-touch pointers change nothing. A touch pointer is recorded and counted, and the pinch flag is exactly "the counter is two". On the second pointer with zoom on, touch dolly starts from the table's pinch. |
| Orbit.OrbitControls.OnPointerMove | src/utils/OrbitControls.ts:713-722 | Only a known touch pointer counts. Its entry is updated, and during a pinch with zoom on the dolly follows the table's pinch (or a TypeError on a short table). Otherwise the motion and the notifications are unchanged. |
| MtlText.TrimStartSpec | src/utils/MTLLoader.ts:105-114 | The leading trim drops exactly a run of white space: the result is a suffix that does not start with white space, and everything dropped is white space. |
| MtlText.TrimEndSpec | src/utils/MTLLoader.ts:105-114 | The trailing trim drops exactly a run of white space: the result is a prefix that does not end with white space, and everything dropped is white space. |
| MtlText.TrimSlice | src/utils/MTLLoader.ts:105-114 | `trim()` is a slice of its input, and a non-empty result neither starts nor ends with white space. |
| MtlText.TrimKeeps | src/utils/MTLLoader.ts:105-114 | A string that neither starts nor ends with white space is its own trim. |
| MtlText.TrimIdempotent | src/utils/MTLLoader.ts:105-114 | Trimming twice is trimming once. |
| MtlText.IndexOfSpec | src/utils/MTLLoader.ts:110 | `indexOf` gives the first occurrence, or −1 exactly when there is none. |
| MtlText.IndexOfAt | src/utils/MTLLoader.ts:110 | The first occurrence at n is found at n. |
| MtlText.Split | src/utils/MTLLoader.ts:99 | `split('\n')` has at least one piece. |
| MtlText.SplitPiecesFree | src/utils/MTLLoader.ts:99 | No piece of a split holds the separator. |
| MtlText.JoinSplit | src/utils/MTLLoader.ts:99 | Joining the pieces of a split with the separator gives back the text. |
| MtlText.SplitJoin | src/utils/MTLLoader.ts:99 | Splitting a join of separator-free pieces gives back the pieces. |
| MtlText.SpaceRunEndSpec | src/utils/MTLLoader.ts:123 | The end of a white-space run: everything up to it is white space, and what follows is not. |
| MtlText.IndexOfSpaceSpec | src/utils/MTLLoader.ts:123 | The first white-space character, or −1 exactly when there is none. |
| MtlText.SplitWsNoSpace | src/utils/MTLLoader.ts:123 | No piece of a `/\s+/` split holds white space. |
| MtlText.SplitWsLosesOnlySpace | src/utils/MTLLoader.ts:123 | The pieces of a `/\s+/` split, concatenated, are the text with its white space removed: nothing else is lost. |
| MtlText.SplitWsFirstNonEmpty | src/utils/MTLLoader.ts:123 | A text not starting with white space has a non-empty first piece. |
| MtlText.SplitWsLastNonEmpty | src/utils/MTLLoader.ts:123 | A text not ending with white space has a non-empty last piece. |
| MtlText.SpaceRunOver | src/utils/MTLLoader.ts:123 | A run of white space that ends before a non-white-space character, or at the end of the text, is skipped exactly to its end. |
| MtlText.SplitWsWhole | src/utils/MTLLoader.ts:123 | A text without white space is a single piece. |
| MtlText.SplitWsCons | src/utils/MTLLoader.ts:123 | A token, a non-empty run of white space and a text that does not start with white space split into the token followed by the pieces of that text: the cut falls exactly at the run. |
| MtlText.SplitWsPiecesNonEmpty | src/utils/MTLLoader.ts:123 | Every piece between the first and the last is non-empty: runs of white space are single separators. |
| MtlText.ToLowerSpec | src/utils/MTLLoader.ts:112 | `toLowerCase` maps every character to its lower-case form, position by position. |
| MtlText.ToLowerIdempotent | src/utils/MTLLoader.ts:112 | A lower-cased key has no upper-case letter, and lower-casing it again changes nothing. |
| Mtl.FieldOf | src/utils/MTLLoader.ts:121-127 | Exactly `ka`, `kd` and `ks` store a colour triple. Every other key stores the value text as it is. |
| Mtl.Step | src/utils/MTLLoader.ts:115-128 | Each line keeps the invariant that the record being written is registered in the result. |
| Mtl.Kinds | src/utils/MTLLoader.ts:100-120 | There is one reading per line. |
| Mtl.KindsAt | src/utils/MTLLoader.ts:100-120 | The i-th reading is the classification of the i-th line. |
| Mtl.KindsAppend | src/utils/MTLLoader.ts:100 | Two stretches of lines are read one after the other. |
| Mtl.Fold | src/utils/MTLLoader.ts:100-129 | Running the loop keeps the registration invariant. |
| Mtl.ParseLines | src/utils/MTLLoader.ts:100-129 | The whole loop keeps the registration invariant. |
| Mtl.ParseLinesSnoc | src/utils/MTLLoader.ts:100-129 | One more line is one more step of the loop. |
| Mtl.FoldAppend | src/utils/MTLLoader.ts:100-129 | The loop over two stretches is the loop over the first, then over the second from where it left off. |
| Mtl.SkippedLineIgnored | src/utils/MTLLoader.ts:104-109 | A blank or comment line, anywhere in the text, has no effect on the result. |
| Mtl.KeyValueAtFirstSpace | src/utils/MTLLoader.ts:110-114 | The key is the lower-cased text before the first space and the value the trimmed rest. |
| Mtl.KeyValueNoSpace | src/utils/MTLLoader.ts:110-114 | A line without a space is all key, lower-cased, with the empty value. |
| Mtl.NewmtlOpensRecord | src/utils/MTLLoader.ts:115-120 | `newmtl v` makes v the current record and registers a fresh `{name: v}` under v, replacing any earlier one. All other records are unchanged. |
| Mtl.FoldKeys | src/utils/MTLLoader.ts:115-120 | The loop only adds names, and only those of `newmtl` lines. |
| Mtl.ResultKeys | src/utils/MTLLoader.ts:115-120 | A name is a key of the result exactly when some line of the text is `newmtl` with that name. |
| Mtl.NoNewmtlKeepsInitial | src/utils/MTLLoader.ts:100-121 | Without a `newmtl` line the loop leaves the initial state. |
| Mtl.PreludeIgnored | src/utils/MTLLoader.ts:100-121 | Property lines before the first `newmtl` go into the unregistered initial object: they do not show in the result, and dropping them changes nothing. |
| Mtl.PropertyStored | src/utils/MTLLoader.ts:121-128 | A property line writes its field into the record opened last. The set of records is the same, and every other field of every record keeps its value. |
| Mtl.RepeatedKeyOverwrites | src/utils/MTLLoader.ts:121-128 | Of two values for the same key in the same record, the later one wins. |
| Mtl.PropertyLine | src/utils/MTLLoader.ts:104-121 | A non-blank, non-comment line whose key is not `newmtl` is a property line with that key and value. |
| Mtl.ColorOfThreeTokens | src/utils/MTLLoader.ts:123-124 | A colour value of three tokens separated by non-empty runs of any white space, possibly followed by more after white space, stores parseFloat of exactly those three. |
| Mtl.SplitWsThree | src/utils/MTLLoader.ts:123 | The first three pieces of three tokens separated by runs of white space are the tokens. |
| Mtl.SplitWsTwo | src/utils/MTLLoader.ts:123 | The first two pieces of two tokens separated by a run of white space are the tokens. |
| Mtl.SplitWsBefore | src/utils/MTLLoader.ts:123 | A token followed by white space is the first of at least two pieces. |
| Mtl.ColorOfOneToken | src/utils/MTLLoader.ts:123-124 | A colour value of one token stores parseFloat of it and parseFloat(undefined) twice. |
| Mtl.BasePathChoice | src/utils/MTLLoader.ts:130 | The base path is the texture path when that is set and non-empty, and the general path otherwise. It is usable exactly when one of the two is. |
| Mtl.MTLLoader.constructor | src/utils/MTLLoader.ts:11-20 | Both paths start unset. |
| Mtl.MTLLoader.SetPath | src/utils/MTLLoader.ts:54-56 | The general path becomes the argument. |
| Mtl.MTLLoader.SetTexturePath | src/utils/MTLLoader.ts:70-72 | The texture path becomes the argument. |
| Mtl.MTLLoader.SetBaseUrl | src/utils/MTLLoader.ts:74-77 | The deprecated alias sets the texture path. |
| Mtl.ReadLine | src/utils/MTLLoader.ts:104-128 | One pass of the loop body over a line is one Step by the classification of that line. |
| Mtl.MTLLoader.Parse | src/utils/MTLLoader.ts:98-135 | The records of the loop over the lines of `split('\n')` are exactly ParseLines of those lines. The base path is `texturePath \|\| path`. |

## Left out

- Trigonometry, vectors, quaternions, `lookAt`, the camera matrices and `updateProjectionMatrix` are not modelled. The pose is the spherical record, and the conversion at the start and end of `update` (OrbitControls.ts:225-229, 246-250) is taken as the identity. The source renormalises the azimuth there; the model does not.
- Transform.PanBy: a pan is kept as the symbolic screen-space request `PanStep(deltaX, deltaY)` appended to the offset. The field-of-view and element-size arithmetic of `panLeft`/`panUp` (OrbitControls.ts:310-349) is left out, and so is the vector sum of the target.
- Orbit.OrbitControls.DetectChange: the change test uses exact inequality of the view (target and pose) in place of the squared-displacement and quaternion tests against EPS (OrbitControls.ts:265). A movement smaller than EPS counts as a change in the model and not in the source. So do pans that cancel within one frame, because the model keeps the pan offset as a list of steps rather than their sum. Before the first tick the model has no last view, so the tick of the constructor always reports a change; the source compares that first view with the origin and the identity quaternion (OrbitControls.ts:220-221).
- SphericalMath.ZoomScale: `zoomSpeed` is a natural number, because `Math.pow` with a real exponent has no counterpart over Dafny's reals. The default 1 is covered.
- Orbit.OrbitControls.HandleTouchMoveDolly: `mobileZoomFactor` is a positive real (type `PositiveReal`). A zero or negative factor, which the source would accept, is not modelled.
- Orbit.OrbitControls.SetSphericalRadius: requires a non-zero radius. For a zero radius the source divides by zero into Infinity or NaN, which the reals cannot express.
- Pointers.PinchOf: the pinch distance is kept squared, so `Math.sqrt` is not needed. The direction of a dolly is the same (Pointers.RiseIsSignOfDifference), but the anchor does not hold the distance itself.
- The mouse dolly anchor keeps only its y coordinate, the only one `handleMouseMoveDolly` reads.
- Orbit.OrbitControls.constructor: listener registration and removal (`addEventListener`, `removeEventListener`, `dispose`), `preventDefault`, `stopPropagation`, `console` output and `makeObservable` are side effects on the DOM and the runtime, and are left out.
- The flag `touchSupported` is recorded but does not gate the pointer handlers. Whether they are installed at all (OrbitControls.ts:164-171) is up to the caller.
- `isZoomValid` (always true), and `cameraRotatedEvent` and `cameraMovedEvent` (empty hooks), have no effect and are left out. So are the empty `handleMouseUp` and `handleTouchEnd`.
- `onContextMenu` and the deprecated aliases after OrbitControls.ts:724 only forward or warn; they are not modelled.
- Orbit.OrbitControls.Reset: the pending delta and pan offset are not cleared by `reset`, so they enter the tick it runs, as in the source.
- The options are bundled into one record, the public field `settings`. A caller may assign it at any time (the application's store assigns options directly), and every handler's contract holds for any value of it. The only changes the handlers themselves make are switching zoom or pan off.
- GetSphericalRadius, GetPolarAngle and GetAzimuthalAngle are plain field reads and carry no contract.
- `MTLLoader.load`, the file loader, `setCrossOrigin`, `setMaterialOptions`, the manager and the `MaterialCreator` are I/O or code outside the parser, and are not modelled. `Parse` hands on the records and the base path the creator is made from.
- Mtl.FieldOf: `parseFloat` is kept symbolic, as the token it is applied to (`ParseFloat(None)` for `undefined`).
- Mtl.Step: keys that are `Object.prototype` names (such as `__proto__`) are plain map keys in the model, not the JavaScript object quirks.
- MtlText.ToLower: lower-casing covers the ASCII letters only; the Unicode case mappings of `toLowerCase` are left out. Keys are ASCII in practice.
- Property lines are written through the name of the record opened last. This matches writing through the shared object `info`, because only a `newmtl` line replaces that record, and it also moves `info`.
