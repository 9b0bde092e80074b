# Gesture canvas and pinch-driven tab desk, modelled in Dafny

This project models the core of a hand-gesture interface. A webcam hand
tracker drives a cursor. In PLAYGROUND mode the cursor grabs, drags and
throws objects that obey a small rigid-body physics. The BROWSE screen
shows floating browser tabs. Its pinch effect is written to move,
resize, click and double-click them from the cursor samples the canvas
publishes. As wired, though, the canvas publishes nothing in BROWSE mode
(see the conventions below). Specifically, the model covers:

- `utils/physics.ts` (module `Physics`): point smoothing, the adaptive
  smoother, and `updatePhysics` for the SHAPES bodies.
- `components/GestureCanvas.tsx`, the per-frame rules (module
  `Gestures`): fist strength, the safe-zone remap, the grab latch shared
  by both playground activities, the SHAPES and ROBOT per-object rules,
  and `updateMechaPhysics`.
- `components/GestureCanvas.tsx`, the frame loop (module `Canvas`): one
  camera frame of `predictWebcam` as a value (`FrameStep`), and a class
  `GestureCanvas` whose fields are the component's refs and whose methods
  run the same frame in place.
- `components/BrowseScreen.tsx`, the panel operations (module `Tabs`):
  `createTab`, `closeTab`, `toggleMaximize`, `toggleCollapse`,
  `reloadTab`, the z-ordered scan for a resize or drag handle, resize and
  drag geometry, click classification and click hit-testing.
- `components/BrowseScreen.tsx`, the pinch effect (module `Browse`): one
  run of the pinch effect as a value (`EffectStep`), and a class
  `BrowseScreen` whose `OnCursor` runs it in place on the tab state and
  the drag, resize and pinch refs.

Conventions:

- Numbers are modelled as reals.
- Every `Math.hypot(...) < r` or `> r` comparison is stated on squared
  distances. `Within` and `Beyond` are proved to agree with the distance
  comparison for any non-negative `d` with `d * d` equal to the squared
  distance.
- Calls into code the model cannot see become parameters of the model:
  `smoothScalar`, the cos/sin hand push, `Math.random`, `Date.now`,
  `performance.now`, and the window and canvas size.
- `!grabbedIdRef.current` is false for the id `0` as well as for `null`.
  `NoGrab` models both cases.
- In BROWSE mode `predictWebcam` returns before any tracking
  (`components/GestureCanvas.tsx:136-140`). That return also comes before
  the only `onCursorUpdate` call (`components/GestureCanvas.tsx:253`).
  `App.tsx:151,162` gives `BrowseScreen` no other source of cursor
  samples. So while the browse screen is shown, its pinch effect sees only
  the last PLAYGROUND sample, once, when the screen mounts.
  `FrameStep` states this: a BROWSE frame changes nothing and publishes
  `None`. The `0.05` smoothing factor chosen for BROWSE at
  `components/GestureCanvas.tsx:180` is therefore never used. `Tracked`
  keeps that branch, and `FrameStep` never reaches it.
- React runs the pinch effect again whenever `tabs` or `maxZ` change.
  `EffectRerunChangesNothing` proves that such a re-run with the same
  cursor sample reports nothing and changes nothing. So one `EffectStep`
  per cursor sample is the whole behaviour.

## Model

| member | source | states |
|---|---|---|
| Types.DistSq | utils/physics.ts:69-71 | the squared distance is non-negative and zero from a point to itself |
| Types.WithinIffDistance | utils/physics.ts:69-71 | for any distance d >= 0 with d*d the squared distance, `d < r` holds exactly when `Within(p, q, r)` |
| Types.BeyondIffDistance | components/BrowseScreen.tsx:356-358 | for any non-negative distance d, `d > r` (r >= 0) holds exactly when `Beyond(p, q, r)` |
| Types.DistSqSymmetric | utils/physics.ts:69-71 | distance does not depend on argument order |
| Physics.SmoothPoint | utils/physics.ts:7-12 | blend 0 keeps the current point, blend 1 reaches the target, a point already at the target stays |
| Physics.LerpCoordinate | utils/physics.ts:9-10 | with a blend in [0,1] one lerped coordinate lies between its ends and is no farther from either end than the ends are apart |
| Physics.SmoothPointOnSegment | utils/physics.ts:7-12 | with a blend in [0,1] the smoothed point lies between current and target on both axes and is no farther from either end than they are from each other |
| Physics.SpeedFactor | utils/physics.ts:18-25 | the speed factor is in [0,1], 0 when still and 1 from a movement of 100 on |
| Physics.SpeedFactorIsSquaredSpeed | utils/physics.ts:18-25 | for every distance d, the factor computed from d*d equals `min(d/100, 1)^2`, so no square root is needed |
| Physics.AdaptiveAlpha | utils/physics.ts:27 | the blend is minAlpha when still and maxAlpha from a movement of 100 on |
| Physics.AdaptiveAlphaBetween | utils/physics.ts:27 | the blend always lies between minAlpha and maxAlpha |
| Physics.SmoothPointAdaptive | utils/physics.ts:15-33 | a cursor already on its target stays there |
| Physics.AdaptiveNoOvershoot | utils/physics.ts:15-33 | with 0 <= minAlpha <= maxAlpha <= 1 the result lies between current and target on both axes and never moves away from the target |
| Physics.Snap | utils/physics.ts:48-49 | speeds below 0.01 become 0; others are kept |
| Physics.AxisStep | utils/physics.ts:40-66 | a body that fits stays within [radius, extent - radius]; without wall contact it advances by its old velocity and keeps the snapped damped velocity; on contact that velocity is reflected with restitution |
| Physics.AxisSpeedNonIncreasing | utils/physics.ts:43-66 | with friction and restitution in [0,1] an axis never speeds up |
| Physics.PhysicsStep | utils/physics.ts:36-67 | grabbed bodies are untouched; only position and velocity change; each axis takes one AxisStep; a body that fits ends inside the walls |
| Physics.PhysicsStepSpeedNonIncreasing | utils/physics.ts:43-66 | with friction and restitution in [0,1] neither velocity component grows |
| Physics.StepFields | utils/physics.ts:39-66 | the statement-by-statement field updates produce exactly AxisStep on each axis |
| Physics.UpdatePhysics | utils/physics.ts:36-67 | the in-place update equals PhysicsStep |
| Gestures.Clamp01 | components/GestureCanvas.tsx:117 | the result is in [0,1] and equals the input when that is already in [0,1] |
| Gestures.FistStrength | components/GestureCanvas.tsx:100-119 | strength is in [0,1]: 1 at or below 0.20, 0 at or above 0.55 |
| Gestures.FistStrengthMonotone | components/GestureCanvas.tsx:100-119 | a smaller average tip distance never gives a weaker fist |
| Gestures.SafeZone | components/GestureCanvas.tsx:165-169 | the remap lies in [0,1], is linear on [0.2, 0.8] and clamps outside it |
| Gestures.SafeZoneMonotone | components/GestureCanvas.tsx:165-169 | the remap preserves order |
| Gestures.GrabLatch | components/GestureCanvas.tsx:196-201 | grab first, then release: release happens exactly when wanted and the object is (or just became) the holder, clearing flag and holder; a grab needs nothing held |
| Gestures.AtMostOneGrabbed | components/GestureCanvas.tsx:194-205 | in a consistent grab state no two objects are flagged grabbed |
| Gestures.LatchKeepsConsistency | components/GestureCanvas.tsx:194-205 | running the latch on any object keeps ids, flags and holder consistent |
| Gestures.ShapesStep | components/GestureCanvas.tsx:194-205 | the grab flag and holder follow GrabLatch with pinch-within-radius+60; a throw sets velocity to 0.9 of the cursor movement; a held body moves 0.92 of the way to the cursor with zero velocity; nothing else changes |
| Gestures.ShapesPass | components/GestureCanvas.tsx:194-205 | the SHAPES loop keeps the number and ids of the bodies |
| Gestures.ShapesStepKeepsConsistency | components/GestureCanvas.tsx:194-205 | one body step anywhere in the list keeps the grab state consistent |
| Gestures.ShapesPassKeepsConsistency | components/GestureCanvas.tsx:194-205 | the whole SHAPES loop keeps the grab state consistent, so at most one body is held |
| Gestures.ShapesPassNoneInReach | components/GestureCanvas.tsx:196-197 | pinching with no body within reach grabs nothing |
| Gestures.ShapesFirstInReachWins | components/GestureCanvas.tsx:196-197 | pinching with nothing held grabs the first body in list order within reach |
| Gestures.ShapesPassKeepsHolder | components/GestureCanvas.tsx:194-205 | without a pinch, a holder id that no body has survives the whole loop |
| Gestures.ShapesPassThrows | components/GestureCanvas.tsx:199-202 | without a pinch and with distinct ids, the loop releases the held body with velocity 0.9 of the cursor movement, changing nothing else about it, and leaves nothing held |
| Gestures.ClampThrow | components/GestureCanvas.tsx:226-228 | the throw component lies in [-25, 25] and is unchanged when already inside |
| Gestures.RobotStep | components/GestureCanvas.tsx:210-248 | grab/release follow GrabLatch with fist > 0.4 within 160 and fist < 0.35; a new grab needs nothing held; a held tool moves 0.9 of the way to the hand, takes the smoothed roll and stops; a free tool keeps its position and angle; a free tool that is not thrown keeps its spin, and its velocity changes only by the push within 80 |
| Gestures.RobotHysteresis | components/GestureCanvas.tsx:214-221 | with fist strength in [0.35, 0.4] nothing is grabbed or released |
| Gestures.RobotThrow | components/GestureCanvas.tsx:220-239 | releasing the held tool clears the holder, sets the random spin and a velocity equal to the clamped cursor movement, plus the push when the hand is within 80 |
| Gestures.RobotPass | components/GestureCanvas.tsx:210-248 | the ROBOT loop keeps the number and ids of the tools |
| Gestures.RobotStepKeepsConsistency | components/GestureCanvas.tsx:210-248 | one tool step keeps the grab state consistent |
| Gestures.RobotPassKeepsConsistency | components/GestureCanvas.tsx:210-248 | the whole ROBOT loop keeps the grab state consistent, so at most one tool is held |
| Gestures.MechaStep | components/GestureCanvas.tsx:290-327 | a held tool is untouched; only motion fields change; a free tool never ends below the floor; on floor contact it bounces with 0.45 when faster than 3 and settles otherwise; with a non-negative width it ends within the walls |
| Gestures.MechaFreeFall | components/GestureCanvas.tsx:291-307 | away from the floor a tool falls with gravity 0.55 and air drag 0.99, and its spin decays by 0.98 |
| Gestures.MechaRestingStaysPut | components/GestureCanvas.tsx:290-327 | a tool at rest on the floor between the walls stays exactly as it is |
| Gestures.MechaFields | components/GestureCanvas.tsx:292-326 | the statement-by-statement field updates equal MechaStep |
| Gestures.UpdateMechaPhysics | components/GestureCanvas.tsx:290-327 | the in-place update equals MechaStep |
| Canvas.TrackHand | components/GestureCanvas.tsx:153-189 | after a sighting the cursor is visible, pinching exactly when the smoothed pinch value is below 0.18, and its fist strength is in [0,1]; its position is the adaptive smoothing of the old one towards the safe-zone target with upper blend 0.75, so it moves towards the target and never past it |
| Canvas.Missed | components/GestureCanvas.tsx:255-258 | a missed frame adds one to the count and hides the cursor and landmarks once the count passes 8; nothing else changes |
| Canvas.FrameStep | components/GestureCanvas.tsx:134-267 | BROWSE frames change nothing and publish nothing; a sighting resets the count, tracks the cursor by TrackHand with blend 0.12, runs the current activity's grab loop with that cursor and the previous one, then its physics pass, leaves the other activity alone, remembers the cursor as previous position and publishes it; a miss counts up, keeps the previous cursor and both holders, runs only the physics pass and publishes nothing |
| Canvas.StepBodiesKeepsConsistency | components/GestureCanvas.tsx:261-263 | the SHAPES physics pass keeps the grab state consistent |
| Canvas.StepToolsKeepsConsistency | components/GestureCanvas.tsx:264-265 | the ROBOT physics pass keeps the grab state consistent |
| Canvas.FrameKeepsConsistency | components/GestureCanvas.tsx:134-267 | every frame keeps both grab states consistent: at most one body and one tool are ever held |
| Canvas.MissedRunHidesAfterLimit | components/GestureCanvas.tsx:254-258 | after n missed frames the count has grown by n, and the cursor stays visible exactly while the count is at most 8, without moving |
| Canvas.FrameThrowsHeldBody | components/GestureCanvas.tsx:199-202 | in a consistent SHAPES frame whose smoothed pinch value is at least 0.18, so the tracked cursor no longer pinches, the held body is released with 0.9 of the movement from the previous to the new cursor, then takes the physics step, and nothing is held |
| Canvas.SightingResetsCount | components/GestureCanvas.tsx:142-143 | a frame that sees a hand resets the count and shows the cursor |
| Canvas.GestureCanvas.constructor | components/GestureCanvas.tsx:33-65 | three starting bodies, no tools, nothing held, a hidden cursor at (0.5, 0.5) with pinch value 1 |
| Canvas.GestureCanvas.SpawnMecha | components/GestureCanvas.tsx:44-56 | appends the new tool at the top middle with scale 2.5 for a katana and 2 otherwise; a fresh non-zero id keeps the grab state consistent |
| Canvas.GestureCanvas.TouchBody | components/GestureCanvas.tsx:194-205 | the in-place SHAPES rules on one body equal ShapesStep |
| Canvas.GestureCanvas.TouchBodies | components/GestureCanvas.tsx:193-205 | the in-place loop equals ShapesPass |
| Canvas.GestureCanvas.TouchTool | components/GestureCanvas.tsx:210-248 | the in-place ROBOT rules on one tool equal RobotStep |
| Canvas.GestureCanvas.TouchTools | components/GestureCanvas.tsx:206-249 | the in-place loop equals RobotPass |
| Canvas.GestureCanvas.StepAllBodies | components/GestureCanvas.tsx:263 | every body takes PhysicsStep, in place |
| Canvas.GestureCanvas.StepAllTools | components/GestureCanvas.tsx:265 | every tool takes MechaStep, in place |
| Canvas.GestureCanvas.TrackCursor | components/GestureCanvas.tsx:153-189 | the in-place cursor updates equal TrackHand |
| Canvas.GestureCanvas.SeeHand | components/GestureCanvas.tsx:142-252 | the in-place sighting equals the value-level sighting |
| Canvas.GestureCanvas.GrabInPlace | components/GestureCanvas.tsx:192-250 | runs the current activity's grab loop |
| Canvas.GestureCanvas.MissFrame | components/GestureCanvas.tsx:255-258 | the in-place miss equals Missed |
| Canvas.GestureCanvas.StepWorldInPlace | components/GestureCanvas.tsx:261-267 | runs the current activity's physics pass |
| Canvas.GestureCanvas.Frame | components/GestureCanvas.tsx:134-267 | one in-place frame equals FrameStep in state and published cursor, and keeps the grab state consistent |
| Tabs.InitialDeskOrdered | components/BrowseScreen.tsx:27-45 | the starting tab and counter are ordered |
| Tabs.CreateTab | components/BrowseScreen.tsx:84-105 | appends one tab with the new id, z = maxZ + 1, size 800x500, not maximised or collapsed, keeping the others; the counter goes up by one |
| Tabs.CreateTabOrdered | components/BrowseScreen.tsx:84-105 | with an unused id the desk stays ordered and the new tab is above every other |
| Tabs.CloseTab | components/BrowseScreen.tsx:107-109 | a tab is kept exactly when it was there and has a different id |
| Tabs.CloseTabAppend | components/BrowseScreen.tsx:107-109 | closing distributes over concatenation, so relative order is kept |
| Tabs.CloseTabAbsent | components/BrowseScreen.tsx:107-109 | closing an id no tab has changes nothing |
| Tabs.CloseTabOrdered | components/BrowseScreen.tsx:107-109 | closing keeps the desk ordered |
| Tabs.ToggleMaximize | components/BrowseScreen.tsx:111-119 | the target flips maximised, is expanded and goes on top; every other tab is un-maximised; the counter goes up by one |
| Tabs.ToggleMaximizeAtMostOne | components/BrowseScreen.tsx:111-119 | afterwards at most one tab is maximised, and only the target can be |
| Tabs.ToggleMaximizeOrdered | components/BrowseScreen.tsx:111-119 | the desk stays ordered and the target is above every other tab |
| Tabs.RaiseOrdered | components/BrowseScreen.tsx:121-129 | collapse and the raise (also used by startListening at 138-140) keep the desk ordered, put the target at the counter, flip only its collapsed flag and leave every other tab as it was |
| Tabs.ReloadOrdered | components/BrowseScreen.tsx:131-136 | reload bumps only the target's render key and keeps the desk ordered |
| Tabs.InsertByZ | components/BrowseScreen.tsx:271 | insertion adds exactly the one tab |
| Tabs.InsertByZSorted | components/BrowseScreen.tsx:271 | inserting into a descending list keeps it descending |
| Tabs.SortByZ | components/BrowseScreen.tsx:271 | the sorted list is a permutation of the tabs |
| Tabs.SortByZSorted | components/BrowseScreen.tsx:271 | the sorted list has non-increasing z |
| Tabs.HandleAt | components/BrowseScreen.tsx:273-316 | a resize handle is a non-maximised tab within 60 of its top-right corner; a drag handle is a non-maximised tab whose header holds the cursor and whose corner is out of reach; no handle exactly when no tab grips |
| Tabs.HandleAtFirstGrip | components/BrowseScreen.tsx:273-316 | the first tab that grips decides, corner before header |
| Tabs.FindHandle | components/BrowseScreen.tsx:273-316 | the loop with continue and break returns HandleAt |
| Tabs.Resized | components/BrowseScreen.tsx:323-349 | width and height never drop below 300x200 and follow the cursor offset; the top follows the vertical offset; the bottom edge stays put while the height is above its minimum |
| Tabs.DragAdvance | components/BrowseScreen.tsx:352-361 | a drag commits exactly when the cursor is more than 40 from the pinch start, and stays committed |
| Tabs.Dragged | components/BrowseScreen.tsx:363-376 | the tab's offset from its start equals the cursor's offset from the pinch start |
| Tabs.GeometryOrdered | components/BrowseScreen.tsx:323-377 | resizing and dragging keep the desk ordered |
| Tabs.ClassifyRelease | components/BrowseScreen.tsx:244-259 | never both a click and a double click; some click exactly when short (< 800), near (< 80) and no committed drag or resize is open; double exactly when additionally within 500 of the last click |
| Tabs.HeaderControl | components/BrowseScreen.tsx:407-421 | close, maximise, collapse and reload are the 40-wide bands from the right edge; the address bar is the inner rectangle left of them |
| Tabs.TabHit | components/BrowseScreen.tsx:395-433 | no target exactly when no placement holds the cursor; a hit names a tab of the list |
| Tabs.TabHitFirst | components/BrowseScreen.tsx:396-433 | the hit is the first tab in the list, so the topmost on the z-sorted list, whose placement holds the cursor; on it, the header control under the cursor within 48 of its top, the body below |
| Tabs.FindClickTarget | components/BrowseScreen.tsx:396-433 | the loop with early returns computes TabHit |
| Tabs.ApplyClick | components/BrowseScreen.tsx:380-435 | the plus button creates a tab; close, maximise, collapse and reload do CloseTab, ToggleMaximize, ToggleCollapse and ReloadTab on that tab; the address bar raises it; a miss, a blank header spot or the body change nothing |
| Tabs.ApplyClickOrdered | components/BrowseScreen.tsx:380-435 | every click keeps the desk ordered when a new tab gets an unused id |
| Browse.InitialBrowseConsistent | components/BrowseScreen.tsx:70-82 | the starting desk and refs are consistent |
| Browse.EffectStep | components/BrowseScreen.tsx:234-437 | no cursor sample, no change; never a click and a double click at once; a click only on the frame that lets a held pinch go |
| Browse.StartKeepsConsistency | components/BrowseScreen.tsx:244-320 | release and pinch start keep the desk ordered, the ids in place and at most one session open |
| Browse.MoveKeepsConsistency | components/BrowseScreen.tsx:323-377 | resize and drag keep the desk ordered and the ids in place |
| Browse.EffectKeepsConsistency | components/BrowseScreen.tsx:234-437 | every run keeps the desk ordered and at most one session open, held only while pinching |
| Browse.ReleaseEndsPinch | components/BrowseScreen.tsx:244-265 | letting go closes every session, classifies the gesture, records the click time, and changes the tabs only by acting on the click target |
| Browse.PinchStartTakesHandle | components/BrowseScreen.tsx:268-320 | a new pinch records its start and opens a resize on a corner or an uncommitted drag on a header of the first tab in z order, with that tab on top; elsewhere nothing changes |
| Browse.RaisedIsTop | components/BrowseScreen.tsx:290-293 | raising unless already top leaves the tab at the counter either way |
| Browse.DragFollowsCursor | components/BrowseScreen.tsx:352-377 | a held drag does nothing inside the deadzone; once committed its tab sits at its start plus the cursor offset and no other tab moves |
| Browse.ResizeFollowsCursor | components/BrowseScreen.tsx:323-349 | a held resize reshapes only its tab, by Resized |
| Browse.ResizeTabsIdempotent | components/BrowseScreen.tsx:323-349 | applying the same resize twice equals applying it once |
| Browse.DragTabsIdempotent | components/BrowseScreen.tsx:363-376 | applying the same drag twice equals applying it once |
| Browse.EffectRerunChangesNothing | components/BrowseScreen.tsx:437 | re-running the effect with the same sample after its own updates changes nothing and reports no click |
| Browse.BrowseScreen.constructor | components/BrowseScreen.tsx:27-82 | the screen starts with the one home tab, counter 1, no sessions and a zeroed pinch record |
| Browse.BrowseScreen.LiftPinch | components/BrowseScreen.tsx:244-265 | the in-place release equals the release phase of EffectStep |
| Browse.BrowseScreen.StartPinch | components/BrowseScreen.tsx:268-320 | the in-place pinch start, with the handle loop, equals the start phase |
| Browse.BrowseScreen.GrabHandle | components/BrowseScreen.tsx:280-315 | opens the session for the handle and raises its tab unless on top |
| Browse.BrowseScreen.FollowPinch | components/BrowseScreen.tsx:323-377 | the in-place resize and drag equal the move phases |
| Browse.BrowseScreen.ClickAt | components/BrowseScreen.tsx:380-435 | the in-place click, with the hit-test loop, equals the click phase |
| Browse.BrowseScreen.OnCursor | components/BrowseScreen.tsx:234-437 | one in-place run equals EffectStep in state and reported click, and keeps the desk and sessions consistent when the new tab id is unused |

## Left out

- Camera access, MediaPipe hand detection, `requestAnimationFrame` scheduling and canvas resizing are left out. A frame receives an optional `HandSample` already reduced from the 21 landmarks.
- The landmark arithmetic is left out. This covers the hand scale, the `Math.hypot` fingertip distances averaged in `calculateFistStrength`, and the `Math.atan2` roll. Those values arrive as fields of `HandSample`.
- `smoothScalar` is not part of this model. It is imported from `utils/physics` but the file does not define it. It is a parameter (`Externals.smoothScalar`), so smoothed pinch value, tilt and held-tool angle are stated in terms of it.
- The ROBOT push is left out: `Math.cos`/`Math.sin` of the hand angle times 3. It is a parameter (`Externals.push`).
- `Math.random` spins and `Date.now` ids are parameters. `performance.now` timestamps are parameters too.
- All drawing is left out: the grid, bodies, tools, robotic hand and HUD cursor. `cursor.mode` and `releaseProgress` only feed drawing. The published gesture mode is always OPEN, as in the source.
- PLAYGROUND activity STUDIO_3D is left out. Its frames run no grab or physics logic, and the model keeps that.
- The tilt-scroll effect of the browse screen is left out. So are the ripple animations and their timers, the DOM click dispatched on a tab body, and the speech-recognition part of `startListening`. Only its z raise is modelled.
- Numbers are reals. Floating-point rounding, NaN and infinities are not modelled.
- In-place mutation of the objects inside the ref arrays is modelled as reassigning a `seq` of values. Aliasing between those objects and other references is not modelled.
- Tabs.SortByZ: the model sorts stably by insertion, which matches JavaScript's stable `sort`. The contract states permutation and non-increasing z but not stability.
- Browse.BrowseScreen.OnCursor: consistency is promised only when the id for a new tab is unused. `Date.now` in the source could in principle repeat an id.
- Canvas.TrackHand: the exact smoothed position holds for every smoothing factor. The derived no-overshoot promise is stated only for factors in [0, 0.75]. The source always passes 0.12 in PLAYGROUND.
- Gestures.RobotThrow: the clamp to [-25, 25] is not a bound on the final velocity when the hand is within 80. The push is added after the clamp, as in the source.
- Canvas.GestureCanvas.SpawnMecha: consistency is promised for a non-zero id no tool holds. That is the case for `Date.now` ids in practice.
- The shipped wiring never delivers BROWSE cursor samples, as described above. Module `Browse` models the pinch effect for the stream of samples it is written to handle, not for the single sample it receives in practice. The BROWSE-specific constants at `components/GestureCanvas.tsx:180` and the BROWSE handling in `components/BrowseScreen.tsx` suggest BROWSE tracking was intended. Enabling it is not part of this model.
- `isResizingState` only affects rendering. The model keeps it as a field mirrored by the resize session.
