# ArtFlow drawing tools, modelled in Dafny

This project models the sequential core of the ArtFlow VR painting
application:

- **The ribbon-strip synthesizer** (`BrushHelper`, module `Brush`). It turns a
  stream of (position, orientation, pressure) samples into a triangle strip.
  The strip lives in fixed-size position, normal and UV arrays, written in
  place through cursors. The model covers the distance-reject guard, the
  6-float rungs, the averaged normals over a three-triangle look-back window,
  and the two thickness and UV policies chosen at construction. The cursor
  invariants are proved to hold across every sample: 6 floats, 4 UVs and 2
  drawn vertices per accepted sample.
- **The L-system turtle** (`Tree`, `TreeTool`, module `Turtle`). It covers the
  stack of copied states and the symbol table, the "new mesh" bracket
  predicate, and the chunked interpretation of `_interpretSbs`. Each chunk
  ends just after a `[` or `]` whose next symbol is not a bracket. The chain of chunks is proved
  to be the run of the whole string.
- **The particle tool** (module `Particles`). It covers the stack of free
  texel indices and its split into column and row, the least power of two for
  the texture width, the ring cursor of an emitter, the cyclic index into the
  pool of random numbers, and the cap on emitters.
- **The VR controller** (`ViveController`, module `Vive`). It covers the
  edge-detection state machines of the buttons, the thumbpad axis change, the
  choice of gamepad from the browser's list, and the early exits of `update`.
  The dispatched events form a log. Each button is proved to be pressed
  exactly when the log leaves it down, with Down and Up alternating.
- **The event registry** (`EventDispatcher`, module `Events`). It maps an event
  id to the ordered list of its callbacks. Dispatch is recorded as a log of
  calls.

Shared values are defined in module `Geometry`: vectors, quaternions, numbers
that may be NaN, and the in-place overwrite of a run of array slots.

Several things outside the model are passed in as parameters instead:

- the rotation of a vector by a quaternion;
- the rotation matrices built with cos and sin;
- `MathUtils.clamp`;
- the values drawn from `Math.random`;
- the list `navigator.getGamepads()` returns.

Calls into three.js objects are either left out or recorded in a log: the
brush helper calls the tree makes, and the events and callback calls the
controller and the registry make.

The model follows the code where it differs from the intent its dead
branches show (the one- and two-triangle look-back cases at
`brush-helper.js:199-205`):

- Normals are first written on the third accepted sample, not the second. The
  guard reads the count before the new rung, so it needs two earlier rungs.
  Under that guard the look-back window is always three triangles. The
  one- and two-triangle branches never run (`LookBackIsThreeUnderGuard`).
- The pressure-independent UV bound `max` is `maxSpread`, raised to the rung
  count only once that count reaches a positive `maxSpread`. With `maxSpread`
  0 ("unbounded"), `max` stays 0 and every U written is 0 / 0, which is NaN
  (`UvRowsInUnitSquare`).

## Model

| member | source | states |
|---|---|---|
| Geometry.Divide | src/modules/tool/helper/brush-helper.js:285 | `i / max` is NaN exactly when max is 0, otherwise the real quotient |
| Brush.TooCloseIsDistanceBelowDelta | src/modules/tool/helper/brush-helper.js:141-142 | the guard written without a square root rejects a sample exactly when its distance to the last point is below delta |
| Brush.SentinelAcceptsAnySample | src/modules/tool/helper/brush-helper.js:104 | after the negative-infinity sentinel, any sample passes the guard |
| Brush.ClampPressure | src/modules/tool/helper/brush-helper.js:263 | the clamped pressure is the pressure or 0.8, and never above either |
| Brush.Smoothing | src/modules/tool/helper/brush-helper.js:264 | the damping factor is at most 1, and is 1 exactly when the clamped pressure repeats the last one |
| Brush.PressureThicknessBounded | src/modules/tool/helper/brush-helper.js:261-268 | for a pressure in [0, 1], a non-negative thickness and a last pressure in [0, 0.8], the damped thickness lies between 0 and thickness × clamped pressure |
| Brush.PressureHistoryThicknessBounded | src/modules/tool/helper/brush-helper.js:261-268 | after any run of pressures in [0, 1], the pressure remembered from them (0 before any, then the clamp of the latest) is in [0, 0.8], so the next damped thickness lies between 0 and thickness × clamped pressure |
| Brush.RepeatedPressureIsUndamped | src/modules/tool/helper/brush-helper.js:261-268 | a repeated clamped pressure gives exactly thickness × clamped pressure |
| Brush.UvMax | src/modules/tool/helper/brush-helper.js:144-147 | `max` is maxSpread, raised to the rung count once that reaches a positive maxSpread |
| Brush.UvRowsAt | src/modules/tool/helper/brush-helper.js:284-290 | row i of the rewrite is (i/max, 0), (i/max, 1) |
| Brush.UvRowsExtend | src/modules/tool/helper/brush-helper.js:284-290 | each pass of the loop appends one row to the rows already written |
| Brush.UvRowsInUnitSquare | src/modules/tool/helper/brush-helper.js:284-290 | with max > 0 every coordinate written is a number in [0, 1]; with max = 0 every U is NaN |
| Brush.Rung | src/modules/tool/helper/brush-helper.js:181-197 | a rung's midpoint is the sample and its width is twice the offset |
| Brush.NormalReadsOnlyWindow | src/modules/tool/helper/brush-helper.js:207-225 | the normal depends only on the floats [cursor − 6 − 3·it, cursor), the last 15 for three triangles |
| Brush.NormalRun | src/modules/tool/helper/brush-helper.js:229-251 | 18 floats: the same normal six times |
| Brush.LookBackIsThreeUnderGuard | src/modules/tool/helper/brush-helper.js:199-205 | under the guard `_verticesCount >= 12` the one- and two-triangle branches cannot run |
| Brush.PutUvRows | src/modules/tool/helper/brush-helper.js:283-290 | the loop rewrites rows 0..max from slot 0, leaves every other slot alone, and ends its cursor at 4(max+1) |
| Brush.PutRung | src/modules/tool/helper/brush-helper.js:181-197 | exactly the six slots from the cursor change, to point − offset then point + offset |
| Brush.PutNormalRun | src/modules/tool/helper/brush-helper.js:229-251 | exactly the 18 slots from the normal cursor change |
| Brush.SumTriangleNormals | src/modules/tool/helper/brush-helper.js:207-225 | the loop sums cross(v0 − v1, v2 − v1) over the `it` triangles behind the cursor |
| Brush.PutAveragedNormal | src/modules/tool/helper/brush-helper.js:199-251 | the mean of the last three triangle normals is written six times at the normal cursor |
| Brush.BrushHelper.constructor | src/modules/tool/helper/brush-helper.js:32-70 | half the brush thickness, last pressure 0 with an empty pressure history, the sentinel and zero cursors; the options kept select the policies |
| Brush.BrushHelper.CreateMesh | src/modules/tool/helper/brush-helper.js:79-117 | fresh zeroed arrays of 9·limit, 9·limit and 4·limit floats, zero cursors, empty draw range, the sentinel; thickness, remembered pressure and pressure history are kept; the invariant holds |
| Brush.BrushHelper.SetThickness | src/modules/tool/helper/brush-helper.js:126-130 | the thickness becomes half the given one |
| Brush.BrushHelper.ComputeThicknessWithPressure | src/modules/tool/helper/brush-helper.js:261-269 | returns thickness·clamped·(1 − abs(last − clamped))², remembers the clamped pressure and records the pressure in the helper's pressure history; while every pressure given to the helper is in [0, 1] and the thickness is non-negative, the result lies between 0 and thickness × clamped pressure |
| Brush.BrushHelper.ComputeUv | src/modules/tool/helper/brush-helper.js:66-70 | the policy chosen by `enablePressure` is the one that runs |
| Brush.BrushHelper.ComputeUvWithPressure | src/modules/tool/helper/brush-helper.js:271-279 | (p, 0), (p, 1) are written at the UV cursor, which advances by 4; nothing else changes |
| Brush.BrushHelper.ComputeUvWithoutPressure | src/modules/tool/helper/brush-helper.js:281-292 | the UV array is rewritten from 0 with rows 0..max, and the cursor ends at 4(max+1) |
| Brush.BrushHelper.ProcessPoint | src/modules/tool/helper/brush-helper.js:166-259 | the rung goes to the given vertex cursor; from the third sample on, the averaged normal goes six times to the given normal cursor and the normal count advances by only 6 |
| Brush.BrushHelper.AddPoint | src/modules/tool/helper/brush-helper.js:139-164 | a sample that is too close changes nothing at all; otherwise the sample is recorded as `Accepted` states, and the cursor invariant (6k, 4k, 2k for k samples) is kept |
| Brush.BrushHelper.Accept | src/modules/tool/helper/brush-helper.js:144-163 | the accepted path writes the UVs, the rung and the normals at the current cursors and keeps the invariant |
| Turtle.Multiply | src/modules/tool/tree-tool.js:305-309 | `hlu.multiply(m)` is the column-major matrix product |
| Turtle.MovedChangesOnlyTopPosition | src/modules/tool/tree-tool.js:273-280 | the top position advances by step × heading; every other entry, every other field and the calls are unchanged; an empty stack throws |
| Turtle.PushCopiesTop | src/modules/tool/tree-tool.js:374-387 | '[' pushes a copy of the top and, when opening a branch, starts a mesh and draws the new top |
| Turtle.PopRemovesTop | src/modules/tool/tree-tool.js:389-398 | ']' without a new mesh drops exactly the top |
| Turtle.PushThenPopRestores | src/modules/tool/tree-tool.js:374-398 | '[' then ']', neither opening a branch, restore the stack and the calls |
| Turtle.UnknownSymbolIsSkipped | src/modules/tool/tree-tool.js:235-239 | a symbol with no entry in `interpretations` changes nothing |
| Turtle.ChunkEnd | src/modules/tool/tree-tool.js:256-261 | a chunk ends just after the first symbol whose newMesh flag is set, or at the end, and contains no earlier set flag |
| Turtle.ChunkEndAt | src/modules/tool/tree-tool.js:256-261 | inside a chunk, a symbol ends it exactly when its flag is set or it is the last symbol |
| Turtle.RunRangeSplit | src/modules/tool/tree-tool.js:229-240 | interpreting a range is interpreting its two halves in turn, stopping at a throw |
| Turtle.ChunksVisitEverySymbolOnce | src/modules/tool/tree-tool.js:246-269 | the chain of chunk steps interprets every symbol from idx once, in order, with its flag |
| Turtle.Tree.constructor | src/modules/tool/tree-tool.js:50-59 | a new tree has an empty stack and no helper calls; the empty string and step 0 stand for the `undefined` values `init` replaces |
| Turtle.Tree.Init | src/modules/tool/tree-tool.js:61-75 | the starting state with the initial frame is pushed, and the step and string are kept |
| Turtle.Tree.PushState | src/modules/tool/tree-tool.js:77-84 | one entry holding the given values goes on top; the entries below are untouched |
| Turtle.Tree.PopState | src/modules/tool/tree-tool.js:86-90 | exactly the top entry is removed; an empty stack stays empty |
| Turtle.Tree.PeekState | src/modules/tool/tree-tool.js:92-96 | the last entry, or `undefined` exactly when the stack is empty; the stack is not changed |
| Turtle.TreeTool.constructor | src/modules/tool/tree-tool.js:172-194 | step 0.1, the L-system's angle and string, no pending tree, and the symbol table of `Step` |
| Turtle.TreeTool.Trigger | src/modules/tool/tree-tool.js:197-203 | a fresh tree is appended to the pending trees and its first mesh is started |
| Turtle.TreeTool.AddMesh | src/modules/tool/tree-tool.js:217-223 | the helper starts one new mesh |
| Turtle.TreeTool.Draw | src/modules/tool/tree-tool.js:282-289 | the helper gets the top state's position, orientation and pressure |
| Turtle.TreeTool.MovePos | src/modules/tool/tree-tool.js:273-280 | the tree becomes `Moved` of its old value |
| Turtle.TreeTool.UpdateAngle | src/modules/tool/tree-tool.js:305-309 | the top frame is multiplied by the turn's matrix |
| Turtle.TreeTool.DrawForward | src/modules/tool/tree-tool.js:291-296 | 'F': move, then draw |
| Turtle.TreeTool.MoveForward | src/modules/tool/tree-tool.js:298-303 | 'f': new mesh, then move |
| Turtle.TreeTool.Rotate | src/modules/tool/tree-tool.js:327-372 | the seven turn symbols rotate the top frame by their axis and signed angle |
| Turtle.TreeTool.PushState | src/modules/tool/tree-tool.js:374-387 | '[' as `Pushed` states |
| Turtle.TreeTool.PopState | src/modules/tool/tree-tool.js:389-398 | ']' as `Popped` states |
| Turtle.TreeTool.Interpret1 | src/modules/tool/tree-tool.js:235-239 | the entry of the symbol in the table is applied |
| Turtle.TreeTool.InterpretAt | src/modules/tool/tree-tool.js:229-239 | the flag computed is `IsNewMesh`, and one pass extends the run by the symbol |
| Turtle.TreeTool.InterpretSbs | src/modules/tool/tree-tool.js:246-271 | past the end nothing changes and no step is scheduled; otherwise the chunk from idx is run and the next step is scheduled where it ends |
| Turtle.TreeTool.Interpret | src/modules/tool/tree-tool.js:225-244 | the whole string is run, then the last pending tree is popped |
| Turtle.TreeTool.Release | src/modules/tool/tree-tool.js:205-215 | with no pending tree nothing changes; otherwise the last tree is started, drawn once, and its first chunk is run |
| Particles.NextPowerTwo | src/modules/tool/particle-tool.js:55-62 | the least power of two that is at least nb, and 1 when nb ≤ 1 |
| Particles.Descending | src/modules/tool/particle-tool.js:64-70 | side² indices, strictly descending, holding exactly 0..side² − 1 |
| Particles.TexelOf | src/modules/tool/particle-tool.js:75 | column and row both lie in [0, side) and recombine to the index |
| Particles.TexelOfInjective | src/modules/tool/particle-tool.js:72-77 | different indices give different texels |
| Particles.PrimitivesRenderer.constructor | src/modules/tool/particle-tool.js:40-53 | the clock is 0 and the stack holds every texel index in descending order |
| Particles.PrimitivesRenderer.InitIndicesArray | src/modules/tool/particle-tool.js:64-70 | the nested loops push exactly `Descending(side)` |
| Particles.PrimitivesRenderer.GetAvailableIndex | src/modules/tool/particle-tool.js:72-77 | the top index is popped and split into column and row; an empty stack gives NaN for both |
| Particles.PrimitivesRenderer.Update | src/modules/tool/particle-tool.js:180-183 | the clock advances by dt and is clamped at 0 |
| Particles.PopsAscend | src/modules/tool/particle-tool.js:64-77 | right after initialisation the k-th pop gives index k, as (k % side, k / side) |
| Particles.MaxParticles | src/modules/tool/particle-tool.js:250 | a positive slot count: the given one, or 100000 when none is given |
| Particles.ParticleEmitter.constructor | src/modules/tool/particle-tool.js:244-310 | zeroed attribute arrays for the slot count, cursor 0, a full index stack, and a power-of-two texture width at least the buffer side |
| Particles.ParticleEmitter.SpawnParticle | src/modules/tool/particle-tool.js:312-337 | only slots [2i, 2i+2) and [3i, 3i+3) change, to the popped texel and the position; the index stack loses its top, or stays empty when the pool is empty; the cursor wraps to 0 after the last slot and stays below the slot count |
| Particles.TexelFloats | src/modules/tool/particle-tool.js:321-322 | a texel is stored as its column and row, NaN for both when none was free |
| Particles.NextRandomIndex | src/modules/tool/particle-tool.js:449-450 | from a slot of the pool, the next index lies in [1, n) |
| Particles.RandomIndexCycles | src/modules/tool/particle-tool.js:447-452 | the k-th call reads slot 1 + (k − 1) mod (n − 1), so slot 0 is never read |
| Particles.ParticleTool.constructor | src/modules/tool/particle-tool.js:394-406 | a pool of 100000 values `random − 0.5`, index 0, no emitter |
| Particles.ParticleTool.GetRandom | src/modules/tool/particle-tool.js:447-453 | pre-increments the index, resets it to 1 at the pool's end, and returns the value there |
| Particles.ParticleTool.SpawnParticleEmitter | src/modules/tool/particle-tool.js:422-445 | at the cap nothing changes; otherwise one emitter is appended and its n = `initialParticlesPerEmitter` particles are spawned at the position: slots 0 .. n − 1 hold the position and the texels of indices 0 .. n − 1 (NaN once the side² indices run out), the other slots stay 0, and the stack has lost its n top indices; the count never exceeds the cap |
| Particles.ParticleEmitter.SpawnFresh | src/modules/tool/particle-tool.js:430-431 | n spawns on a new emitter with n ≤ its slot count (it has exactly n slots when n > 0) fill slots 0 .. n − 1 with the position and the texels popped in turn, and pop min(n, side²) indices |
| Particles.NextPop | src/modules/tool/particle-tool.js:72-77 | after i pops of a fresh stack the next pop gives the texel of index i, or NaN once side² indices are used |
| Vive.ButtonEventsKeepAlternation | src/controller/vive-controller.js:159-174 | one step of a button keeps Down/Up alternating, leaves the button held exactly when it is now pressed, and leaves the others as they were |
| Vive.AxisEventKeepsAlternation | src/controller/vive-controller.js:53-56 | `axisChanged` changes no button's state |
| Vive.AxisEvents | src/controller/vive-controller.js:49-56 | no event when the axes are equal; otherwise one `axisChanged` whose diff added to the old axes gives the new ones |
| Vive.Controllers | src/controller/vive-controller.js:142-154 | the accepted gamepads of the first n slots, all with an accepted id |
| Vive.ControllersGrow | src/controller/vive-controller.js:142-154 | looking at more slots only adds controllers at the end |
| Vive.ViveController.constructor | src/controller/vive-controller.js:30-104 | no gamepad, no button pressed, axes and trigger value 0, an empty log |
| Vive.ViveController.TriggerBoolButton | src/controller/vive-controller.js:159-174 | on a change one Down/Up event and the new value is stored; while held one event without status; while released nothing |
| Vive.ViveController.TriggerValueButton | src/controller/vive-controller.js:176-196 | the value is stored, pressed means value ≥ 0.05, and the same edge rule applies with the value as pressure |
| Vive.ViveController.DispatchAxisChanged | src/controller/vive-controller.js:53-56 | one `axisChanged` event is logged and the button invariant holds |
| Vive.ViveController.ThumbpadAxes | src/controller/vive-controller.js:46-72 | `axisChanged` with new − old only when an axis moved; the stored axes follow the gamepad; the size hint is rescaled only for a vertical move below 0.5 |
| Vive.ViveController.FindGamepad | src/controller/vive-controller.js:137-157 | the id-th accepted gamepad among slots 0..3, or `undefined` |
| Vive.ViveController.TriggerEvents | src/controller/vive-controller.js:133 | thumbpad, trigger and menu dispatch their events in that order; when the axes moved the diff is stored and the size hint rescaled only for a vertical move below 0.5, otherwise both are unchanged |
| Vive.ViveController.Update | src/controller/vive-controller.js:108-135 | without a gamepad or pose: hidden, nothing dispatched; with a null pose: nothing changes; otherwise shown, every button's events follow, and the axes diff and size-hint scale change as the thumbpad dictates |
| Events.CallsOfFollowList | src/utils/event-dispatcher.js:23 | each listed callback is called once, in list order, with the same data |
| Events.RegisterAppends | src/utils/event-dispatcher.js:7-16 | on a register that returns normally, the callback is appended to the id's list, which starts empty when missing or null; other ids are unchanged |
| Events.RegisteringTwiceCallsTwice | src/utils/event-dispatcher.js:14-23 | no deduplication: two registrations give two entries and two calls |
| Events.ListenersInRegistrationOrder | src/utils/event-dispatcher.js:7-16 | after any registrations that return normally, an id lists its callbacks in registration order |
| Events.RegisterKeepsInheritedOut | src/utils/event-dispatcher.js:9-23 | a normal register never stores a name inherited from `Object.prototype`, so dispatching under one calls nothing |
| Events.EventDispatcher.constructor | src/utils/event-dispatcher.js:5 | the table starts empty |
| Events.EventDispatcher.Register | src/utils/event-dispatcher.js:7-16 | a name inherited from `Object.prototype` (`toString`, `constructor`, `__proto__`, …) throws a TypeError at `.push` and leaves the table unchanged; any other id gets the callback appended to its list, started when missing or null |
| Events.EventDispatcher.Dispatch | src/utils/event-dispatcher.js:18-25 | a missing, null or inherited id calls nothing; otherwise each listed callback is called with the data in order; the table is not changed |

## Left out

- Brush.BrushHelper.AddPoint: requires room in the arrays for the writes of an accepted sample. Starting a new mesh before the arrays fill up is the caller's duty. Past that limit, JavaScript typed arrays silently drop the writes; the model does not cover that case.
- Floating point: coordinates, pressures and thicknesses are exact reals. There is no Float32 rounding and no infinities. The only NaN kept is the one the UV policy and an empty index stack produce.
- `normalizeNormals`, the three.js geometry, mesh and material objects, the draw-range attribute flags, `setColor` and `setLastSizePoint` are not modelled. The mesh list `_meshes` is not modelled either.
- `applyQuaternion` is a function parameter `rotate` with no properties.
- Brush.BrushHelper.Accept: it runs the rung and normal writes before the UV writes, while `addPoint` runs the UV writes first. The two touch different arrays and neither reads what the other writes, so the final state is the same.
- The turtle's rotation matrices (cos and sin) are a function parameter from a turn to its matrix. The turn is the axis and signed angle.
- `LSystem` and its derivation are not part of this model. The derived string and default angle are constructor parameters.
- `setTimeout` scheduling is not modelled. `InterpretSbs` runs one chunk and returns the index the next step would start at. `ChunksVisitEverySymbolOnce` chains the steps.
- The brush helper calls a tree makes are recorded as a log (`CreateMesh`, `AddPoint`), not executed on a `BrushHelper`. The `AddCommand` and `worldGroup` registration are not modelled.
- A TypeError (reading the top of an empty stack) is an outcome `Threw` that ends the run. What the exception does to the caller is not modelled.
- The `colorChanged` handler and `_hsv` of the tree tool are not modelled.
- The particle tool's render-to-texture passes, shaders, materials, textures and geometry are not modelled. Neither are `ParticleEmitter.update`, `clear`, `init`, the `update(0)` in its constructor, `ParticleTool.update`, `release` and `onItemChanged`.
- `Math.random` is a parameter `random` giving the k-th draw.
- `window.devicePixelRatio` and the debug plane are not modelled.
- A negative `bufferSide` is not modelled: the side is a natural number.
- `navigator.getGamepads()` is the parameter of `Update` and `FindGamepad`. The pose's position and orientation, the matrix composition and the standing matrix are not modelled; the pose is only undefined, null or present.
- `dispatchEvent` appends to an event log. The events share one `_axesDiff` array, which a later move overwrites; the log keeps each diff as a value instead.
- `MathUtils.clamp` is a function parameter with no properties. Its source is not part of this model.
- The lookup of the `sizehint` child mesh is not modelled: the size hint's scale is a field. A missing size hint (a TypeError) is not modelled.
- Vive.ViveController.TriggerValueButton: it only handles the trigger, the one button `_triggerValueButton` is called for.
- The thumbpad's `triggerEvent` is modelled as `ThumbpadAxes` followed by `TriggerBoolButton(Thumbpad, …)`.
- A gamepad's `buttons` array is three named fields: `buttons[0]`, `buttons[1]` and `buttons[3]`.
- Event ids are strings. JavaScript's conversion of other keys to property names is not modelled.
- Events.EventDispatcher.Register: the TypeError for a name inherited from `Object.prototype` is the result `threw`. Its propagation to the caller is not modelled; `RegisterAll` and `ListenersInRegistrationOrder` cover only registrations that return normally.
- Callbacks are identities and are not run. Nothing covers a callback that registers or dispatches while a dispatch is under way.
