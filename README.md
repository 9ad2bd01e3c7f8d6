# gachiball engine core in Dafny

This project models the algorithmic core of the gachiball game engine (C++,
GLFW, OpenGL) and proves properties of the model. The core has four parts.

- **Event dispatcher** (`event_dispatcher.dfy`, module `EventDispatch`). A
  class over a 3 × 32 × 4 array of optional handlers. The array is indexed by
  the ordinals of (device, key, action), whose vocabulary is in
  `input_event.dfy`, module `InputEvents`. Registering overwrites one slot.
  Raising looks up one slot and returns the invocation of its handler, if
  there is one. Handlers are opaque ids.
- **Input translation** (`input_engine.dfy`, module `InputEngine`). The
  GLFW-code-to-engine-enum mappings are pure functions. The engine's
  bound/unbound state is a class, as are the window's three callback slots
  and the process-wide pointer to the active engine. The three callbacks each
  build one event and raise it through the dispatcher.
- **Physics accumulator** (`physics_engine.dfy`, module `Physics`). A class
  holding the simulation step, the accumulated time and a set of rigid-body
  objects.
  - `Update` adds the frame time. When the total exceeds the step, it runs one
    pass over every body with the whole total, then resets the total.
  - A pass moves each body with its old velocity, then sets the acceleration
    from gravity and the body's mass and updates the velocity.
  - Pure functions (`Accumulate`, `Pass`, `RunUpdates`) specify the methods.
    The lemmas about those functions cover time conservation, the time budget,
    static bodies and mass independence.
- **Mesh topology** (`mesh.dfy`, module `Mesh`). `GenerateBallVertices` and
  `GenerateBallFaces` fill arrays in the source's nested loops. Their results
  are proved equal, slot by slot, to the reference functions `BallVertex` and
  `BallFace`. Lemmas state the topology: indices in range, three distinct
  corners per triangle, pole fans, seam closure, every vertex used, distinct
  vertices. Also modelled: the platform box tables and the index counts the
  two meshes are drawn with.

`vectors.dfy` holds the 3-vector over the reals. `wrappers.dfy` holds `Option`.

### Behaviours worth noting

- **Re-entrancy.** `raiseEvent` calls the handler through a reference into the
  table (`engine/src/event_dispatcher.cpp:26`), not through a copy. The model
  returns the handler found at lookup time and makes no claim about a handler
  that re-registers its own slot while it runs.
- **Three frames of 0.02 s.** With a step of 1/60 s, each 0.02 s frame
  already exceeds the step, so three `update(0.02)` calls run three passes of
  0.02 s, not one pass of 0.06 s (`physics_engine.cpp:17-23`).
  `ThreeFramesRunThreePasses` and `ThreeFrames` prove this. Two frames of
  0.01 s run one pass of 0.02 s: `TwoShortFramesRunOnePass` and
  `TwoShortFrames`.
- **Unknown entries.** The enums have an `UNKNOWN` entry at ordinal 0, so the
  table has 3 devices and 4 actions.
- **Cursor payload.** `input_event.hpp:85-90` declares prev/curr integer
  fields, but `cursorPositionCallback` writes `xpos`/`ypos`. The model's
  payload is the absolute `(xpos, ypos)` the callback receives.

## Model

| member | source | states |
|---|---|---|
| InputEvents.DeviceOrdinal | engine/include/input_event.hpp:10-15 | every device ordinal is below INPUT_DEVICE_COUNT (3) |
| InputEvents.KeyOrdinal | engine/include/input_event.hpp:23-57 | every key ordinal is below KEY_COUNT (32) |
| InputEvents.ActionOrdinal | engine/include/input_event.hpp:65-71 | every action ordinal is below KEY_ACTION_COUNT (4) |
| InputEvents.KeyOrdinalInjective | engine/include/input_event.hpp:23-57 | KeyOfOrdinal inverts KeyOrdinal, so distinct keys have distinct ordinals |
| InputEvents.SlotIndexInjective | engine/src/event_dispatcher.cpp:13-20 | every event type indexes inside the table's dimensions, and distinct event types index distinct slots |
| EventDispatch.Dispatcher.constructor | engine/src/event_dispatcher.cpp:49-51 | a new dispatcher has a fresh 3×32×4 table with every slot empty |
| EventDispatch.Dispatcher.RegisterEventHandler | engine/src/event_dispatcher.cpp:36-47 | the slot of the given type now holds the given handler (None empties it), and every other slot keeps its handler |
| EventDispatch.Dispatcher.RaiseEvent | engine/src/event_dispatcher.cpp:23-34 | exactly when the slot of the type the event is dispatched under (`TypeOf`) holds a handler, that handler is invoked once with the event; the table is not modified |
| EventDispatch.RaiseOnFreshDispatcher | engine/src/event_dispatcher.cpp:5-20 | raising any event on a new dispatcher invokes nothing |
| EventDispatch.RegisterThenRaise | engine/src/event_dispatcher.cpp:23-47 | registering h for an event's type and then raising the event invokes h once with that event |
| EventDispatch.LastRegistrationWins | engine/src/event_dispatcher.cpp:41-45 | after registering two handlers for one type, raising invokes only the second |
| EventDispatch.EmptyHandlerUnregisters | engine/src/event_dispatcher.cpp:30-45 | registering the empty handler clears the slot, so a later raise invokes nothing |
| EventDispatch.OtherSlotsUnaffected | engine/src/event_dispatcher.cpp:41-45 | a handler registered for one type is never invoked for an event of another type |
| InputEngine.TranslateGLFWKey | engine/src/input_engine.cpp:58-103 | never yields MOUSE, and yields UNKNOWN exactly for codes outside A..Z, SPACE and the three mouse buttons |
| InputEngine.TranslateGLFWKeyAction | engine/src/input_engine.cpp:105-114 | PRESS gives PRESSED and RELEASE gives RELEASED (both directions); every other code, REPEAT included, gives UNKNOWN; never MOVED |
| InputEngine.TranslateInvertsCodeOf | engine/src/input_engine.cpp:66-96 | every key except UNKNOWN and MOUSE has a GLFW code, and translating that code gives the key back |
| InputEngine.CodeOfInvertsTranslate | engine/src/input_engine.cpp:66-98 | every mapped GLFW code is recovered from the key it translates to |
| InputEngine.TranslateInjective | engine/src/input_engine.cpp:66-99 | distinct mapped codes translate to distinct keys |
| InputEngine.TranslationReachesSlot | engine/src/input_engine.cpp:58-114 | a (key, action) slot other than UNKNOWN is reached by translation exactly from its GLFW key and action codes |
| InputEngine.CallbackSlots.constructor | engine/src/input_engine.cpp:48-52 | a window starts with none of the three callbacks installed |
| InputEngine.ActiveInstance.constructor | engine/src/input_engine.cpp:165 | the active-engine pointer starts null |
| InputEngine.ActiveInstance.KeyCallback | engine/src/input_engine.cpp:167-171 | the free keyboard callback requires an active engine and raises its keyboard event through that engine's dispatcher |
| InputEngine.ActiveInstance.MouseKeyCallback | engine/src/input_engine.cpp:173-177 | the free mouse-button callback requires an active engine and raises its mouse event through that engine's dispatcher |
| InputEngine.ActiveInstance.CursorPositionCallback | engine/src/input_engine.cpp:179-183 | the free cursor callback requires an active engine and raises its motion event through that engine's dispatcher |
| InputEngine.InputEngine.constructor | engine/src/input_engine.cpp:187-189 | a new input engine is unbound |
| InputEngine.InputEngine.Init | engine/src/input_engine.cpp:193-199 | requires unbound; afterwards bound to the window and dispatcher, all three window callbacks installed, and this engine active |
| InputEngine.InputEngine.Deinit | engine/src/input_engine.cpp:201-207 | requires bound; afterwards unbound, the window's three callbacks reset and the active pointer null |
| InputEngine.InputEngine.KeyCallback | engine/src/input_engine.cpp:120-133 | raises one event: KEYBOARD with the translated key and action and an empty payload, whatever the scancode and modifiers; its handler, if any, is invoked once with it |
| InputEngine.InputEngine.MouseKeyCallback | engine/src/input_engine.cpp:135-146 | raises one event: MOUSE with the translated button and action and an empty payload; its handler, if any, is invoked once with it |
| InputEngine.InputEngine.CursorPositionCallback | engine/src/input_engine.cpp:148-162 | raises one (MOUSE, MOUSE, MOVED) event carrying (xpos, ypos); its handler, if any, is invoked once with it |
| InputEngine.SpacePressReachesHandler | engine/src/input_engine.cpp:120-133 | a handler for (KEYBOARD, SPACE, PRESSED) runs on a GLFW space press, but not on its auto-repeat |
| InputEngine.CursorHandlerOnlySeesMotion | engine/src/input_engine.cpp:148-162 | a cursor-motion handler receives the exact cursor position, and no key or button callback reaches it |
| Physics.GravityIsTenDown | engine/src/physics_engine.cpp:41 | the gravity constant is 10 × (0, -1, 0) |
| Physics.AccelerationCases | engine/src/physics_engine.cpp:41-44 | zero inverse mass gives zero acceleration; mass × inverse mass = 1 gives exactly gravity (0, -10, 0) |
| Physics.PassMovesWithOldVelocity | engine/src/physics_engine.cpp:29-47 | a pass moves the body with its velocity from before the pass, then adds acceleration × dt to the velocity; mass is unchanged |
| Physics.StaticBodyIsNotAccelerated | engine/src/physics_engine.cpp:44-45 | a body with zero inverse mass ends any pass with zero acceleration and its velocity unchanged |
| Physics.MassIndependence | engine/src/physics_engine.cpp:41-45 | two bodies that differ only in consistent masses end a pass in the same motion state, with acceleration gravity |
| Physics.Accumulate | engine/src/physics_engine.cpp:17-23 | one update runs a pass exactly when spent + dt exceeds the step; the pass uses the whole sum, which is above the step, and resets the time to 0; no time is lost |
| Physics.AccumulateKeepsBudget | engine/src/physics_engine.cpp:17-23 | with a non-negative step and frame time, 0 <= spent time <= step is preserved by an update |
| Physics.RunConservesTime | engine/src/physics_engine.cpp:17-23 | over any run of updates, the time integrated by passes plus the time left equals the start time plus all frame times |
| Physics.RunPassesExceedStep | engine/src/physics_engine.cpp:17-23 | over a run with non-negative frame times, every pass exceeds the step and the time left stays within [0, step] |
| Physics.ThreeFramesRunThreePasses | engine/src/physics_engine.cpp:17-23 | three updates of 0.02 s with step 1/60 s run three passes of 0.02 s and leave 0 |
| Physics.TwoShortFramesRunOnePass | engine/src/physics_engine.cpp:17-23 | two updates of 0.01 s with step 1/60 s run one pass of 0.02 s on the second and leave 0 |
| Physics.UnitMassFalls | engine/src/physics_engine.cpp:29-47 | three passes of 0.02 s on a unit-mass body at rest at (0, 5, 0) reach velocity (0, -0.6, 0) and height 4.988 |
| Physics.UnitMassPass | engine/src/physics_engine.cpp:29-47 | for a unit-mass body, a pass moves with the old velocity and adds gravity × dt to the velocity |
| Physics.RigidBody.constructor | engine/src/physics_engine.cpp:34-47 | a rigid body starts with the given position, velocity and masses, and zero acceleration |
| Physics.RigidBody.Move | engine/src/physics_engine.cpp:36 | the body's position advances by its velocity × dt; nothing else about it changes |
| Physics.RigidBody.ApplyForce | engine/src/physics_engine.cpp:44-45 | the body's acceleration becomes mass × G × mass_inv and its velocity gains acceleration × dt; position and masses keep their values |
| Physics.PhysicsEngine.constructor | engine/include/physics_engine.hpp:11 | a new accumulator has no bodies |
| Physics.PhysicsEngine.Init | engine/src/physics_engine.cpp:5-8 | the step becomes the argument and the accumulated time 0; bodies unchanged |
| Physics.PhysicsEngine.Deinit | engine/src/physics_engine.cpp:10-15 | step and accumulated time become 0 and the body set is emptied |
| Physics.PhysicsEngine.AddRigidBody | engine/src/physics_engine.cpp:25-27 | set insertion: the body set becomes the old set plus the body, so adding twice is adding once |
| Physics.PhysicsEngine.Update | engine/src/physics_engine.cpp:17-23 | the new time is Accumulate's; without a pass no registered body changes; with a pass every registered body undergoes one Pass of the whole sum; unregistered bodies are outside the frame |
| Physics.PhysicsEngine.Simulate | engine/src/physics_engine.cpp:29-32 | every registered body undergoes one Pass: move, then apply forces |
| Physics.PhysicsEngine.MoveBodies | engine/src/physics_engine.cpp:34-38 | every registered body moves by its velocity × dt, each once, in any order |
| Physics.PhysicsEngine.ApplyForces | engine/src/physics_engine.cpp:40-47 | every registered body gets acceleration mass × G × mass_inv and velocity + acceleration × dt, each once |
| Physics.SixtiethTicks | engine/src/physics_engine.cpp:17-23 | with step 1/60 s: 0.01 s from rest runs no pass; a second 0.01 s runs a pass of 0.02 s; 0.02 s from rest runs a pass of 0.02 s; each pass resets the time to 0 |
| Physics.TwoShortFrames | engine/src/physics_engine.cpp:17-23 | step 1/60 s, two updates of 0.01 s: after the first the body is untouched and 0.01 is accumulated; after the second one pass of 0.02 s has run and the time is 0 |
| Physics.ThreeFrames | engine/src/physics_engine.cpp:17-23 | step 1/60 s, three updates of 0.02 s: three passes, time 0, body at height 4.988 with velocity (0, -0.6, 0) |
| Physics.AddTwiceIntegratesOnce | engine/src/physics_engine.cpp:25-27 | a body added twice is integrated once per pass, and a body never added is untouched |
| Mesh.SphereConstants | engine/src/mesh.cpp:203-207 | 11 rows and 24 points per row follow from the 15° step; 266 vertex slots and 528 triangle slots |
| Mesh.PlatformFacesWellFormed | engine/src/mesh.cpp:18-51 | every platform triangle has three distinct indices below 8, the vertex count |
| Mesh.PlatformSidesCovered | engine/src/mesh.cpp:32-51 | triangles 2k and 2k+1 are distinct, lie on box side k (front, right, back, left, top, bottom) and together use its four corners |
| Mesh.CreatePlatformMesh | engine/src/mesh.cpp:191-194 | the platform draws 36 indices, each naming one of its 8 vertices |
| Mesh.RingSlot | engine/src/mesh.cpp:213-232 | loop slot i·24 + j holds the ring point of ring i, column j − 1 |
| Mesh.BandSlot | engine/src/mesh.cpp:259-284 | band slot (band + 1) · 48 + 2c (+1) holds the first (second) triangle of column c between rings band and band + 1 |
| Mesh.BandFaces | engine/src/mesh.cpp:262-273 | the two band triangles the inner loop writes at column j are the reference ones |
| Mesh.InnerColumn | engine/src/mesh.cpp:262-273 | away from the seam, columns j and j + 1 of rings i and i + 1 are slots i·24 + j + 1 and the next ones, with no wrap-around |
| Mesh.SeamFaces | engine/src/mesh.cpp:274-283 | the two band triangles after the inner loop are the reference ones that close the seam |
| Mesh.RingVertexAngles | engine/src/mesh.cpp:213-232 | ring r, column c names a ring-point slot at polar angle (r+1)·15° and azimuth (c mod 24)·15° |
| Mesh.RingPointsBetweenPoles | engine/src/mesh.cpp:213-232 | every slot between the poles is a ring point with polar angle strictly between 0° and 180° and azimuth below 360° |
| Mesh.BallVerticesDistinct | engine/src/mesh.cpp:207-236 | no vertex is written into two slots |
| Mesh.NeighbourSlots | engine/src/mesh.cpp:238-284 | neighbouring columns of one ring are distinct slots strictly between the poles, including the seam pair |
| Mesh.BandFaceInRings | engine/src/mesh.cpp:259-284 | every band triangle has three distinct corners, all strictly between the poles |
| Mesh.BallFaceWellFormed | engine/src/mesh.cpp:238-284 | every ball triangle has three distinct indices below 266, the vertex count |
| Mesh.BallFacePoles | engine/src/mesh.cpp:240-257 | the 24 top-cap triangles contain vertex 0 and the 24 bottom-cap triangles vertex 265; no other triangle contains a pole, and neither cap contains the other's pole |
| Mesh.TopCapFan | engine/src/mesh.cpp:240-245 | the top cap fans round the first ring in azimuth order, and its last triangle closes at azimuth 0 |
| Mesh.BottomCapFan | engine/src/mesh.cpp:247-257 | the bottom cap fans round the last ring in azimuth order, and its last triangle closes at azimuth 0 |
| Mesh.EveryVertexIsUsed | engine/src/mesh.cpp:238-284 | every one of the 266 vertex slots is a corner of some triangle |
| Mesh.GenerateBallVertices | engine/src/mesh.cpp:207-236 | the vertex array has 266 slots: the top pole, 11 rings of 24 points, the bottom pole, each as BallVertex names it |
| Mesh.FillCaps | engine/src/mesh.cpp:240-257 | the 48 cap slots hold the reference top-fan and bottom-fan triangles, and every later slot keeps its value |
| Mesh.FillQuad | engine/src/mesh.cpp:262-283 | the two slots of column j of band i hold the reference triangles; every other slot keeps its value |
| Mesh.FillBand | engine/src/mesh.cpp:259-284 | the 48 slots of band i hold the reference triangles, and every slot before or after the band keeps its value |
| Mesh.GenerateBallFaces | engine/src/mesh.cpp:238-284 | the triangle array has 528 slots, each holding the triangle BallFace names |
| Mesh.GenerateBallMeshData | engine/src/mesh.cpp:197-287 | both arrays, with those sizes and contents |
| Mesh.CreateBallMesh | engine/src/mesh.cpp:289-333 | the ball draws 3 × 528 = 1584 indices, each naming one of its 266 vertices |

## Left out

- Window plumbing, GLFW polling, OpenGL buffer and shader setup, `TMesh::draw` and the `std::exit` failure paths: foreign calls with no logic of their own. The window is reduced to its three callback slots.
- Sphere vertex positions and colours (`mesh.cpp:214-228`): floating-point trigonometry. A vertex slot records the pole or the (polar angle, azimuth) pair its position is computed from. For the same reason the `radius` parameter of `GenerateBallMeshData` is dropped.
- `GenerateBallMeshData` is split into `GenerateBallVertices` and `GenerateBallFaces`. The second takes the vertex count that the C++ reads from `mesh_data.size()`.
- `GenerateBallFaces` is split into `FillCaps` (the two cap loops), `FillBand` (one iteration of the band loop) and `FillQuad` (the two writes of one column; the writes after the inner loop are its last column). The physics loops call `RigidBody.Move` and `RigidBody.ApplyForce`, which hold the per-body statements of `moveBodies` and `applyForces`.
- GenerateBallFaces: states the final contents of every triangle slot. That no slot is written twice shows only in the frames of `FillCaps`, `FillBand` and `FillQuad` (each writes its own slots and keeps the rest), not as a write count.
- The sphere sizes are written as literals (`SphereConstants` proves they equal the C++ formulas), so the index arithmetic stays linear.
- Float rounding: all physics arithmetic is over the reals, and `1/60` is exact.
- Physics.PhysicsEngine.constructor: promises only the empty body set, because the C++ default constructor leaves `simulation_step_` and `spent_time_` indeterminate.
- The engine orchestrator, body registry and camera binding: `engine.cpp` has no code for them, so they are not part of this model. Cameras (`camera.cpp`, `player_camera.cpp`) are trigonometry over matrices and a clock.
- The game layer (`game/`) is not part of this model. Its key map appears only in spirit, as the `SpacePressReachesHandler` client.
- Re-entrant self-replacement of a handler during `raise`: handlers are opaque ids and invoking one is returned as a value, so a handler cannot run code against the dispatcher.
- Unregistered or destroyed body references (dangling pointers) are not modelled. Bodies are Dafny objects, which are always allocated.
- The callback parameters `scancode` and `mods` are accepted and ignored, as in the source.
