# pyUniverse — a verified model of the simulation core

pyUniverse draws a small solar system with OpenGL: a sun, six planets and the
earth's moon. Each frame moves every body along its orbit and spins it about
its own axis. The mouse turns and zooms the camera. The keyboard changes the
speed of time, resets the view, or quits.

This project models the state behind that picture and the callbacks that
change it. All of it lives in `main.py`.

- `kinematics.dfy` (module `Kinematics`): one body's per-frame angle update and its repetition over many frames.
- `scene.dfy` (module `Scene`): the `Planet` and `SolarSystem` classes.
  - It includes the fixed catalogue of bodies and the scene builder `CreateSolarSystem`.
  - The scene's validity invariant says no body is reachable twice.
- `controls.dfy` (module `Controls`): the camera, mouse and clock state as a pure state machine.
  - It covers mouse buttons and wheel, drag motion and key presses.
  - It also covers runs of events.
- `sampling.dfy` (module `Sampling`): Python's `range`, and the sample angles of orbit paths and rings.
  - Vertices are returned in polar form.
- `universe.dfy` (module `Universe`): the `Simulation` class.
  - Its constructor builds the scene.
  - The `Display` frame update advances every body exactly once.
  - `Mouse`, `Motion` and `Keyboard` are each proved to follow the matching `Controls` function.

Floating-point numbers are modelled as mathematical reals.

## Model

| member | source | states |
|---|---|---|
| Kinematics.Tick | main.py:131-137 | one frame adds speed x 0.1 x time speed to the revolution angle and speed x 0.5 x time speed to the rotation angle; a zero speed leaves its angle alone, and with positive time speed and non-negative speeds no angle decreases |
| Kinematics.Ticks | main.py:128-159 | after n frames at a fixed time speed, each angle has grown by exactly n times its per-frame step |
| Kinematics.TicksCompose | main.py:128-159 | n frames followed by m frames equal n + m frames |
| Kinematics.StillBodyStaysPut | main.py:33 | a body with revolution speed 0 (the sun) keeps its revolution angle over any number of frames |
| Kinematics.TenFramesAtDoubleSpeed | main.py:131-137 | a worked case: ten frames at time speed 2 take a body with revolution speed 1.5 and rotation speed 2 from rest to angles 3 and 20 |
| Scene.CatalogueShape | main.py:33-40 | the catalogue has seven bodies, and only saturn has rings; every radius is positive; only the sun has revolution speed 0, and it sits at distance 0 |
| Scene.Planet.constructor | main.py:9-18 | a new body has the given parameters, both angles 0, no moons, and no rings unless asked |
| Scene.Planet.Advance | main.py:131-137 | one frame adds speed x 0.1 x time speed to the revolution angle and speed x 0.5 x time speed to the rotation angle |
| Scene.Planet.AdvanceWithMoons | main.py:131-157 | one pass of the frame loop for one body: the body and each of its distinct moons advance exactly one frame |
| Scene.SolarSystem.constructor | main.py:21-30 | an empty scene; light at (5, 5, 5, 1); camera 15 away at angles 0; not dragging; last cursor at (0, 0) |
| Scene.SolarSystem.BuiltScene | main.py:32-45 | eight distinct bodies arranged as the builder arranges them form a valid scene holding the catalogue, and they are exactly the bodies drawn |
| Scene.SolarSystem.FreshScene | main.py:33-45 | when every body of the scene was allocated by the builder, the whole scene is newly allocated |
| Scene.SolarSystem.CreateSolarSystem | main.py:32-46 | the planets become the seven catalogue bodies in order, at rest; only the earth has one moon, at rest; no body is shared; the light moves to (0, 0, 0, 1); every body of the scene is newly allocated; nothing else changes |
| Controls.Max | main.py:179 | the result is one of the two arguments and is at least both |
| Controls.Min | main.py:181 | the result is one of the two arguments and is at most both |
| Controls.ZoomIn | main.py:178-179 | one unit closer but never below 5; a distance in [5, 50] stays in [5, 50] |
| Controls.ZoomOut | main.py:180-181 | one unit further but never above 50; a distance in [5, 50] stays in [5, 50] |
| Controls.ClampPitch | main.py:190 | the result is in [-89, 89]; values inside are kept and values outside go to the nearer bound |
| Controls.Mouse | main.py:170-181 | a left press starts a drag and records the cursor; a left button in any other state ends the drag; button 3 zooms in and button 4 zooms out; other buttons change nothing; the clamping invariants are kept |
| Controls.Motion | main.py:183-193 | with no drag nothing changes; while dragging, yaw turns by half the x move, pitch by half the y move clamped to [-89, 89], and the cursor is recorded |
| Controls.Lower | main.py:196 | ASCII upper-case letters become lower-case; every other character is kept |
| Controls.Keyboard | main.py:195-207 | the program quits exactly on q, Q or escape; otherwise the drag state and cursor are kept and the clamping invariants hold |
| Controls.ResetRestoresHome | main.py:203-207 | r and R restore time speed 1, distance 15 and both camera angles 0, keeping drag state and cursor |
| Controls.SpeedKeysInverse | main.py:199-202 | + then -, and - then +, give back the state |
| Controls.OtherKeysInert | main.py:195-207 | any key other than q, Q, escape, +, -, r, R changes nothing |
| Controls.PlusPressesCompound | main.py:199-200 | n presses of + multiply the time speed by 1.5 to the n and change nothing else |
| Controls.Step | main.py:221-223 | an event goes to its handler; only a quit key stops the program; the clamping invariants are kept; a cursor move without a drag changes nothing |
| Controls.Run | main.py:221-226 | events handled in order, stopping at a quit key; any run from a state in range stays in range, and cursor moves alone without a drag change nothing |
| Controls.AlwaysInRange | main.py:25-30 | from start-up, distance, pitch and time speed stay in range under any run of events |
| Controls.ReleaseStopsDrag | main.py:176-177 | after a left-button release, a cursor move changes nothing |
| Sampling.RangeShape | main.py:58 | element k of Python's `range(start, stop, step)` is start + k x step, and its length is the number of steps that fit below stop |
| Sampling.Range | main.py:58 | Python's `range` with a positive step: every element lies in [start, stop), it is empty exactly when start >= stop, and it begins at start |
| Sampling.OrbitDegrees | main.py:70 | an orbit is sampled at 73 angles, 5k degrees for k = 0..72, from 0 to 360 |
| Sampling.RingDegrees | main.py:58 | a ring is sampled at 37 angles, 10k degrees for k = 0..36, from 0 to 360 |
| Sampling.DrawOrbit | main.py:67-75 | the line loop has 73 vertices at the orbit's radius, vertex k at 5k degrees; the last lies in the first's direction, so the loop closes |
| Sampling.DrawRing | main.py:55-65 | the quad strip has 74 vertices; for each sample k there is an inner vertex then an outer vertex, both at 10k degrees |
| Sampling.RingBand | main.py:145 | the ring spans 1.5 to 2.2 times the body's radius, which lies wholly outside the body, and is 0.7 radii wide |
| Universe.Simulation.constructor | main.py:96-99 | the simulation holds a newly allocated, valid scene of newly allocated bodies with the catalogue built, light at the sun, the start-up camera and time speed 1 |
| Universe.Simulation.Display | main.py:128-159 | every top-level body and every moon advances by exactly one frame at the current time speed; nothing but the two angle fields of those bodies changes; the scene stays valid |
| Universe.Simulation.Mouse | main.py:170-181 | the camera and mouse state changes as `Controls.Mouse` says |
| Universe.Simulation.Motion | main.py:183-193 | the camera and mouse state changes as `Controls.Motion` says |
| Universe.Simulation.Keyboard | main.py:195-207 | returns quit exactly when `Controls.Keyboard` quits, and then changes nothing; otherwise the state changes as `Controls.Keyboard` says |
| Universe.AdvanceFamilies | main.py:128-159 | the frame loop: every listed body and every moon of those bodies advances exactly one frame, and only their angle fields change |
| Universe.FamilyIsBodies | main.py:128-148 | the bodies the loop reaches through the top-level list and its moon lists are exactly the scene's bodies |
| Universe.SpeedUpThenFrame | main.py:216-224 | start-up, one `+` key and one frame leave mercury 0.225 degrees along its orbit and the sun at 0 |
| Universe.ValidIsDisjoint | main.py:128-148 | in a valid scene, the top-level bodies and their moon lists share no body |

## Left out

- Drawing is not modelled:
  - the OpenGL, GLU and GLUT calls;
  - `draw_sphere`, `init_lighting`, `init_gl`, `reshape` and `main`;
  - the matrix stack and the camera position computed with sine and cosine in `display`.
  - The model keeps only the state those calls read.
- Trigonometry is not modelled. Orbit and ring vertices are kept as radius and whole degrees, not as cosine and sine products.
- Colours passed to draw calls are not modelled. Body colours are kept as data.
- Universe.Simulation.Keyboard: `sys.exit()` is modelled as a returned quit flag, because ending the process is outside the model.
- Controls.Lower: the key is modelled as a character, not as the byte the toolkit delivers. A byte of 0x80 or more is not valid UTF-8 on its own, so the decoding at `main.py:196` raises an error for it. The model has no such error path and treats every non-ASCII character as a key that changes nothing. Lower-casing is ASCII only.
- Kinematics.Tick: floating-point rounding and overflow are not modelled, because angles and speeds are reals.
  - `+` followed by `-` restores the time speed exactly here, but only approximately in the program.
  - After about 1751 presses of `+`, the float time speed overflows to infinity. The sun's step 0 x 0.1 x infinity is then NaN, so Kinematics.StillBodyStaysPut holds only for reals.
- The `stars` list is not modelled, because nothing ever reads or fills it.
- Universe.Simulation.Display requires a valid scene, meaning no body is listed twice. Every scene the program builds is valid; with a shared body, the program would advance that body twice per frame.
- Universe.Simulation.Display: the order in which bodies are advanced is not stated. Each body's update depends only on its own fields and the time speed, so the order cannot be observed.

## Notes on the source

- Pitch: `main.py:190` clamps the pitch to the closed range [-89, 89], so both limits are reachable. Controls.ClampPitch states this.
- Drag end: `main.py:176-177` ends a drag on any left-button state other than "down", not only on a release. Controls.Mouse states this.
