# libgdxjam core in Dafny

This project models three pieces of the libgdxjam platformer.

1. **The game screen** (`GameScreen`): the fixed-step frame loop of `render`.
   - It clamps the wall-clock delta to `MAX_STEP` and adds it to an accumulator.
   - While at least one `STEP` is banked, it sets the physics interpolation alpha, ticks the engine and takes one `STEP` off.
   - It then updates the (non-processing) rendering system once.
   - Also modelled: the engine configuration of `setupEngine` (nine systems with their priorities, debug drawing on, rendering taken out of the engine's tick) and the screen's input callbacks (D toggles debug drawing; every other callback is unhandled).
2. **The player system** (`PlayerSystem`):
   - The contact listener counts the feet-sensor contacts of each player. It derives `grounded` from the count and adjusts the friction of the body fixture. `preSolve` resets a contact's friction for grounded players.
   - UP down and UP up set and clear every player's jump flag.
   - `processEntity` issues the movement commands: horizontal impulses under a speed cap, the counter-press stop, the jump, and the horizontal clamp.
3. **The grunt loader plugin** (`GruntPlugin.load`):
   - Reads the tunables with their defaults.
   - Derives the patrol bounds from the spawn position.
   - Chooses the initial state-machine states from `initialState`.
   - Attaches the components in order.

Files:

- `input.dfy` (module `Input`): the input-callback datatype and the libGDX key codes the callbacks compare against (UP 19, D 32); LEFT and RIGHT are polled, not delivered, and arrive as the `KeyState` of `ProcessEntity`.
- `game_screen.dfy` (module `Screens`):
  - The frame arithmetic as functions. `Drain` is the recursive specification of the `while` loop.
  - The engine as a class that records the calls it receives as a trace.
  - `GameScreen` as a class whose `Render` runs that loop.
- `player_system.dfy` (module `Agents`):
  - The grounding rules as functions over a `Grounding` value.
  - `Player` and `PlayerSystem` classes whose methods loop over the players as the listener does.
  - A `Body` that logs the commands `ProcessEntity` issues.
- `grunt_plugin.dfy` (module `Plugins`): the pure property/bounds/state functions, and an `Entity` class that `Load` attaches components to.

The definitions the lemmas below are about, with the source lines each one models:

- `Screens.Drain`: the catch-up loop, GameScreen.java:91-95. `Screens.TickCount` counts its passes.
- `Screens.RenderFrame`: one call of `render`, GameScreen.java:83-98. `Screens.RenderFrames` is successive calls of it, and `Screens.Elapsed` is the simulated time they bank.
- `Agents.OnFeetBegin` and `Agents.OnFeetEnd`: one player's update in `beginContact` (PlayerSystem.java:185-187) and in `endContact` (PlayerSystem.java:198-203).
- `Agents.HorizontalCommands`, `Agents.JumpCommands` and `Agents.ClampCommands`: the three blocks of `processEntity`, at PlayerSystem.java:62-88, :90-108 and :110-116. `Agents.MovementCommands` (PlayerSystem.java:48-117) is the three in sequence, and `Agents.CapToward` is `velocitySign * maxVelocityX` (PlayerSystem.java:56 and :113).
- `Plugins.ReadGrunt` (GruntPlugin.java:50-77), `Plugins.PatrolFor` (GruntPlugin.java:82-88), `Plugins.ChooseStates` (GruntPlugin.java:77-96) and `Plugins.LoadedComponents` (GruntPlugin.java:62-104): the grunt, its patrol, its state machine and its components as `load` builds them.

Times and physical quantities are `real`. The physics step and the catch-up ceiling (`Env.STEP`, `Env.MAX_STEP`) are constructor parameters of the screen.

## Model

| member | source | states |
|---|---|---|
| Screens.FrameTime | core/src/com/siondream/libgdxjam/screens/GameScreen.java:85 | the frame time is the smaller of the wall-clock delta and `MAX_STEP`: at most each, and equal to one of them |
| Screens.TickCountIsFloor | core/src/com/siondream/libgdxjam/screens/GameScreen.java:91-95 | on a non-negative accumulator the recursive tick count `TickCount` equals the closed form floor(accumulator / STEP); `DrainCounts` equates `TickCount` with the number of engine ticks the loop makes |
| Screens.FloorStep | core/src/com/siondream/libgdxjam/screens/GameScreen.java:94 | subtracting one STEP from an accumulator of at least STEP lowers floor(accumulator / STEP), which is then at least 1, by exactly one, so the loop terminates |
| Screens.DrainResidual | core/src/com/siondream/libgdxjam/screens/GameScreen.java:91-95 | after the loop the accumulator is below STEP, equals the start minus ticks × STEP, and is non-negative when the start was |
| Screens.DrainPassAt | core/src/com/siondream/libgdxjam/screens/GameScreen.java:91-95 | the loop makes two calls per tick, and pass k (from 0) runs on an accumulator of acc − k·STEP, still at least STEP, setting alpha STEP / (acc − k·STEP) and then updating the engine with the frame delta |
| Screens.AfterPassesClosedForm | core/src/com/siondream/libgdxjam/screens/GameScreen.java:94 | k passes of the loop body take exactly k·STEP off the accumulator |
| Screens.DrainLength | core/src/com/siondream/libgdxjam/screens/GameScreen.java:91-95 | the loop makes two calls per tick |
| Screens.DrainCounts | core/src/com/siondream/libgdxjam/screens/GameScreen.java:91-95 | the loop ticks the engine once per pending STEP and never updates the rendering system |
| Screens.DrainDeltas | core/src/com/siondream/libgdxjam/screens/GameScreen.java:86-93 | every engine tick in a frame receives the same frame delta |
| Screens.DrainAlphaBounds | core/src/com/siondream/libgdxjam/screens/GameScreen.java:91-92 | every interpolation alpha handed to the physics system lies in (0, 1] |
| Screens.DrainResidualIndependent | core/src/com/siondream/libgdxjam/screens/GameScreen.java:91-95 | the accumulator left by the loop does not depend on the delta given to the ticks |
| Screens.RenderFrameClock | core/src/com/siondream/libgdxjam/screens/GameScreen.java:83-96 | one frame: the clock moves to the new time; at most MAX_STEP is banked; the residual is below STEP and equals the banked time minus ticks × STEP; when the banked total is non-negative the residual is non-negative and there are floor(total / STEP) ticks (otherwise none) |
| Screens.RenderFrameTrace | core/src/com/siondream/libgdxjam/screens/GameScreen.java:83-98 | one frame: the engine ticks once per STEP taken off, every tick gets the frame delta, alphas are in (0, 1], and the rendering system is updated once, last, with STEP |
| Screens.ElapsedNonNegative | core/src/com/siondream/libgdxjam/screens/GameScreen.java:84-89 | with a clock that does not go backwards and a non-negative MAX_STEP, the simulated time of a run of frames is non-negative |
| Screens.DrainSplit | core/src/com/siondream/libgdxjam/screens/GameScreen.java:89-95 | for any x and non-negative e, draining x and then its residual plus e ticks as often as draining x + e at once, and leaves the same residual |
| Screens.RenderFramesTicks | core/src/com/siondream/libgdxjam/screens/GameScreen.java:83-98 | for wall-clock times that never decrease, MAX_STEP >= 0 and a starting accumulator in [0, STEP): over the whole run the engine ticks exactly floor((acc0 + simulated time) / STEP) times (no time lost or double-counted across frames), the accumulator ends in [0, STEP) where one drain of the whole time would leave it, and rendering is updated once per frame |
| Screens.RenderFramesDrain | core/src/com/siondream/libgdxjam/screens/GameScreen.java:83-98 | under the same hypotheses, the frames tick as often as one drain of the whole banked time and leave its residual; the induction behind the row above |
| Screens.StrictOrderUnique | core/src/com/siondream/libgdxjam/screens/GameScreen.java:203-211 | two priority-sorted lists of the same distinct systems are equal, so distinct priorities fix one tick order |
| Screens.SetUpPriorities | core/src/com/siondream/libgdxjam/screens/GameScreen.java:203-229 | after set-up the nine priorities are distinct, none exceeds 9, and the rendering system has priority 9 and is not processing |
| Screens.SetUpTicksIsTickOrder | core/src/com/siondream/libgdxjam/screens/GameScreen.java:203-229 | the processing systems, by ascending priority, are physics, camera, light, particle, layer, spine, CCTV, player |
| Screens.SetUpTickOrder | core/src/com/siondream/libgdxjam/screens/GameScreen.java:203-229 | after set-up, that order is the only priority order of the processing systems, even though rendering is registered before CCTV and player |
| Screens.SetUpTickOrderAnyRegistration | core/src/com/siondream/libgdxjam/screens/GameScreen.java:203-229 | any engine holding the same systems as set-up, registered in whatever order, has that same unique tick order |
| Screens.Engine.AddSystem | core/src/com/siondream/libgdxjam/screens/GameScreen.java:213-221 | registering a system appends it to the engine's systems |
| Screens.Engine.SetProcessing | core/src/com/siondream/libgdxjam/screens/GameScreen.java:229 | the named system's processing flag is set, every other system is unchanged |
| Screens.Engine.SetDebug | core/src/com/siondream/libgdxjam/screens/GameScreen.java:228 | debug drawing is set to the given value |
| Screens.Engine.ToggleDebug | core/src/com/siondream/libgdxjam/screens/GameScreen.java:137 | debug drawing is flipped |
| Screens.Engine.SetPhysicsAlpha | core/src/com/siondream/libgdxjam/screens/GameScreen.java:92 | the alpha call is appended to the trace |
| Screens.Engine.Update | core/src/com/siondream/libgdxjam/screens/GameScreen.java:93 | the engine tick is appended to the trace |
| Screens.Engine.UpdateRendering | core/src/com/siondream/libgdxjam/screens/GameScreen.java:97 | the direct rendering update is appended to the trace |
| Screens.SetupEngine | core/src/com/siondream/libgdxjam/screens/GameScreen.java:179-230 | a fresh engine holding the nine systems in registration order with priorities 1 to 9, debug drawing on, rendering not processing, and no calls yet |
| Screens.GameScreen.constructor | core/src/com/siondream/libgdxjam/screens/GameScreen.java:45-66 | the engine is set up and the accumulator and the clock both start at zero |
| Screens.GameScreen.Render | core/src/com/siondream/libgdxjam/screens/GameScreen.java:83-98 | the loop leaves the clock as `RenderFrame` says and appends exactly `RenderFrame`'s calls to the engine trace; the accumulator stays below STEP |
| Screens.GameScreen.HandleInput | core/src/com/siondream/libgdxjam/screens/GameScreen.java:134-177 | a callback is handled exactly when it is D pressed, and debug drawing is flipped exactly then |
| Agents.ReplayCounts | core/src/com/siondream/libgdxjam/ecs/systems/agents/PlayerSystem.java:178-203 | after any sequence of callbacks: the feet counter is the start plus feet-sensor begins minus ends, with no clamp; once any has occurred, grounded is "counter > 0"; callbacks not involving the feet sensor change nothing; the grounded/friction consistency is kept |
| Agents.BeginBeginEndStaysGrounded | core/src/com/siondream/libgdxjam/ecs/systems/agents/PlayerSystem.java:178-203 | two overlapping ground contacts, one ending: the player is still grounded, counter 1, with the ground friction |
| Agents.UnmatchedEndGoesNegative | core/src/com/siondream/libgdxjam/ecs/systems/agents/PlayerSystem.java:192-203 | an end with no begin takes the counter to −1, leaves the player airborne and zeroes the friction |
| Agents.PlayerSystem.BeginContact | core/src/com/siondream/libgdxjam/ecs/systems/agents/PlayerSystem.java:178-189 | every player whose feet sensor the contact involves gains one contact, becomes grounded as the count says and gets the ground friction; others are unchanged; jump flags untouched |
| Agents.PlayerSystem.EndContact | core/src/com/siondream/libgdxjam/ecs/systems/agents/PlayerSystem.java:191-205 | every player whose feet sensor the contact involves loses one contact, and its friction drops to 0 exactly when it is no longer grounded; others are unchanged |
| Agents.PlayerSystem.PreSolve | core/src/com/siondream/libgdxjam/ecs/systems/agents/PlayerSystem.java:207-218 | the friction is reset for the k-th player exactly when the contact involves its body fixture, it is grounded and the contact touches |
| Agents.PlayerSystem.HandleInput | core/src/com/siondream/libgdxjam/ecs/systems/agents/PlayerSystem.java:119-175 | UP pressed sets every jump flag, UP released clears it, any other callback changes nothing; no callback is reported handled; grounding untouched |
| Agents.PlayerSystem.ProcessEntity | core/src/com/siondream/libgdxjam/ecs/systems/agents/PlayerSystem.java:48-117 | the body receives exactly `MovementCommands` of the start-of-tick snapshot, in order, and a pending jump is consumed exactly when the player is grounded |
| Agents.Body.MoveHorizontally | core/src/com/siondream/libgdxjam/ecs/systems/agents/PlayerSystem.java:62-88 | the body's log gains exactly `HorizontalCommands` of the snapshot |
| Agents.Body.Jump | core/src/com/siondream/libgdxjam/ecs/systems/agents/PlayerSystem.java:90-108 | the body's log gains the zeroing of the vertical velocity, the 0.1 lift and the upward impulse when the jump fires, and nothing otherwise |
| Agents.Body.ClampVelocity | core/src/com/siondream/libgdxjam/ecs/systems/agents/PlayerSystem.java:110-116 | the body's log gains the velocity set to the signed cap exactly when the snapshot's horizontal speed exceeds the cap |
| Agents.JumpFiresExactlyWhenGroundedAndPending | core/src/com/siondream/libgdxjam/ecs/systems/agents/PlayerSystem.java:89-107 | the body is moved only when grounded with a jump pending; then the commands are exactly the horizontal commands, then vertical velocity zeroed, a 0.1 lift at the same angle and one upward `verticalImpulse`, then the clamp; otherwise exactly the horizontal commands and the clamp, so no upward impulse in the air |
| Agents.HorizontalRule | core/src/com/siondream/libgdxjam/ecs/systems/agents/PlayerSystem.java:53-87 | a key impulse is applied exactly when LEFT or RIGHT is held below the speed cap, leftwards for LEFT; the horizontal velocity is zeroed exactly when the held key presses against a motion of at least 0.5; LEFT takes precedence; no key, no command; at most one impulse and one stop are issued and nothing else, the impulse before the stop |
| Agents.ClampRule | core/src/com/siondream/libgdxjam/ecs/systems/agents/PlayerSystem.java:57-115 | above the cap (ground or air cap as grounded says) exactly one command follows the horizontal and jump commands, setting the horizontal velocity to the cap with the original sign and vertical velocity; at or below it nothing is appended |
| Agents.CapTowardIsSignedCap | core/src/com/siondream/libgdxjam/ecs/systems/agents/PlayerSystem.java:56-115 | the clamped horizontal speed `CapToward` is `Math.signum(velocity.x) * cap`, and its size is the cap when the player moves and the cap is not negative |
| Plugins.ReadGruntDefaults | core/src/com/siondream/libgdxjam/overlap/plugins/GruntPlugin.java:50-77 | each tunable is its property when present, else 7.0, 2.0, 0.0, 0.0, 1.0, 1.0; `initialState` defaults to "patrol"; center is the spawn x |
| Plugins.PatrolBounds | core/src/com/siondream/libgdxjam/overlap/plugins/GruntPlugin.java:82-88 | maxX is rightWalkableArea right of the center and minX leftWalkableArea left of it, so the bounds hold the center when both are non-negative; speed and direction copied; wait times crossed over |
| Plugins.ChooseStatesRule | core/src/com/siondream/libgdxjam/overlap/plugins/GruntPlugin.java:77-96 | a current state exists exactly for "patrol" and "sleep" and is then the grunt's patrol; a Sleep is pending exactly for "sleep" |
| Plugins.DefaultIsPatrol | core/src/com/siondream/libgdxjam/overlap/plugins/GruntPlugin.java:77-96 | with no `initialState` property the grunt patrols with nothing pending |
| Plugins.Entity.Add | core/src/com/siondream/libgdxjam/overlap/plugins/GruntPlugin.java:98-104 | a component is appended; a null one is refused and nothing is appended |
| Plugins.Load | core/src/com/siondream/libgdxjam/overlap/plugins/GruntPlugin.java:38-105 | the grunt and state machine are as `ReadGrunt` and `ChooseStates` give them; the entity gains `LoadedComponents`; the load completes exactly when a state was chosen |
| Plugins.LoadedComponentsOrder | core/src/com/siondream/libgdxjam/overlap/plugins/GruntPlugin.java:62-104 | the components come in the order physics, 2×2 size, spine, grunt, state machine, then state and animation control when a state exists |

## Left out

- Floating point: `float`/`double` rounding, the `(float)` casts at GameScreen.java:86 and :92, and the `0.1f` lift are modelled as exact reals.
- The clock: `TimeUtils.millis() / 1000.0` is the `newTime` parameter of `Render`.
- Screens.GameScreen.Render: the first frame measures from a `currentTime` of 0. With a wall clock far from 0, that frame is clamped to `MAX_STEP`. The model reproduces this and states nothing special about it.
- The engine's own behaviour: Ashley's sort by priority and family membership, and what each system does in a tick. `Engine.update` is one trace event. The model proves only which processing systems form the tick order and in which order.
- The system constructors and their dependencies (world, camera, viewport, stage, ray handler) are left out. At GameScreen.java:194 the screen builds `new PlayerSystem(physicsSystem)`, but the `PlayerSystem` constructor in PlayerSystem.java:30-32 takes a world, a collision handler and categories. The model does not resolve this, and `PlayerSystem` is built directly from its players.
- `SceneManager`, the `NodeSystem` entity listener, `show`/`hide`/`resize`/`dispose`, input-processor registration on the multiplexer, and logging.
- Box2D: the contact test `ContactAdapter.matches` is the injected `matches` function, and `setFriction` is modelled through the `friction` field of `Player`. `resetFriction` is reported by `PreSolve`; its effect is not modelled. Body dynamics are not simulated: the body is a snapshot plus a command log. This matches the source, which reads position and velocity once per tick, so later commands do not change the values it uses.
- `Gdx.input.isKeyPressed` is the `KeyState` parameter of `ProcessEntity`.
- CollisionHandler registration of the listener (PlayerSystem.java:41-45) and the component mappers (`Mappers.java`).
- `LibgdxJam.java` (application bootstrap) is not part of this model.
- `Float.parseFloat`: properties arrive already parsed. A malformed number string, which throws in the source, is not modelled.
- Asset loading (skeleton, animation state, animation control, physics body), `NodeUtils.computeWorld` and the body's `setTransform` to the node position are left out. Their components are opaque.
- `GruntComponent.direction` keeps whatever the fresh component starts with; `GruntComponent.java` is not part of this model, so that value is the `direction` parameter of `Load`.
- Plugins.Load: the source calls `entity.add(state)` with a null state for an unknown `initialState`. Ashley's `Entity.add` dereferences its argument, so the load stops there with an exception, before the animation control is attached. The model reports this as `completed == false` with five components attached. Ashley is not part of this model.
- Screens.RenderFramesTicks: the floor count over many frames is proved only for wall-clock times that never decrease. `TimeUtils.millis()` can step back; a frame with a negative delta then lowers the accumulator, and the count over the run can differ from the floor of the total (one step banked, then one step taken back: one tick against a total of zero).
- Agents.PlayerSystem.BeginContact: `feetContacts` is a fixed-width Java integer field, declared in `PlayerComponent.java`, which this model does not cover, incremented and decremented at PlayerSystem.java:185 and :198; it wraps at its width, while the model's counter is unbounded.
- Plugins.Entity.Add: Ashley's `Entity.add` replaces a component of the same class that is already attached; the model always appends, so `Load` on an entity that already holds one of these components is not modelled faithfully.
