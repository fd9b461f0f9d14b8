# Orbital engines and Hohmann guidance, modelled in Dafny

This project models the core of Grav-Nav-RL-Multiplayer. The core has three parts.

- **The engines of `environment.py`.**
  - `OrbitalEnvironment` is one vehicle under central gravity. A step is a fourth-order Runge-Kutta (RK4) step with the radius clipped to `[1e-5, 5.0]`. After integration, a tangential thrust impulse is added in the frame of the new position. The step counter drives the `done` flag, and the default reward is a Gaussian in the radius error times an action penalty.
  - `MultiShipOrbitalEnvironment` is a registry of ship records keyed by id.
    - Each step freezes the live ships' positions.
    - It then walks the registry in insertion order.
    - For each live ship it counts a step and reads the ship's AI or manual action.
    - It integrates the ship with RK4 against central gravity, the pulls of the other snapshot ships and the ship's own thrust.
    - A ship that leaves the band `[0.1, 5.0]` is marked done.
- **The guidance client of `hohman_client.py`.**
  - Pure helpers: radius, orbit direction, the maneuver vector and the orbital elements.
  - The two-burn state machine of `choose_action`. Its session covers the module globals and the `prev_v_rad` function attribute.
  - The shortest-turn arithmetic of `send_manual_control`.
  - The message dispatch of `main`'s receive loop.
- **The scripted transfer of `hohman_example.py`.**
  - The burn parameters are computed up front from the vis-viva relation.
  - The loop body is a transition on the script's variables. It fires the injection burn, keeps a sliding window of radii, tracks the extreme radius and fires the circularisation burn at the detected apsis.
  - `Run` drives the single-body engine through the whole loop.

Floats become `real`. `sqrt`, `exp`, `atan2`, `cos`, `sin` and `pi` are fields of the record `RealMath.Math`, passed in as a parameter. The predicate `Sound` holds the only facts any proof uses:

- `sqrt` is a non-negative root on non-negative inputs;
- `exp` is positive;
- `pi` is positive.

The other Python semantics are written out in `RealMath`:

- Python's `int()` is `Trunc`, which rounds toward zero;
- float `%` is `FloorMod`, the floored remainder;
- `np.clip`, `max`, `min` and `abs` are `Clip`, `Max`, `Min` and `Abs`.

A Python dict iterates in insertion order. The multi-ship registry is therefore a map `ships` together with the id sequence `order`, and `Registry` ties the two together.

Files:
- `realmath.dfy`: the abstract transcendentals and the Python arithmetic helpers.
- `integrator.dfy`: `Option`, vectors, the state vector, the inverse-square field and the RK4 stage layout shared by both engines.
- `orbital_env.dfy`: the single-body engine, as a class.
- `multiship_env.dfy`: the multi-ship engine, as a class over the registry.
- `hohmann_client.dfy`: the guidance client. The pure parts are functions and lemmas. The globals are a class whose methods are proved equal to the function model.
- `hohmann_script.dfy`: the scripted transfer. The transition is a function and the loop is a method over the engine object.

Where the code departs from what its own comments, docstrings and names describe (or from the usual convention), the model follows the code:
- **Heading wrap.** `(diff + pi) % (2 pi) - pi` lands in `[-pi, pi)`, not `(-pi, pi]`.
- **Multi-ship central gravity.** The radius is only floored at `1e-5`, not also capped at `5.0` as in the single-body helper.
- **Division by zero in the client.** The client divides by the unclamped radius. At the origin, the first burn and the debug log on every 60th tick raise `ZeroDivisionError`; they do not clamp. The receive loop then stops. The model answers `Raised` and the loop returns `stopped`.
- **Circularisation gate.** The client always requires `|r - 1| < 0.1` together with the sign flip of the radial velocity. This gate is not configurable.
- **Radial velocity near the origin.** The radial velocity reads as 0 for `r <= 1e-5`, not only for `r < 1e-5`.

## Model

| member | source | states |
|---|---|---|
| RealMath.Clip | environment.py:66 | the result lies in `[lo, hi]`; it is `v` inside the interval and the nearer bound outside it |
| RealMath.Trunc | hohman_example.py:81 | `int()` truncates toward zero: `n <= q < n + 1` for `q >= 0`, and `n - 1 < q <= n` for `q < 0` |
| RealMath.FloorMod | hohman_client.py:199 | Python's float remainder for a positive modulus lies in `[0, b)` |
| RealMath.FloorModShift | hohman_client.py:199 | adding whole multiples of the modulus leaves the remainder unchanged |
| Integrator.InverseSquareDirection | environment.py:67-68 | the inverse-square field lies on the line of its direction vector; for `k <= 0` it points away from the vector, for `k >= 0` along it |
| Integrator.Rk4 | environment.py:70-97 | the classical RK4 step; specified by `Rk4UniformField` (exact for constant acceleration) and, on each engine, by `ClippedGravityAntiparallel` and `ApplyPhysics` |
| Integrator.Rk4UniformField | environment.py:73-97 | in a uniform field, the RK4 stage layout (`k_p` from stage velocities, `k_v` from stage accelerations, weights 1,2,2,1 over 6) gives exactly the closed-form motion under constant acceleration |
| OrbitalEnv.ClippedGravityAntiparallel | environment.py:63-68 | the clipped gravity is parallel to the position (zero cross product), and for `GM >= 0` it points backwards (`x ax + y ay <= 0`) |
| OrbitalEnv.GravityStep | environment.py:63-97 | the gravity-only RK4 step of `step`; `StepWithoutThrust` shows it is the whole step when the action is 0, and its field is the one `ClippedGravityAntiparallel` describes |
| OrbitalEnv.FloorRadius | environment.py:101-102 | the radius used after integration is at least `1e-5` |
| OrbitalEnv.TangentialImpulse | environment.py:99-108 | the impulse leaves the position unchanged; the velocity change is perpendicular to the post-RK4 position; action 0 changes nothing |
| OrbitalEnv.ImpulseMagnitude | environment.py:100-108 | away from the clipped core, the rotation does not stretch the thrust: `abs(dv)^2 == (action dt)^2` |
| OrbitalEnv.StepWithoutThrust | environment.py:99-108 | with action 0 the step is the gravity-only RK4 step |
| OrbitalEnv.StepState | environment.py:63-108 | RK4 then the impulse; `TangentialImpulse` fixes the position and makes the velocity change perpendicular, `ImpulseMagnitude` fixes its size, `StepWithoutThrust` covers action 0 |
| OrbitalEnv.EpisodeOver | environment.py:101-117 | the termination test on the floored radius (`FloorRadius` bounds it below by `1e-5`) and the pre-increment counter; `OrbitalEnvironment.Step` returns exactly it |
| OrbitalEnv.ScaledRadiusError | environment.py:123-126 | the scaled radius error of `default_reward` lies in `[-2, 2]` |
| OrbitalEnv.DefaultRewardPositive | environment.py:122-129 | the default reward is positive |
| OrbitalEnv.DefaultReward | environment.py:122-129 | the radius-tracking term times the action penalty; `ScaledRadiusError` bounds the scaled error in `[-2, 2]` and `DefaultRewardPositive` shows the reward is positive |
| OrbitalEnv.OrbitalEnvironment.constructor | environment.py:10-34 | `init_r` is `r0` when given, otherwise the draw; `enforce_r` holds exactly when `r0` was given; the record is then reset |
| OrbitalEnv.OrbitalEnvironment.Reset | environment.py:36-47 | `y == 0`, `vx == 0`, `current_step == 0`; `x == init_r` when `r0` was given, otherwise the fresh draw; `vy == sqrt(GM / init_r)` even when `x` was redrawn; the returned state is the new state |
| OrbitalEnv.OrbitalEnvironment.Step | environment.py:49-120 | the new state is the gravity-only RK4 step followed by the tangential impulse; `current_step` rises by exactly 1; `done` holds iff the floored post-integration radius is `> 5.0` or `< 0.1`, or the pre-increment counter is `>= max_steps`; the reward is the configured function's (the default one on the new position and the action) |
| MultiShip.NewShip | environment.py:256-272 | the fresh record sits at `(r0, 0)` with velocity `(0, sqrt(GM / r0))`, is not done, has 0 steps and zero heading, thrust, turn rate and tangential thrust |
| MultiShip.Snapshot | environment.py:287 | the frozen positions of the live ships, in registry order; characterised by `SnapshotMembers` |
| MultiShip.SnapshotMembers | environment.py:287 | an entry is in the position snapshot exactly when it is a registered ship, not done, at its current position |
| MultiShip.ApplyAiControl | environment.py:312-313 | the AI scalar is stored verbatim; a missing action stores 0.0 |
| MultiShip.ApplyManualControl | environment.py:315-318 | the heading rises by `turn_rate * dt`; missing keys or a missing action read as 0; nothing but heading, thrust and turn rate changes |
| MultiShip.CentralGravityAntiparallel | environment.py:326-329 | the floored central gravity is parallel to the position and, for `GM >= 0`, points backwards |
| MultiShip.PullDirection | environment.py:332-344 | the ship itself, and any entry closer than `1e-3`, exert nothing; any other pull lies on the line to the entry and, for `GM >= 0`, points towards it |
| MultiShip.PullAtOverlapDistance | environment.py:340-344 | a ship exactly `1e-3` away still pulls, because the overlap test is strict |
| MultiShip.Pulls | environment.py:332-344 | the sum of the pulls over the snapshot; each term obeys `PullDirection`, and `NoNeighboursCentralOnly` shows it is zero without a qualifying neighbour |
| MultiShip.Acceleration | environment.py:323-346 | central gravity plus `Pulls`; `ComputeAcc` computes it with a loop, `CentralGravityAntiparallel` and `NoNeighboursCentralOnly` describe it |
| MultiShip.NoNeighboursCentralOnly | environment.py:323-346 | with no qualifying other ship, `_compute_acc` is central gravity alone |
| MultiShip.ThrustAccCases | environment.py:354-370 | AI thrust is perpendicular to the position and zero at radius `<= 1e-5`; manual thrust lies along the heading when `thrust > 0`, otherwise it is zero; other control types have none |
| MultiShip.ThrustAcc | environment.py:354-370 | the per-control thrust acceleration; its three cases are stated by `ThrustAccCases` |
| MultiShip.Physics | environment.py:348-409 | RK4 in the ship's field (gravity, pulls and thrust); `ApplyPhysics` computes it with the four explicit stages |
| MultiShip.EdgesStayInBand | environment.py:306-308 | a ship exactly at radius 5.0 or 0.1 is not marked done |
| MultiShip.Controlled | environment.py:293-301 | reading the action counts one step and leaves the position, velocity, control type, `done` and `init_r` unchanged |
| MultiShip.StepShip | environment.py:289-308 | a done ship is untouched; a live ship counts one more step and is done afterwards exactly when its new radius leaves the band; `done` never resets; control type and `init_r` are kept |
| MultiShip.StepAll | environment.py:282-310 | advancing every record against the frozen snapshot keeps the set of ids |
| MultiShip.StepAllRecords | environment.py:287-308 | per id after a step: done ships are unchanged and stay done; live ships gain one step and are done exactly when they left the band |
| MultiShip.StepAlong | environment.py:289-308 | the in-order loop keeps the set of ids and leaves unvisited records unchanged |
| MultiShip.StepAlongAt | environment.py:289-308 | every visited record ends up advanced exactly once, from its value before the loop |
| MultiShip.StepAlongIsStepAll | environment.py:287-308 | walking the registry in order equals advancing every record at once against the snapshot |
| MultiShip.States | environment.py:411-415 | the copy lists every id in registry order, each with its record |
| MultiShip.Without | environment.py:274-276 | removing an id yields exactly the other ids |
| MultiShip.WithoutDistinct | environment.py:274-276 | removing an id keeps the iteration order free of duplicates |
| MultiShip.WithoutAbsent | environment.py:274-276 | removing an absent id changes nothing |
| MultiShip.MultiShipOrbitalEnvironment.constructor | environment.py:249-254 | stores the parameters; the registry is empty and the counter is 0 |
| MultiShip.MultiShipOrbitalEnvironment.AddShip | environment.py:256-272 | stores a fresh record under the id, overwriting any record already there; a new id goes to the end of the order, an existing one keeps its place |
| MultiShip.MultiShipOrbitalEnvironment.RemoveShip | environment.py:274-276 | deletes only that key; an absent id is a no-op |
| MultiShip.MultiShipOrbitalEnvironment.Reset | environment.py:278-280 | empties the registry and sets the counter to 0 |
| MultiShip.MultiShipOrbitalEnvironment.ComputeAcc | environment.py:323-346 | the accumulating loop returns central gravity plus the sum of the qualifying pulls |
| MultiShip.MultiShipOrbitalEnvironment.ApplyPhysics | environment.py:348-409 | the four stages with thrust added at each give the RK4 step of the ship in its field |
| MultiShip.MultiShipOrbitalEnvironment.AdvanceShip | environment.py:290-308 | the loop body for a live ship computes that ship's one-ship step |
| MultiShip.MultiShipOrbitalEnvironment.AdvanceAll | environment.py:289-309 | the loop over the registry computes the in-order advance against the snapshot |
| MultiShip.MultiShipOrbitalEnvironment.Step | environment.py:282-310 | the registry invariant is kept; the records become the in-order advance against the positions frozen at entry (equal, by `StepAlongIsStepAll`, to advancing all at once); the order is unchanged; the counter rises by 1 |
| MultiShip.MultiShipOrbitalEnvironment.GetStates | environment.py:411-415 | every record in registry order |
| HohmannClient.OrbitDirection | hohman_client.py:32-35 | returns +1 exactly when `x vy - y vx >= 0`, so a zero cross product gives +1; otherwise -1 |
| HohmannClient.ComputeRadius | hohman_client.py:29-30 | `sqrt(x^2 + y^2)`; `TangentFollowsOrbit` uses its defining law `r^2 == x^2 + y^2` for a sound `sqrt` |
| HohmannClient.ManeuverVector | hohman_client.py:37-70 | the burn that replaces the velocity by the tangential target velocity; specified by `ManeuverReachesTarget`, `TangentFollowsOrbit`, `TargetSpeed` and `ManeuverThrust` |
| HohmannClient.ManeuverReachesTarget | hohman_client.py:37-63 | the target velocity is perpendicular to the position, and the current velocity plus the delta-v is the target velocity |
| HohmannClient.TangentFollowsOrbit | hohman_client.py:42-55 | the tangent is a unit vector whose cross product with the position is `direction * r`, so it keeps the sense of rotation |
| HohmannClient.TargetSpeed | hohman_client.py:57-59 | the target velocity has exactly the requested speed |
| HohmannClient.ManeuverThrust | hohman_client.py:65-70 | thrust `>= 0` and `thrust * dt == dv_mag`; `dv_mag` is the length of the delta-v; the heading is its `atan2` |
| HohmannClient.OrbitalElements | hohman_client.py:72-85 | `a` is infinite exactly when `abs(E) < 1e-6`; otherwise `a != 0` and `E == -GM / (2a)` |
| HohmannClient.OrbitalEnergy | hohman_client.py:74-78 | vis-viva: with a finite semi-major axis, `v^2 == GM (2 / r - 1 / a)` |
| HohmannClient.Eccentricity | hohman_client.py:87-99 | `e >= 0`; `e == 1` on a parabolic orbit; `e == 0` when `h^2 / (GM a) > 1`; otherwise `h^2 == GM a (1 - e^2)` |
| HohmannClient.WrapAngle | hohman_client.py:198-199 | the wrapped difference lies in `[-pi, pi)` |
| HohmannClient.WrapIdentity | hohman_client.py:198-199 | an angle already in `[-pi, pi)` is left alone |
| HohmannClient.WrapShift | hohman_client.py:198-199 | whole turns added to the input do not change the wrapped angle |
| HohmannClient.WrapWholeTurns | hohman_client.py:198-199 | the wrapped angle differs from the input by a whole number of turns |
| HohmannClient.ChooseWithoutState | hohman_client.py:112-113 | without telemetry the reply is `(0, 0)` and the session is unchanged |
| HohmannClient.Choose | hohman_client.py:105-186 | the two-burn state machine of `choose_action`; specified by `ChooseWithoutState`, `ChooseRaises`, `FirstBurn`, `AfterFirstBurn`, `NoCircularizeWithoutHistory` and `ChooseAdvancesFlags` |
| HohmannClient.ChooseRaises | hohman_client.py:121-151 | the reply is an exception exactly when the ship is at the origin and it is a logging tick or before the first burn; an exception changes nothing; at the origin means `x == y == 0` |
| HohmannClient.FirstBurn | hohman_client.py:132-151 | the first call with telemetry burns towards vis-viva `sqrt(GM (2/r - 1/a_t))` with `a_t = (r + 1)/2`, sets the first flag and leaves `prev_v_rad` unset |
| HohmannClient.AfterFirstBurn | hohman_client.py:124-186 | after burn 1, every call stores the current radial velocity (0 at `r <= 1e-5`); it circularises towards `sqrt(GM / r)` exactly when the strict sign flip and `abs(r - 1) < 0.1` hold before burn 2; otherwise it replies thrust 0 with heading `atan2(vy, vx)` |
| HohmannClient.NoCircularizeWithoutHistory | hohman_client.py:154-164 | on the first call after burn 1, `prev_v_rad` defaults to the current value, so burn 2 cannot fire |
| HohmannClient.ChooseAdvancesFlags | hohman_client.py:132-186 | the burn flags only go from false to true; burn 2 is never set before burn 1; telemetry and ship id are untouched |
| HohmannClient.ManualControlTurn | hohman_client.py:192-216 | nothing is sent exactly when there is no telemetry; a sent turn rate, held for one tick, turns less than half a revolution and reaches the target heading modulo whole turns; the tick and thrust are passed through |
| HohmannClient.ManualControl | hohman_client.py:192-216 | the `manual_action` the client sends; specified by `ManualControlTurn` |
| HohmannClient.Dispatch | hohman_client.py:240-267 | the receive loop's branch on the message type; specified by `DispatchRules` and `DispatchAdvancesFlags` |
| HohmannClient.DispatchRules | hohman_client.py:245-267 | `mode_confirmed` without a `ship_id` key changes nothing, with `null` clears the id, with a string sets it; a `state_update` without the own ship changes nothing; a `state_update` with it caches that ship's telemetry (heading defaults to 0); an `action_request` without telemetry sends nothing; other types are ignored |
| HohmannClient.DispatchAdvancesFlags | hohman_client.py:239-267 | no message resets a burn flag or puts burn 2 before burn 1 |
| HohmannClient.ServeAdvancesFlags | hohman_client.py:239-271 | over any message sequence the flags only advance, their order is kept, and at most one command is sent per message |
| HohmannClient.Serve | hohman_client.py:239-271 | the receive loop over the messages in order, stopping at the first exception; specified by `ServeAdvancesFlags` |
| HohmannClient.Client.constructor | hohman_client.py:19-23 | all globals start unset |
| HohmannClient.Client.ChooseAction | hohman_client.py:105-186 | updating the globals in place gives the reply and the new session of `Choose` |
| HohmannClient.Client.SendManualControl | hohman_client.py:192-216 | the message sent is the one `ManualControl` describes |
| HohmannClient.Client.Receive | hohman_client.py:240-267 | one pass of the loop gives the effect and the new session of `Dispatch` |
| HohmannClient.Client.Run | hohman_client.py:239-271 | the receive loop gives the commands, the final session and the stop flag of `Serve` |
| HohmannScript.PlanShape | hohman_example.py:40-81 | `a_transfer` lies between `r1` and `r2`; inward exactly when `r1 > r2`; `a_1 dt == delta_v1` and `a_2 dt == delta_v2`; `delta_v1 == v1_transfer - v_tangential`; `delta_v2 == sqrt(GM / r2) - v2_transfer`; `transfer_steps` truncates `pi sqrt(a^3 / GM) / dt` |
| HohmannScript.PlanTransfer | hohman_example.py:40-81 | the transfer plan; specified by `PlanShape`, with its burns described by `TransferSpeeds` |
| HohmannScript.TransferBurns | hohman_example.py:49-69 | the two branches of the burn computation; `PlanBranchesAgree` shows they agree and `TransferSpeeds` gives the speeds in closed form |
| HohmannScript.PlanBranchesAgree | hohman_example.py:51-69 | the inward and outward branches compute the same four burn quantities |
| HohmannScript.TransferSpeeds | hohman_example.py:49-64 | `v1^2 == 2 GM r2 / (r1 (r1 + r2))` and `v2^2 == 2 GM r1 / (r2 (r1 + r2))`, hence `r1 v1 == r2 v2` (equal angular momentum at both apsides) |
| HohmannScript.EndSpeeds | hohman_example.py:53-55 | vis-viva at both ends of an ellipse with `a = (r1 + r2)/2`, for any two positive radii |
| HohmannScript.InwardFromFour | hohman_example.py:47-60 | from `r1 = 4` with `GM = 1`: `v1^2 == 0.1`, `v2^2 == 1.6` and `v2 == 4 v1` |
| HohmannScript.InitialConsistent | hohman_example.py:84-98 | the starting variables are consistent and both flags are false |
| HohmannScript.IterateConsistent | hohman_example.py:116-206 | one iteration keeps the window within 20 radii and the flags in step with their timesteps and `a_2_actual`; flags never reset; after a coasting iteration the window ends with the current `r` |
| HohmannScript.Iterate | hohman_example.py:110-212 | one iteration of the script's loop; specified by `IterateConsistent`, `FirstBurn`, `TrackerMonotone`, `SecondBurnGate` and `AfterSecondBurn` |
| HohmannScript.FirstBurn | hohman_example.py:117-121 | the iteration before the first burn steps with `a_1`, sets the flag and records `i` |
| HohmannScript.TrackerMonotone | hohman_example.py:145-169 | between the burns, the inward minimum never rises and ends at most `r`; the outward maximum never falls and ends at least `r` |
| HohmannScript.SecondBurnGate | hohman_example.py:133-206 | burn 2 fires exactly when `abs(r - r2) < 0.0005`, the 3-radius extremum test and `i > 0.3 transfer_steps` all hold before burn 2; its acceleration is `(sqrt(GM / r2) - v_tangential) / dt`; any other iteration after burn 1 coasts with 0 |
| HohmannScript.AfterSecondBurn | hohman_example.py:210-212 | after burn 2 nothing changes and the engine coasts with 0 |
| HohmannScript.ShortWindowVacuous | hohman_example.py:156-181 | with fewer than 3 radii the extremum test holds outright |
| HohmannScript.ReplayFacts | hohman_example.py:108-216 | over any run from the starting variables: consistency holds; the first burn is at iteration 0 with action `a_1`; a recorded second burn lies strictly after it and within the run |
| HohmannScript.Run | hohman_example.py:17-216 | `states` starts with the reset state and grows by one entry per iteration; the initial radius is positive; each state is one engine step from the previous one, with the action the transition chose; the final variables are the transition replayed over the run; the engine is left at the last recorded state with `current_step` equal to the number of iterations |
| HohmannScript.InitialRadius | hohman_example.py:21-23 | the reset state lies on the x axis, so `init_r == abs(x)` |

## Left out

- `OrbitalEnvWrapper` (the gym wrapper, reward shaping and observation vector) is not part of this model. It is a learning interface built on the engine, not the engine itself.
- Random radii are parameters (`draw`, `resetDraw`, and the multi-ship `AddShip`'s `draw`), each restricted to `[0.2, 4.0)` exactly when the source draws it from `uniform(0.2, 4.0)`.
- Floats are exact reals. Rounding, overflow, `inf` and `nan` are not modelled; neither are the numeric-accuracy claims about the trajectories, such as energy drift or a circular orbit staying circular.
- The transcendentals are abstract. Only the facts in `Sound` are known, so no exact reward value or trajectory is computed.
- The unused parameter `v0` (of the single-body constructor and of the multi-ship `add_ship`) and the multi-ship `max_steps`, which is stored but never read, are left out or kept inert.
- The dead line at environment.py:320-321 is left out: the `heading` key always exists there.
- Ill-typed actions (a dict for an AI ship, a float for a manual one) would make Python fail. `ActionsFit` requires them away.
- Zero radii passed to the constructors: `OrbitalEnvironment` and `add_ship` with `r0 == 0` raise `ZeroDivisionError` in Python. The model requires `r0 != 0`.
- HohmannScript.Run requires `GM > 0` and `dt != 0`. Otherwise `int(transfer_time / dt)` fails in Python on an infinite or undefined value. It also requires `init_r != 0`, which the constructor already guarantees.
- WebSocket I/O, JSON parsing and message framing, `asyncio` and its sleeps, `uuid` and `time.time()` are not modelled. Messages are an abstract datatype, and an outbound message is its `ManualAction` payload.
- The `except Exception` of the receive loop is modelled only for the `ZeroDivisionError` of `choose_action`. Malformed messages (a missing key) are transport faults and not modelled.
- The debug prints of the client and the printing and plotting of the script (hohman_example.py:218-311) are left out. So are the script variables used only by them or never read: `prev_r`, `v`, `v1_circular`, `v2_circular`, `is_near_target`, `is_near_min`, `is_near_max`, `is_increasing`, `is_decreasing`, `apsis_name`, `apsis_r`, `v_transfer_at_r`, `v_circular_target`, and the burn positions.
- The engine's reward and `done` outputs, which the script discards, are computed by `Step` but not used by `Run`.
- python_client_1.py and start.py are not part of this model: the first is a transport demo, the second a server bootstrap.
- The `header.type` strings are matched to the constructors of `Message`, so the type strings themselves are not modelled.
- Update in place: ship records and the client's telemetry are immutable values replaced as a whole. Python mutates dicts in place, but nothing aliases them across these operations, and `get_states` returns copies.
