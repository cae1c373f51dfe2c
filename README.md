# Hollow Knight style movement controller, modelled in Dafny

This project models `HollowKnightController`, a Unity component that gives a
2D character Hollow Knight style movement: walking, a ground jump with
variable height, a one-shot double jump refilled by ground or wall contact,
wall sliding with a capped fall speed, wall jumps, and a timed dash with a
cooldown. The component keeps its state in fields that two engine callbacks
update in place: `Update` once per rendered frame (input, contact checks,
jump, wall slide and dash resolution, gravity shaping, turning) and
`FixedUpdate` once per physics step (dash movement or walking speed).

The model has four layers.

- `KnightState` (knight_state.dfy): the tuning constants (`Config`, with the
  shipped values in `Defaults`), the velocity pair standing for the rigid
  body's linear velocity, the value of the component's fields (`Knight`),
  what the engine hands one `Update` call (`Frame`: frame time, raw
  horizontal axis, jump and dash key-down edges, jump held, the two contact
  answers, world gravity), and the invariant `Inv` kept between callbacks.
- `KnightSteps` (knight_steps.dfy): one function per handler of the
  component, each with a contract stating what it does to the fields, and
  the two entry points `UpdateStep` and `FixedStep` that compose the
  handlers in the component's order.
- `KnightLemmas` (knight_lemmas.dfy) and `KnightRuns` (knight_runs.dfy):
  properties of one `Update` call, and properties of whole runs (any
  interleaving of `Update` and `FixedUpdate` calls), proved by induction
  over the run.
- `KnightController` (knight_controller.dfy): the component as a class with
  the same fields and methods, each method updating the fields in place in
  the order HollowKnightController uses and proved to leave them as the
  corresponding `KnightSteps` function says. `Update` and `FixedUpdate` keep the class
  invariant `Valid`.

In the class, `Update` calls four small methods whose statements
HollowKnightController writes inline: `ReadInputs`, `Handles`, `FaceInput`
and `ResetInputs`. Each holds
consecutive statements of `Update` that the component groups under its own
comments ("Inputs", "Handles", "Flip character on movement dir", "Reset
input flags"), in the same order.

The jump and dash edge fields (`jumpPressed`, `dashPressed`) are always
false between two callbacks: they are set only after the early return of a
dashing `Update` and cleared at the end of every other one. The class keeps
them as fields; the pure model passes this frame's edge to the two handlers
that read it instead of storing it in `Knight`.

Behaviour kept exactly as the code has it, although it may look unintended:

- The wall jump tests the wall-slide flag left by the previous frame, since
  jump resolution runs before the wall slide is recomputed
  (hollow-knight-movement.cs:84-85). A press on the first frame of sliding
  contact is a double jump; a press on the frame after leaving the wall is
  still a wall jump (`StaleSlideStillWallJumps`, `FreshSlideDoubleJumps`).
- The wall jump pushes with `wallJumpYForce` horizontally and
  `wallJumpXForce` vertically (hollow-knight-movement.cs:150), the opposite
  of what the names say. With the shipped values (both 12) this cannot be
  observed (`DefaultsHideWallJumpSwap`). The model keeps the code's choice.
- The horizontal push of a wall jump lasts only until the next
  `FixedUpdate`, which sets the walking speed from the input because the
  jump has ended the wall slide (`WallJumpPushOverwritten`). This holds
  when no dash starts on the same frame; a dash that does start makes the
  next `FixedUpdate` apply the dash velocity instead.
- The dash cooldown counts down only inside `HandleDash`, which a dashing
  `Update` never reaches (hollow-knight-movement.cs:64), so the cooldown is
  frozen for the whole dash (`DashHolds`).
- The dash becomes available again only in the first `HandleDash` call that
  finds the timer used up; that same call may start the next dash. A dash
  therefore starts exactly when it is requested, no dash runs and the timer
  was already at or below zero when the call began (`DashStarts`).
- The wall slide requires the horizontal axis to equal the facing exactly
  (hollow-knight-movement.cs:169).
- Gravity shaping runs after the wall-slide cap in the same `Update`, so a
  sliding knight can end the frame falling faster than the slide speed, by
  at most one step of extra fall gravity (`UpdateSlideCap`).

Where the intended behaviour of such a controller is usually described
differently, the model follows the code:

- Timers are decremented without clamping and trigger nothing on expiry;
  the dash ends in the first `FixedUpdate` that finds its time used up.
- The dash becomes available again one `HandleDash` call after the
  cooldown timer runs out, and since the timer is frozen during the dash,
  that is at least the dash duration plus the cooldown after the start.
- The wall slide compares the raw axis to the facing exactly, not its sign.
- There are no event notifications (jump, dash start, landing and so on):
  the code marks those places with comments only.

The horizontal axis is a real number in [-1, 1], the range of Unity's raw
axis. This covers the values -1, 0 and 1 of a keyboard and keeps the exact
equality test above meaningful.

## Model

| member | source | states |
|---|---|---|
| KnightSteps.CheckGrounded | hollow-knight-movement.cs:121-130 | the ground flag is the probe's answer; the double jump is available afterwards exactly when it was before or the knight is grounded |
| KnightSteps.CheckWall | hollow-knight-movement.cs:132-136 | the wall flag is the probe's answer; wall contact refills the double jump and nothing else changes |
| KnightSteps.Flip | hollow-knight-movement.cs:249-253 | the facing is negated, stays in {1, -1} and changes; no other field changes |
| KnightSteps.HandleJump | hollow-knight-movement.cs:138-162 | at most one of ground, wall and double jump fires, in that order; ground jump sets the vertical speed to the jump force keeping the horizontal speed; wall jump sets (-facing * wallJumpYForce, wallJumpXForce) and turns around; double jump sets 0.8 of the jump force and spends the double jump; the double jump is lost exactly when the double jump fires; without a press nothing changes |
| KnightSteps.HandleWallSlide | hollow-knight-movement.cs:164-181 | the slide flag is recomputed: true exactly when touching the wall, airborne, the axis equals the facing and falling; while sliding the fall speed is at most the slide speed; the horizontal speed never changes and the vertical speed only by the cap |
| KnightSteps.HandleDash | hollow-knight-movement.cs:183-208 | a dash is running afterwards exactly when one was or one starts; a start clears availability, sets the full duration and cooldown and zeroes the vertical speed; otherwise a positive timer falls by the time step and a used-up one leaves the dash available; availability is never restored while the timer runs; the invariant is kept |
| KnightSteps.JumpPhysics | hollow-knight-movement.cs:235-247 | only the vertical speed changes, by the gravity boost: extra fall gravity when falling, extra gravity when rising with jump released, nothing otherwise; with gravity pointing down and multipliers of at least one it only ever pulls downward |
| KnightSteps.FaceInput | hollow-knight-movement.cs:92-99 | after the step a positive axis faces right and a negative one faces left; a zero axis changes nothing; the result is the knight or its flip |
| KnightSteps.ReadAxis | hollow-knight-movement.cs:67 | the raw axis is latched and the invariant is kept for an axis in range |
| KnightSteps.Advance | hollow-knight-movement.cs:63 | the elapsed-time counter grows by the frame time and nothing else changes |
| KnightSteps.GuardedJump | hollow-knight-movement.cs:84 | jump resolution runs only once the elapsed time exceeds 0.1; before that the state is untouched |
| KnightSteps.UpdateStep | hollow-knight-movement.cs:61-104 | an Update keeps the invariant, advances the clock by the frame time, changes nothing else while dashing, and otherwise latches the frame's axis and contacts |
| KnightSteps.UpdateStepStages | hollow-knight-movement.cs:61-104 | the handlers applied one after the other in the component's order give the Update result |
| KnightSteps.HandleDashMovement | hollow-knight-movement.cs:210-233 | while dash time is left the velocity is (facing * dashSpeed, 0) and the time falls by the step; otherwise the dash ends, the vertical speed is kept, a horizontal speed above the walking speed becomes exactly facing * moveSpeed and one within it is kept |
| KnightSteps.FixedStep | hollow-knight-movement.cs:106-119 | a FixedUpdate keeps the invariant, changes only the dash state and the velocity, moves a dash as above (on the ending tick the dash time is kept and a speed above the walking speed becomes facing * moveSpeed), sets the walking speed from the latched axis when neither dashing nor sliding, and changes nothing while sliding |
| KnightLemmas.UpdateFacesInput | hollow-knight-movement.cs:92-99 | after a non-dashing Update with a nonzero axis the facing has the sign of the axis, even after a wall jump's own turn |
| KnightLemmas.UpdateDoubleJump | hollow-knight-movement.cs:121-162 | after a non-dashing Update the double jump is available when grounded, and when touching a wall unless that frame spends it; it becomes available only through contact and is lost only to an airborne press in the open window while not sliding |
| KnightLemmas.UpdateWallSlide | hollow-knight-movement.cs:164-181 | when no jump alternative fires (no press, a press inside the warm-up, or a press with no ground, slide or double jump available), the slide flag after an Update depends only on this frame's contact, axis and facing and on the knight falling, and the horizontal speed is kept |
| KnightLemmas.UpdateSlideCap | hollow-knight-movement.cs:85-89 | a slide that lasts past the Update leaves the knight falling no faster than the slide speed plus one step of extra fall gravity |
| KnightLemmas.UpdateDashStart | hollow-knight-movement.cs:183-208 | a non-dashing Update starts a dash exactly when dash is pressed and the cooldown had run out; a start sets duration, cooldown, unavailability and zero vertical speed |
| KnightLemmas.UpdateCooldown | hollow-knight-movement.cs:186-193 | a positive cooldown falls by the frame time and keeps the dash unavailable; a used-up one makes the dash available again unless a dash is pressed |
| KnightLemmas.WarmUpIgnoresJump | hollow-knight-movement.cs:84 | during the warm-up a jump press leaves the Update result unchanged |
| KnightLemmas.SpentDoubleJumpIgnored | hollow-knight-movement.cs:154-158 | with the double jump spent, no contact and no slide, a jump press leaves the Update result unchanged |
| KnightLemmas.GroundJumpSetsJumpForce | hollow-knight-movement.cs:141-145 | outside a dash, once the warm-up has passed, a grounded press with jump held and no dash press on the same frame, with a non-negative jump force, gives exactly (previous horizontal speed, jump force); a dash started on that frame would zero the vertical speed afterwards |
| KnightLemmas.DoubleJumpSetsReducedForce | hollow-knight-movement.cs:154-160 | outside a dash, once the warm-up has passed, an airborne press away from walls with the double jump available, no wall slide left by the previous frame, jump held, no dash press and a non-negative jump force gives 0.8 of the jump force and spends it |
| KnightLemmas.StaleSlideStillWallJumps | hollow-knight-movement.cs:84-85 | a press on the frame after the wall contact ended is still a wall jump, with the swapped constants and a turn |
| KnightLemmas.DefaultsHideWallJumpSwap | hollow-knight-movement.cs:35-36 | with the shipped forces (both 12) the wall jump of line 150 gives the same velocity as the unswapped use of the two constants |
| KnightLemmas.FreshSlideDoubleJumps | hollow-knight-movement.cs:84-85 | a press on the first frame of sliding contact is a double jump, not a wall jump, and no slide results |
| KnightLemmas.WallJumpPushOverwritten | hollow-knight-movement.cs:106-152 | a wall jump (once the warm-up has passed, airborne, on a frame with no dash press, an in-range axis and a positive wallJumpXForce) ends the slide, so the next FixedUpdate replaces its horizontal push with the walking speed |
| KnightRuns.Apply | hollow-knight-movement.cs:61-119 | either callback keeps the invariant |
| KnightRuns.Run | hollow-knight-movement.cs:61-119 | any run of well-formed callbacks keeps the invariant |
| KnightRuns.CooldownBlocksDash | hollow-knight-movement.cs:186-193 | for a run that starts out of a dash, while the cooldown outlasts the run's frame time no dash starts, the dash stays unavailable and the timer falls by exactly that time |
| KnightRuns.DashHolds | hollow-knight-movement.cs:61-111 | while the dash time outlasts the run's physics time the dash keeps going, its time falls by exactly that amount, the cooldown does not move, facing and double jump are untouched and the clock advances by the frame time |
| KnightRuns.DashVelocity | hollow-knight-movement.cs:210-218 | during such a run the velocity is (facing * dashSpeed, 0) once a FixedUpdate has run |
| KnightRuns.DoubleJumpStaysSpent | hollow-knight-movement.cs:121-158 | a spent double jump stays spent through any run without contact |
| KnightRuns.AirborneJumpsIgnored | hollow-knight-movement.cs:154-158 | airborne with the double jump spent and no slide, removing every jump press from a contact-free run changes nothing |
| KnightRuns.WarmUpRunIgnoresJumps | hollow-knight-movement.cs:63-84 | removing every jump press from a run that ends within the warm-up changes nothing |
| KnightController.HollowKnightController.constructor | hollow-knight-movement.cs:21-52 | the fields start at their initialisers and the class invariant holds |
| KnightController.HollowKnightController.CheckGrounded | hollow-knight-movement.cs:121-130 | the fields end as KnightSteps.CheckGrounded says |
| KnightController.HollowKnightController.CheckWall | hollow-knight-movement.cs:132-136 | the fields end as KnightSteps.CheckWall says |
| KnightController.HollowKnightController.Flip | hollow-knight-movement.cs:249-253 | the fields end as KnightSteps.Flip says |
| KnightController.HollowKnightController.HandleJump | hollow-knight-movement.cs:138-162 | the fields end as KnightSteps.HandleJump says for the pending jump edge |
| KnightController.HollowKnightController.HandleWallSlide | hollow-knight-movement.cs:164-181 | the fields end as KnightSteps.HandleWallSlide says |
| KnightController.HollowKnightController.HandleDash | hollow-knight-movement.cs:183-208 | the fields end as KnightSteps.HandleDash says for the pending dash edge |
| KnightController.HollowKnightController.HandleDashMovement | hollow-knight-movement.cs:210-233 | the fields end as KnightSteps.HandleDashMovement says |
| KnightController.HollowKnightController.JumpPhysics | hollow-knight-movement.cs:235-247 | the fields end as KnightSteps.JumpPhysics says |
| KnightController.HollowKnightController.ReadInputs | hollow-knight-movement.cs:66-77 | the axis is latched and each edge is raised when its key went down |
| KnightController.HollowKnightController.Handles | hollow-knight-movement.cs:83-86 | the three handlers in order end as KnightSteps.Act says |
| KnightController.HollowKnightController.FaceInput | hollow-knight-movement.cs:91-99 | the fields end as KnightSteps.FaceInput says |
| KnightController.HollowKnightController.ResetInputs | hollow-knight-movement.cs:101-103 | both edges are cleared and nothing else changes |
| KnightController.HollowKnightController.Update | hollow-knight-movement.cs:61-104 | the class invariant is kept and the fields end as KnightSteps.UpdateStep says |
| KnightController.HollowKnightController.FixedUpdate | hollow-knight-movement.cs:106-119 | the class invariant is kept and the fields end as KnightSteps.FixedStep says |

## Left out

- Unity input polling (hollow-knight-movement.cs:67-77, 243): the raw axis, the two key-down edges and whether a jump key is held are parameters of `Update`.
- Geometry queries (hollow-knight-movement.cs:123, 134): the ground overlap test and the wall raycast, including its direction along the facing, are opaque engine calls; their answers are parameters of `Update`.
- Component wiring in `Start` (hollow-knight-movement.cs:54-59), the `Animator`, and the sprite flip side effect of `Flip` (hollow-knight-movement.cs:252): rendering concerns beyond the facing value.
- `OnDrawGizmos` (hollow-knight-movement.cs:256-269): debug drawing only.
- Ground and wall probe settings (check transforms, radius, distance, layer masks; hollow-knight-movement.cs:11-19): they only parameterise the geometry queries.
- Floating point: all speeds, timers and constants are exact reals, including the literals 0.1 and 0.8; single-precision rounding is not modelled.
- The engine's own gravity integration of the rigid body and the world gravity: only the component's own additive gravity shaping is modelled, with the world gravity as a parameter.
- The relation between the `Update` and `FixedUpdate` call rates: runs are arbitrary interleavings of the two callbacks.
- Edits to the public edge and contact fields from outside the component (the Unity inspector): the edges are taken to be false between callbacks.
