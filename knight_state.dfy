/** The data of the HollowKnightController component: its tunable constants,
    the per-step inputs the engine supplies, and the value of all fields the
    component updates in place. */
module KnightState {

  /** The serialized tuning fields (hollow-knight-movement.cs:6-36). */
  datatype Config = Config(
    moveSpeed: real,
    jumpForce: real,
    fallMultiplier: real,
    lowJumpMultiplier: real,
    dashSpeed: real,
    dashDuration: real,
    dashCooldown: real,
    wallSlideSpeed: real,
    wallJumpXForce: real,
    wallJumpYForce: real)

  /** The values the component ships with. */
  const Defaults := Config(
    moveSpeed := 8.0, jumpForce := 12.0, fallMultiplier := 2.5, lowJumpMultiplier := 2.0,
    dashSpeed := 20.0, dashDuration := 0.15, dashCooldown := 0.6,
    wallSlideSpeed := 2.0, wallJumpXForce := 12.0, wallJumpYForce := 12.0)

  /** Jump resolution is skipped until the elapsed time exceeds this. */
  const JumpWarmUp: real := 0.1

  /** A double jump gives this fraction of the ground jump's force. */
  const DoubleJumpFactor: real := 0.8

  /** A 2D velocity, standing for the rigid body's linear velocity. */
  datatype Vec = Vec(x: real, y: real)

  function Abs(x: real): real { if x < 0.0 then -x else x }

  /** Every field of the component that a step reads or writes, except the
      two input edges: those are false between calls and are passed to the
      handlers that read them. */
  datatype Knight = Knight(
    hasDoubleJump: bool,
    canDash: bool,
    isDashing: bool,
    isWallSliding: bool,
    dashTimeLeft: real,
    dashCooldownTimer: real,
    time1: real,
    facingDirection: int,
    velocity: Vec,
    horizontalInput: real,
    isGrounded: bool,
    isTouchingWall: bool)

  /** The field initialisers: facing right, dash available, no double jump
      until the first contact, all timers and the body at rest. */
  const Initial := Knight(
    hasDoubleJump := false, canDash := true, isDashing := false, isWallSliding := false,
    dashTimeLeft := 0.0, dashCooldownTimer := 0.0, time1 := 0.0,
    facingDirection := 1, velocity := Vec(0.0, 0.0),
    horizontalInput := 0.0,
    isGrounded := false, isTouchingWall := false)

  /** What the engine hands one Update call: the frame time, the raw
      horizontal axis, the key-down edges for jump and dash, whether jump is
      held, the two contact queries' answers and the world gravity. */
  datatype Frame = Frame(
    dt: real,
    horizontal: real,
    jumpDown: bool,
    dashDown: bool,
    jumpHeld: bool,
    grounded: bool,
    touchingWall: bool,
    gravityY: real)

  predicate Facing(d: int) { d == 1 || d == -1 }

  /** The raw horizontal axis lies in [-1, 1]. */
  predicate Axis(h: real) { -1.0 <= h <= 1.0 }

  /** What every handler keeps: a unit facing, an axis value in range, no
      dash available while the cooldown runs, none while dashing. */
  predicate Inv(k: Knight) {
    && Facing(k.facingDirection)
    && Axis(k.horizontalInput)
    && (k.canDash ==> k.dashCooldownTimer <= 0.0)
    && (k.isDashing ==> !k.canDash)
  }
}
