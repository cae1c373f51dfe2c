/** The per-step logic of HollowKnightController as functions on the value of
    its fields: one function per handler, and the two entry points
    UpdateStep and FixedStep that compose them in the component's order.
    The jump and dash edges are false between calls, so the handlers that
    read them take this frame's edge as a parameter. */
module KnightSteps {
  import opened KnightState

  /** Ground probe result; landing refills the double jump. */
  function CheckGrounded(k: Knight, grounded: bool): (r: Knight)
    ensures r.isGrounded == grounded
    ensures grounded ==> r.hasDoubleJump
    ensures r.hasDoubleJump <==> grounded || k.hasDoubleJump
    ensures r == k.(isGrounded := grounded, hasDoubleJump := r.hasDoubleJump)
    ensures Inv(k) ==> Inv(r)
  {
    var k' := k.(isGrounded := grounded);
    if grounded then k'.(hasDoubleJump := true) else k'
  }

  /** Wall probe result; touching a wall refills the double jump too. */
  function CheckWall(k: Knight, touchingWall: bool): (r: Knight)
    ensures r.isTouchingWall == touchingWall
    ensures touchingWall ==> r.hasDoubleJump
    ensures r.hasDoubleJump <==> touchingWall || k.hasDoubleJump
    ensures r == k.(isTouchingWall := touchingWall, hasDoubleJump := r.hasDoubleJump)
    ensures Inv(k) ==> Inv(r)
  {
    var k' := k.(isTouchingWall := touchingWall);
    if touchingWall then k'.(hasDoubleJump := true) else k'
  }

  /** Turn around, keeping the facing a unit value. */
  function Flip(k: Knight): (r: Knight)
    ensures r.facingDirection == -k.facingDirection
    ensures Facing(k.facingDirection) ==> Facing(r.facingDirection) && r.facingDirection != k.facingDirection
    ensures r.hasDoubleJump == k.hasDoubleJump && r.canDash == k.canDash && r.isDashing == k.isDashing
              && r.isWallSliding == k.isWallSliding && r.dashTimeLeft == k.dashTimeLeft
              && r.dashCooldownTimer == k.dashCooldownTimer && r.time1 == k.time1 && r.velocity == k.velocity
              && r.horizontalInput == k.horizontalInput && r.isGrounded == k.isGrounded
              && r.isTouchingWall == k.isTouchingWall
  {
    k.(facingDirection := k.facingDirection * -1)
  }

  /** Which alternative of the jump resolution fires, first match wins. */
  predicate GroundJumps(k: Knight, jumpPressed: bool) { jumpPressed && k.isGrounded }
  predicate WallJumps(k: Knight, jumpPressed: bool) { jumpPressed && !k.isGrounded && k.isWallSliding }
  predicate DoubleJumps(k: Knight, jumpPressed: bool) {
    jumpPressed && !k.isGrounded && !k.isWallSliding && k.hasDoubleJump
  }

  /** Jump resolution: ground jump, else wall jump (off the wall, with the
      two wall-jump constants used on the axes opposite to their names),
      else the one-shot double jump. */
  function HandleJump(k: Knight, c: Config, jumpPressed: bool): (r: Knight)
    // only velocity, facing and the double-jump resource can change
    ensures r.canDash == k.canDash && r.isDashing == k.isDashing && r.isWallSliding == k.isWallSliding
              && r.dashTimeLeft == k.dashTimeLeft && r.dashCooldownTimer == k.dashCooldownTimer && r.time1 == k.time1
              && r.horizontalInput == k.horizontalInput && r.isGrounded == k.isGrounded
              && r.isTouchingWall == k.isTouchingWall
    ensures GroundJumps(k, jumpPressed) ==>
              r == k.(velocity := Vec(k.velocity.x, c.jumpForce))
    ensures WallJumps(k, jumpPressed) ==>
              && r.velocity == Vec(-(k.facingDirection as real) * c.wallJumpYForce, c.wallJumpXForce)
              && r.facingDirection == -k.facingDirection
              && r.hasDoubleJump == k.hasDoubleJump
    ensures DoubleJumps(k, jumpPressed) ==>
              r == k.(velocity := Vec(k.velocity.x, DoubleJumpFactor * c.jumpForce), hasDoubleJump := false)
    ensures !GroundJumps(k, jumpPressed) && !WallJumps(k, jumpPressed) && !DoubleJumps(k, jumpPressed) ==> r == k
    // the resource is consumed by the double jump and by nothing else
    ensures k.hasDoubleJump && !r.hasDoubleJump <==> DoubleJumps(k, jumpPressed)
    ensures r.hasDoubleJump ==> k.hasDoubleJump
    ensures Inv(k) ==> Inv(r)
  {
    if jumpPressed && k.isGrounded then
      k.(velocity := Vec(k.velocity.x, c.jumpForce))
    else if jumpPressed && k.isWallSliding then
      Flip(k.(velocity := Vec(-(k.facingDirection as real) * c.wallJumpYForce, c.wallJumpXForce)))
    else if jumpPressed && !k.isGrounded && !k.isWallSliding && k.hasDoubleJump then
      k.(velocity := Vec(k.velocity.x, c.jumpForce * DoubleJumpFactor), hasDoubleJump := false)
    else
      k
  }

  /** The condition under which the wall slide is (re)entered this step;
      the input must equal the facing exactly. */
  predicate SlideCondition(k: Knight) {
    k.isTouchingWall && !k.isGrounded
    && k.horizontalInput == k.facingDirection as real && k.velocity.y < 0.0
  }

  /** Wall slide: the flag is recomputed from scratch and, when set, the fall
      speed is capped at the slide speed. */
  function HandleWallSlide(k: Knight, c: Config): (r: Knight)
    ensures r.isWallSliding <==> SlideCondition(k)
    ensures r.isWallSliding ==> r.velocity.y >= -c.wallSlideSpeed
    ensures r.isWallSliding && c.wallSlideSpeed > 0.0 ==> r.velocity.y < 0.0
    ensures r.velocity.x == k.velocity.x && r.velocity.y >= k.velocity.y
    ensures r.velocity.y != k.velocity.y ==> r.isWallSliding && r.velocity.y == -c.wallSlideSpeed
    ensures r.hasDoubleJump == k.hasDoubleJump && r.canDash == k.canDash && r.isDashing == k.isDashing
              && r.dashTimeLeft == k.dashTimeLeft && r.dashCooldownTimer == k.dashCooldownTimer && r.time1 == k.time1
              && r.facingDirection == k.facingDirection && r.horizontalInput == k.horizontalInput
              && r.isGrounded == k.isGrounded && r.isTouchingWall == k.isTouchingWall
    ensures Inv(k) ==> Inv(r)
  {
    var k' := k.(isWallSliding := false);
    if k.isTouchingWall && !k.isGrounded && k.horizontalInput == k.facingDirection as real && k.velocity.y < 0.0 then
      var k'' := k'.(isWallSliding := true);
      if k.velocity.y < -c.wallSlideSpeed then
        k''.(velocity := Vec(k.velocity.x, -c.wallSlideSpeed))
      else
        k''
    else
      k'
  }

  /** A dash starts in a HandleDash call exactly when it is requested, no dash
      is running, and either the dash is available or the cooldown timer
      was already used up when the call began (the same call restores it). */
  predicate DashStarts(k: Knight, dashPressed: bool) {
    dashPressed && !k.isDashing && (k.canDash || k.dashCooldownTimer <= 0.0)
  }

  /** Cooldown countdown and dash start, by outcome: a starting dash
      overwrites whatever the countdown did; otherwise a running timer counts
      down and a used-up one leaves the dash available. */
  function HandleDash(k: Knight, c: Config, dt: real, dashPressed: bool): (r: Knight)
    ensures r.isDashing <==> k.isDashing || DashStarts(k, dashPressed)
    ensures DashStarts(k, dashPressed) ==>
              && !r.canDash
              && r.dashTimeLeft == c.dashDuration
              && r.dashCooldownTimer == c.dashCooldown
              && r.velocity == Vec(k.velocity.x, 0.0)
    ensures !DashStarts(k, dashPressed) ==>
              && r.velocity == k.velocity
              && r.dashTimeLeft == k.dashTimeLeft
              && (k.dashCooldownTimer > 0.0 ==> r.dashCooldownTimer == k.dashCooldownTimer - dt)
              && (k.dashCooldownTimer <= 0.0 ==> r.dashCooldownTimer == k.dashCooldownTimer && r.canDash)
    // the dash is never made available while the timer is still running
    ensures r.canDash && !k.canDash ==> k.dashCooldownTimer <= 0.0
    ensures r.hasDoubleJump == k.hasDoubleJump && r.isWallSliding == k.isWallSliding && r.time1 == k.time1
              && r.facingDirection == k.facingDirection && r.horizontalInput == k.horizontalInput
              && r.isGrounded == k.isGrounded && r.isTouchingWall == k.isTouchingWall
    ensures Inv(k) && !k.isDashing ==> Inv(r)
  {
    if DashStarts(k, dashPressed) then
      k.(isDashing := true, canDash := false, dashTimeLeft := c.dashDuration,
         dashCooldownTimer := c.dashCooldown, velocity := Vec(k.velocity.x, 0.0))
    else if k.dashCooldownTimer > 0.0 then
      k.(dashCooldownTimer := k.dashCooldownTimer - dt)
    else
      k.(canDash := true)
  }

  /** The amount added to the vertical speed by one gravity-shaping step:
      stronger gravity when falling, and when rising with jump released. */
  function GravityBoost(k: Knight, c: Config, dt: real, gravityY: real, jumpHeld: bool): real
  {
    if k.velocity.y < 0.0 then gravityY * (c.fallMultiplier - 1.0) * dt
    else if k.velocity.y > 0.0 && !jumpHeld then gravityY * (c.lowJumpMultiplier - 1.0) * dt
    else 0.0
  }

  /** Gravity shaping: an additive change to the vertical speed only. */
  function JumpPhysics(k: Knight, c: Config, dt: real, gravityY: real, jumpHeld: bool): (r: Knight)
    ensures r == k.(velocity := Vec(k.velocity.x, r.velocity.y))
    ensures k.velocity.y == 0.0 ==> r == k
    ensures k.velocity.y > 0.0 && jumpHeld ==> r == k
    // with gravity pointing down and multipliers above one, shaping only ever pulls downward
    ensures gravityY <= 0.0 && c.fallMultiplier >= 1.0 && c.lowJumpMultiplier >= 1.0 && dt >= 0.0 ==>
              r.velocity.y <= k.velocity.y
    ensures r.velocity.y == k.velocity.y + GravityBoost(k, c, dt, gravityY, jumpHeld)
    ensures Inv(k) ==> Inv(r)
  {
    if k.velocity.y < 0.0 then
      k.(velocity := Vec(k.velocity.x, k.velocity.y + gravityY * (c.fallMultiplier - 1.0) * dt))
    else if k.velocity.y > 0.0 && !jumpHeld then
      k.(velocity := Vec(k.velocity.x, k.velocity.y + gravityY * (c.lowJumpMultiplier - 1.0) * dt))
    else
      k
  }

  /** Turn toward a nonzero horizontal input. */
  function FaceInput(k: Knight): (r: Knight)
    ensures Facing(k.facingDirection) && k.horizontalInput > 0.0 ==> r.facingDirection == 1
    ensures Facing(k.facingDirection) && k.horizontalInput < 0.0 ==> r.facingDirection == -1
    ensures k.horizontalInput == 0.0 ==> r == k
    ensures r == k || r == Flip(k)
    ensures Inv(k) ==> Inv(r)
  {
    if k.horizontalInput > 0.0 && k.facingDirection < 0 then Flip(k)
    else if k.horizontalInput < 0.0 && k.facingDirection > 0 then Flip(k)
    else k
  }

  /** Latching the raw horizontal axis, which the engine supplies. */
  function ReadAxis(k: Knight, horizontal: real): (r: Knight)
    ensures r.horizontalInput == horizontal
    ensures r == k.(horizontalInput := horizontal)
    ensures Inv(k) && Axis(horizontal) ==> Inv(r)
  {
    k.(horizontalInput := horizontal)
  }

  /** Whether jump resolution runs at this point of the clock. */
  predicate JumpWindowOpen(k: Knight) { k.time1 > JumpWarmUp }

  /** Jump resolution only after the warm-up. */
  function GuardedJump(k: Knight, c: Config, jumpPressed: bool): (r: Knight)
    ensures !JumpWindowOpen(k) ==> r == k
    ensures JumpWindowOpen(k) ==> r == HandleJump(k, c, jumpPressed)
    ensures Inv(k) ==> Inv(r)
  {
    if k.time1 > JumpWarmUp then HandleJump(k, c, jumpPressed) else k
  }

  /** Advancing the elapsed-time counter, done first in every Update. */
  function Advance(k: Knight, dt: real): (r: Knight)
    ensures r.time1 == k.time1 + dt
    ensures r.hasDoubleJump == k.hasDoubleJump && r.canDash == k.canDash && r.isDashing == k.isDashing
              && r.isWallSliding == k.isWallSliding && r.dashTimeLeft == k.dashTimeLeft
              && r.dashCooldownTimer == k.dashCooldownTimer && r.facingDirection == k.facingDirection
              && r.velocity == k.velocity && r.horizontalInput == k.horizontalInput
              && r.isGrounded == k.isGrounded && r.isTouchingWall == k.isTouchingWall
    ensures Inv(k) ==> Inv(r)
  {
    k.(time1 := k.time1 + dt)
  }

  /** The axis, then the two contact probes. */
  function Sense(k: Knight, horizontal: real, grounded: bool, touchingWall: bool): Knight
  {
    CheckWall(CheckGrounded(ReadAxis(k, horizontal), grounded), touchingWall)
  }

  /** The three handlers, in the component's order: jump before the wall
      slide is recomputed, then the dash. */
  function Act(k: Knight, c: Config, dt: real, jumpPressed: bool, dashPressed: bool): Knight
  {
    HandleDash(HandleWallSlide(GuardedJump(k, c, jumpPressed), c), c, dt, dashPressed)
  }

  /** Gravity shaping, then turning toward the input. */
  function Settle(k: Knight, c: Config, dt: real, gravityY: real, jumpHeld: bool): Knight
  {
    FaceInput(JumpPhysics(k, c, dt, gravityY, jumpHeld))
  }

  /** The intent-resolution step (Update): advance the clock; while dashing
      do nothing else; otherwise read the axis and probes, run the handlers
      and settle. */
  function UpdateStep(k: Knight, c: Config, f: Frame): (r: Knight)
    ensures Inv(k) && Axis(f.horizontal) ==> Inv(r)
    ensures r.time1 == k.time1 + f.dt
    // a running dash owns the step: nothing but the clock moves
    ensures k.isDashing ==> r == k.(time1 := k.time1 + f.dt)
    // otherwise the frame's axis and contacts are latched
    ensures !k.isDashing ==>
              && r.horizontalInput == f.horizontal
              && r.isGrounded == f.grounded
              && r.isTouchingWall == f.touchingWall
  {
    if k.isDashing then Advance(k, f.dt)
    else Settle(Act(Sense(Advance(k, f.dt), f.horizontal, f.grounded, f.touchingWall), c, f.dt, f.jumpDown, f.dashDown),
                c, f.dt, f.gravityY, f.jumpHeld)
  }

  /** The stages of a non-dashing Update, given the value after each one,
      end in the value UpdateStep computes. */
  lemma UpdateStepStages(k0: Knight, k1: Knight, k2: Knight, k3: Knight, k4: Knight, k5: Knight,
                         k6: Knight, k7: Knight, c: Config, f: Frame)
    requires !k0.isDashing
    requires k1 == Advance(k0, f.dt) && k2 == ReadAxis(k1, f.horizontal)
    requires k3 == CheckGrounded(k2, f.grounded) && k4 == CheckWall(k3, f.touchingWall)
    requires k5 == Act(k4, c, f.dt, f.jumpDown, f.dashDown)
    requires k6 == JumpPhysics(k5, c, f.dt, f.gravityY, f.jumpHeld) && k7 == FaceInput(k6)
    ensures k7 == UpdateStep(k0, c, f)
  {
  }

  /** The dash-movement step: hold the dash velocity while time is left,
      else end the dash and cap any horizontal speed above the walking speed. */
  function HandleDashMovement(k: Knight, c: Config, dt: real): (r: Knight)
    ensures k.dashTimeLeft > 0.0 ==>
              r == k.(dashTimeLeft := k.dashTimeLeft - dt,
                      velocity := Vec(k.facingDirection as real * c.dashSpeed, 0.0))
    ensures k.dashTimeLeft <= 0.0 ==>
              && !r.isDashing
              && r.velocity.y == k.velocity.y
              && (c.moveSpeed >= 0.0 && Facing(k.facingDirection) ==> Abs(r.velocity.x) <= c.moveSpeed)
              && (Abs(k.velocity.x) > c.moveSpeed ==> r.velocity.x == k.facingDirection as real * c.moveSpeed)
              && (Abs(k.velocity.x) <= c.moveSpeed ==> r.velocity == k.velocity)
              && r == k.(isDashing := false, velocity := r.velocity)
  {
    if k.dashTimeLeft > 0.0 then
      k.(dashTimeLeft := k.dashTimeLeft - dt,
         velocity := Vec(k.facingDirection as real * c.dashSpeed, 0.0))
    else
      var k' := k.(isDashing := false);
      if Abs(k.velocity.x) > c.moveSpeed then
        k'.(velocity := Vec(k.facingDirection as real * c.moveSpeed, k.velocity.y))
      else
        k'
  }

  /** The integration step (FixedUpdate): the dash movement while dashing,
      else walking speed from the latched input unless wall sliding. */
  function FixedStep(k: Knight, c: Config, dt: real): (r: Knight)
    requires Inv(k)
    ensures Inv(r)
    // only the dash state and the velocity change
    ensures r.hasDoubleJump == k.hasDoubleJump && r.canDash == k.canDash && r.isWallSliding == k.isWallSliding
              && r.dashCooldownTimer == k.dashCooldownTimer && r.time1 == k.time1
              && r.facingDirection == k.facingDirection && r.horizontalInput == k.horizontalInput
              && r.isGrounded == k.isGrounded && r.isTouchingWall == k.isTouchingWall
    ensures r.isDashing ==> k.isDashing
    ensures k.isDashing && k.dashTimeLeft > 0.0 ==>
              && r.isDashing
              && r.dashTimeLeft == k.dashTimeLeft - dt
              && r.velocity == Vec(k.facingDirection as real * c.dashSpeed, 0.0)
    ensures k.isDashing && k.dashTimeLeft <= 0.0 ==>
              && !r.isDashing
              && r.dashTimeLeft == k.dashTimeLeft
              && r.velocity.y == k.velocity.y
              && (c.moveSpeed >= 0.0 ==> Abs(r.velocity.x) <= c.moveSpeed)
              && (Abs(k.velocity.x) > c.moveSpeed ==> r.velocity.x == k.facingDirection as real * c.moveSpeed)
              && (Abs(k.velocity.x) <= c.moveSpeed ==> r.velocity == k.velocity)
    ensures !k.isDashing && !k.isWallSliding ==>
              && r.velocity == Vec(k.horizontalInput * c.moveSpeed, k.velocity.y)
              && (c.moveSpeed >= 0.0 ==> Abs(r.velocity.x) <= c.moveSpeed)
    ensures !k.isDashing && k.isWallSliding ==> r == k
  {
    if k.isDashing then
      HandleDashMovement(k, c, dt)
    else if !k.isWallSliding then
      k.(velocity := Vec(k.horizontalInput * c.moveSpeed, k.velocity.y))
    else
      k
  }
}
