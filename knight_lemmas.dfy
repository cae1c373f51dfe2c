/** Properties of one Update call (UpdateStep), each proved by following the
    value of the fields through the handlers in the component's order. */
module KnightLemmas {
  import opened KnightState
  import opened KnightSteps

  /** Whether an Update call with this frame resolves jumps at all: the
      clock is advanced before the warm-up test. */
  predicate WindowOpens(k: Knight, f: Frame) { JumpWindowOpen(Advance(k, f.dt)) }

  /** After a non-dashing Update with a nonzero input the facing points along
      the input, even when a wall jump flipped it away from the wall. */
  lemma {:induction false} UpdateFacesInput(k: Knight, c: Config, f: Frame)
    requires Inv(k) && !k.isDashing && f.horizontal != 0.0
    ensures var r := UpdateStep(k, c, f);
            (f.horizontal > 0.0 ==> r.facingDirection == 1) && (f.horizontal < 0.0 ==> r.facingDirection == -1)
  {
  }

  /** The double jump is refilled by contact and spent only by a double jump:
      landing always leaves it available, a wall contact does unless that
      same frame spends it, and it is lost only to a jump press in the open
      window while airborne and not already wall sliding. */
  lemma {:induction false} UpdateDoubleJump(k: Knight, c: Config, f: Frame)
    requires Inv(k) && !k.isDashing
    ensures var r := UpdateStep(k, c, f);
            && (f.grounded ==> r.hasDoubleJump)
            && (f.touchingWall && !(f.jumpDown && WindowOpens(k, f)) ==> r.hasDoubleJump)
            && (r.hasDoubleJump ==> k.hasDoubleJump || f.grounded || f.touchingWall)
            && (!r.hasDoubleJump && (k.hasDoubleJump || f.touchingWall) ==>
                  f.jumpDown && WindowOpens(k, f) && !f.grounded && !k.isWallSliding)
  {
    var k1 := Sense(Advance(k, f.dt), f.horizontal, f.grounded, f.touchingWall);
    var k2 := GuardedJump(k1, c, f.jumpDown);
    assert k2.hasDoubleJump == Act(k1, c, f.dt, f.jumpDown, f.dashDown).hasDoubleJump;
  }

  /** Whether a jump of this frame fires: a press in the open window that
      meets one of the three alternatives after the contact checks. */
  predicate JumpFires(k: Knight, f: Frame) {
    var ks := Sense(Advance(k, f.dt), f.horizontal, f.grounded, f.touchingWall);
    WindowOpens(k, f)
    && (GroundJumps(ks, f.jumpDown) || WallJumps(ks, f.jumpDown) || DoubleJumps(ks, f.jumpDown))
  }

  /** When no jump fires, the wall-slide flag is recomputed from this frame
      alone and the horizontal speed is untouched. */
  lemma {:induction false} UpdateWallSlide(k: Knight, c: Config, f: Frame)
    requires Inv(k) && !k.isDashing && !JumpFires(k, f)
    ensures var r := UpdateStep(k, c, f);
            && (r.isWallSliding <==>
                  f.touchingWall && !f.grounded && f.horizontal == k.facingDirection as real && k.velocity.y < 0.0)
            && r.velocity.x == k.velocity.x
  {
    var ks := Sense(Advance(k, f.dt), f.horizontal, f.grounded, f.touchingWall);
    assert GuardedJump(ks, c, f.jumpDown) == ks;
  }

  /** A wall slide that outlasts the Update leaves the fall speed no faster
      than the slide speed plus one step of the extra fall gravity that the
      gravity shaping adds after the cap. */
  lemma {:induction false} UpdateSlideCap(k: Knight, c: Config, f: Frame)
    requires Inv(k) && !k.isDashing && c.wallSlideSpeed > 0.0
    ensures var r := UpdateStep(k, c, f);
            r.isWallSliding && !r.isDashing ==>
              r.velocity.y >= -c.wallSlideSpeed + f.gravityY * (c.fallMultiplier - 1.0) * f.dt
  {
    var k3 := HandleWallSlide(GuardedJump(Sense(Advance(k, f.dt), f.horizontal, f.grounded, f.touchingWall), c, f.jumpDown), c);
    var k4 := HandleDash(k3, c, f.dt, f.dashDown);
    assert !k4.isDashing ==> k4.velocity == k3.velocity && k4.isWallSliding == k3.isWallSliding;
  }

  /** A non-dashing Update starts a dash exactly when dash is pressed and the
      cooldown timer had run out before the call; starting sets the full
      duration and cooldown, makes the dash unavailable and stops any
      vertical motion. */
  lemma {:induction false} UpdateDashStart(k: Knight, c: Config, f: Frame)
    requires Inv(k) && !k.isDashing
    ensures var r := UpdateStep(k, c, f);
            && (r.isDashing <==> f.dashDown && k.dashCooldownTimer <= 0.0)
            && (r.isDashing ==>
                  && !r.canDash
                  && r.dashTimeLeft == c.dashDuration
                  && r.dashCooldownTimer == c.dashCooldown
                  && r.velocity.y == 0.0)
  {
  }

  /** The cooldown counts down only in non-dashing Updates, the dash stays
      unavailable while it is positive, and an Update that finds it used up
      makes the dash available again (unless it starts one at once). */
  lemma {:induction false} UpdateCooldown(k: Knight, c: Config, f: Frame)
    requires Inv(k) && !k.isDashing
    ensures var r := UpdateStep(k, c, f);
            && (k.dashCooldownTimer > 0.0 ==>
                  !r.canDash && !r.isDashing && r.dashCooldownTimer == k.dashCooldownTimer - f.dt)
            && (k.dashCooldownTimer <= 0.0 && !f.dashDown ==>
                  r.canDash && r.dashCooldownTimer == k.dashCooldownTimer)
  {
  }

  /** During the warm-up a jump press changes nothing at all. */
  lemma {:induction false} WarmUpIgnoresJump(k: Knight, c: Config, f: Frame)
    requires Inv(k) && !WindowOpens(k, f)
    ensures UpdateStep(k, c, f) == UpdateStep(k, c, f.(jumpDown := false))
  {
  }

  /** Once the double jump is spent, a further press in the air, away from
      any wall and not wall sliding, changes nothing at all. */
  lemma {:induction false} SpentDoubleJumpIgnored(k: Knight, c: Config, f: Frame)
    requires Inv(k) && !k.hasDoubleJump && !k.isWallSliding && !f.grounded && !f.touchingWall
    ensures UpdateStep(k, c, f) == UpdateStep(k, c, f.(jumpDown := false))
  {
  }

  /** A grounded jump press (jump held, no dash) sets the vertical speed to
      exactly the jump force and keeps the horizontal speed, whatever the
      wall-slide flag says. */
  lemma {:induction false} GroundJumpSetsJumpForce(k: Knight, c: Config, f: Frame)
    requires Inv(k) && !k.isDashing && WindowOpens(k, f)
    requires f.jumpDown && f.grounded && f.jumpHeld && !f.dashDown && c.jumpForce >= 0.0
    ensures UpdateStep(k, c, f).velocity == Vec(k.velocity.x, c.jumpForce)
  {
  }

  /** An airborne press with the double jump available, away from walls and
      not wall sliding, gives 0.8 of the jump force and spends it. */
  lemma {:induction false} DoubleJumpSetsReducedForce(k: Knight, c: Config, f: Frame)
    requires Inv(k) && !k.isDashing && WindowOpens(k, f) && k.hasDoubleJump && !k.isWallSliding
    requires f.jumpDown && !f.grounded && !f.touchingWall && f.jumpHeld && !f.dashDown && c.jumpForce >= 0.0
    ensures var r := UpdateStep(k, c, f);
            r.velocity == Vec(k.velocity.x, DoubleJumpFactor * c.jumpForce) && !r.hasDoubleJump
  {
  }

  /** The wall jump tests the wall-slide flag left by the previous frame: it
      fires even when this frame no longer touches the wall, and it pushes
      with the Y-named constant horizontally and the X-named one vertically. */
  lemma {:induction false} StaleSlideStillWallJumps(k: Knight, c: Config, f: Frame)
    requires Inv(k) && !k.isDashing && WindowOpens(k, f) && k.isWallSliding
    requires f.jumpDown && !f.grounded && !f.touchingWall && f.horizontal == 0.0
    requires f.jumpHeld && !f.dashDown && c.wallJumpXForce >= 0.0
    ensures var r := UpdateStep(k, c, f);
            && r.velocity == Vec(-(k.facingDirection as real) * c.wallJumpYForce, c.wallJumpXForce)
            && r.facingDirection == -k.facingDirection
  {
  }

  /** With the shipped tuning the two wall-jump forces are equal, so the
      swapped use of the constants gives the same velocity as the use their
      names suggest. */
  lemma DefaultsHideWallJumpSwap(k: Knight)
    requires WallJumps(k, true)
    ensures HandleJump(k, Defaults, true).velocity
            == Vec(-(k.facingDirection as real) * Defaults.wallJumpXForce, Defaults.wallJumpYForce)
  {
  }

  /** Conversely, on the first frame of sliding contact (the previous frame
      was not sliding) a jump press is a double jump, not a wall jump. */
  lemma {:induction false} FreshSlideDoubleJumps(k: Knight, c: Config, f: Frame)
    requires Inv(k) && !k.isDashing && WindowOpens(k, f) && !k.isWallSliding
    requires f.jumpDown && !f.grounded && f.touchingWall && f.horizontal == k.facingDirection as real
    requires k.velocity.y < 0.0 && f.jumpHeld && !f.dashDown && c.jumpForce > 0.0
    ensures var r := UpdateStep(k, c, f);
            && r.velocity == Vec(k.velocity.x, DoubleJumpFactor * c.jumpForce)
            && r.facingDirection == k.facingDirection
            && !r.isWallSliding && !r.hasDoubleJump
  {
  }

  /** The horizontal push of a wall jump lasts only until the next
      FixedUpdate: the jump leaves the knight rising and not wall sliding,
      so the walking-speed assignment replaces the push with the input. */
  lemma {:induction false} WallJumpPushOverwritten(k: Knight, c: Config, f: Frame, dt: real)
    requires Inv(k) && !k.isDashing && WindowOpens(k, f) && k.isWallSliding
    requires f.jumpDown && !f.grounded && !f.dashDown && Axis(f.horizontal) && c.wallJumpXForce > 0.0
    ensures var r := UpdateStep(k, c, f);
            && r.velocity.x == -(k.facingDirection as real) * c.wallJumpYForce
            && !r.isWallSliding && !r.isDashing
            && FixedStep(r, c, dt).velocity.x == f.horizontal * c.moveSpeed
  {
  }
}
