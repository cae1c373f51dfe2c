/** The HollowKnightController component itself: an object whose handlers
    update its fields in place, step by step, in the order HollowKnightController uses.
    Each method is proved to leave the fields as the corresponding function
    of KnightSteps computes from their old values, so every property proved
    about those functions holds of the object. */
module KnightController {
  import opened KnightState
  import KnightSteps

  class HollowKnightController {
    /** The serialized tuning fields. */
    const config: Config

    var hasDoubleJump: bool
    var canDash: bool
    var isDashing: bool
    var isWallSliding: bool
    var dashTimeLeft: real
    var dashCooldownTimer: real
    var time1: real
    var facingDirection: int
    /** Stands for the rigid body's linear velocity. */
    var velocity: Vec
    var horizontalInput: real
    var jumpPressed: bool
    var dashPressed: bool
    var isGrounded: bool
    var isTouchingWall: bool

    /** The value of the fields the handlers work on. */
    function Model(): Knight
      reads this`hasDoubleJump, this`canDash, this`isDashing, this`isWallSliding, this`dashTimeLeft,
            this`dashCooldownTimer, this`time1, this`facingDirection, this`velocity, this`horizontalInput,
            this`isGrounded, this`isTouchingWall
    {
      Knight(hasDoubleJump, canDash, isDashing, isWallSliding, dashTimeLeft, dashCooldownTimer, time1,
             facingDirection, velocity, horizontalInput, isGrounded, isTouchingWall)
    }

    /** Between engine callbacks: the invariant of the fields, and no input
        edge pending. */
    ghost predicate Valid()
      reads this
    {
      Inv(Model()) && !jumpPressed && !dashPressed
    }

    /** The field initialisers. */
    constructor (config: Config)
      ensures this.config == config
      ensures Model() == Initial && Valid()
    {
      this.config := config;
      hasDoubleJump := false;
      canDash := true;
      isDashing := false;
      isWallSliding := false;
      dashTimeLeft := 0.0;
      dashCooldownTimer := 0.0;
      time1 := 0.0;
      facingDirection := 1;
      velocity := Vec(0.0, 0.0);
      horizontalInput := 0.0;
      jumpPressed := false;
      dashPressed := false;
      isGrounded := false;
      isTouchingWall := false;
    }

    method CheckGrounded(grounded: bool)
      modifies this
      ensures Model() == KnightSteps.CheckGrounded(old(Model()), grounded)
      ensures jumpPressed == old(jumpPressed) && dashPressed == old(dashPressed)
    {
      isGrounded := grounded;
      if isGrounded {
        hasDoubleJump := true;
      }
    }

    method CheckWall(touchingWall: bool)
      modifies this
      ensures Model() == KnightSteps.CheckWall(old(Model()), touchingWall)
      ensures jumpPressed == old(jumpPressed) && dashPressed == old(dashPressed)
    {
      isTouchingWall := touchingWall;
      if isTouchingWall {
        hasDoubleJump := true;
      }
    }

    method Flip()
      modifies this
      ensures Model() == KnightSteps.Flip(old(Model()))
      ensures jumpPressed == old(jumpPressed) && dashPressed == old(dashPressed)
    {
      facingDirection := facingDirection * -1;
    }

    method HandleJump()
      modifies this
      ensures Model() == KnightSteps.HandleJump(old(Model()), config, jumpPressed)
      ensures jumpPressed == old(jumpPressed) && dashPressed == old(dashPressed)
    {
      if jumpPressed && isGrounded {
        velocity := Vec(velocity.x, config.jumpForce);
      } else if jumpPressed && isWallSliding {
        velocity := Vec(-(facingDirection as real) * config.wallJumpYForce, config.wallJumpXForce);
        Flip();
      } else if jumpPressed && !isGrounded && !isWallSliding && hasDoubleJump {
        velocity := Vec(velocity.x, config.jumpForce * DoubleJumpFactor);
        hasDoubleJump := false;
      }
    }

    method HandleWallSlide()
      modifies this
      ensures Model() == KnightSteps.HandleWallSlide(old(Model()), config)
      ensures jumpPressed == old(jumpPressed) && dashPressed == old(dashPressed)
    {
      isWallSliding := false;
      if isTouchingWall && !isGrounded && horizontalInput == facingDirection as real && velocity.y < 0.0 {
        isWallSliding := true;
        if velocity.y < -config.wallSlideSpeed {
          velocity := Vec(velocity.x, -config.wallSlideSpeed);
        }
      }
    }

    method HandleDash(dt: real)
      modifies this
      ensures Model() == KnightSteps.HandleDash(old(Model()), config, dt, dashPressed)
      ensures jumpPressed == old(jumpPressed) && dashPressed == old(dashPressed)
    {
      if dashCooldownTimer > 0.0 {
        dashCooldownTimer := dashCooldownTimer - dt;
      } else if !canDash {
        canDash := true;
      }
      if dashPressed && canDash && !isDashing {
        isDashing := true;
        canDash := false;
        dashTimeLeft := config.dashDuration;
        dashCooldownTimer := config.dashCooldown;
        velocity := Vec(velocity.x, 0.0);
      }
    }

    method HandleDashMovement(dt: real)
      modifies this
      ensures Model() == KnightSteps.HandleDashMovement(old(Model()), config, dt)
      ensures jumpPressed == old(jumpPressed) && dashPressed == old(dashPressed)
    {
      if dashTimeLeft > 0.0 {
        dashTimeLeft := dashTimeLeft - dt;
        velocity := Vec(facingDirection as real * config.dashSpeed, 0.0);
      } else {
        isDashing := false;
        if Abs(velocity.x) > config.moveSpeed {
          velocity := Vec(facingDirection as real * config.moveSpeed, velocity.y);
        }
      }
    }

    method JumpPhysics(dt: real, gravityY: real, jumpHeld: bool)
      modifies this
      ensures Model() == KnightSteps.JumpPhysics(old(Model()), config, dt, gravityY, jumpHeld)
      ensures jumpPressed == old(jumpPressed) && dashPressed == old(dashPressed)
    {
      if velocity.y < 0.0 {
        velocity := Vec(velocity.x, velocity.y + gravityY * (config.fallMultiplier - 1.0) * dt);
      } else if velocity.y > 0.0 && !jumpHeld {
        velocity := Vec(velocity.x, velocity.y + gravityY * (config.lowJumpMultiplier - 1.0) * dt);
      }
    }

    /** Reading the inputs: the raw axis and the two key-down edges. */
    method ReadInputs(horizontal: real, jumpDown: bool, dashDown: bool)
      modifies this
      ensures Model() == KnightSteps.ReadAxis(old(Model()), horizontal)
      ensures jumpPressed == (old(jumpPressed) || jumpDown) && dashPressed == (old(dashPressed) || dashDown)
    {
      horizontalInput := horizontal;
      if jumpDown {
        jumpPressed := true;
      }
      if dashDown {
        dashPressed := true;
      }
    }

    /** The three handlers, jump resolution only after the warm-up. */
    method Handles(dt: real)
      modifies this
      ensures Model() == KnightSteps.Act(old(Model()), config, dt, jumpPressed, dashPressed)
      ensures jumpPressed == old(jumpPressed) && dashPressed == old(dashPressed)
    {
      if time1 > JumpWarmUp {
        HandleJump();
      }
      HandleWallSlide();
      HandleDash(dt);
    }

    /** Turning toward the movement direction. */
    method FaceInput()
      modifies this
      ensures Model() == KnightSteps.FaceInput(old(Model()))
      ensures jumpPressed == old(jumpPressed) && dashPressed == old(dashPressed)
    {
      if horizontalInput > 0.0 && facingDirection < 0 {
        Flip();
      } else if horizontalInput < 0.0 && facingDirection > 0 {
        Flip();
      }
    }

    /** Consuming the input edges at the end of the frame. */
    method ResetInputs()
      modifies this
      ensures Model() == old(Model())
      ensures !jumpPressed && !dashPressed
    {
      jumpPressed := false;
      dashPressed := false;
    }

    /** The per-frame callback, with what the engine supplies as parameters. */
    method Update(dt: real, horizontal: real, jumpDown: bool, dashDown: bool, jumpHeld: bool,
                  grounded: bool, touchingWall: bool, gravityY: real)
      requires Valid() && Axis(horizontal)
      modifies this
      ensures Valid()
      ensures Model() == KnightSteps.UpdateStep(old(Model()), config,
                           Frame(dt, horizontal, jumpDown, dashDown, jumpHeld, grounded, touchingWall, gravityY))
    {
      ghost var f := Frame(dt, horizontal, jumpDown, dashDown, jumpHeld, grounded, touchingWall, gravityY);
      ghost var k0 := Model();
      time1 := time1 + dt;
      if isDashing {
        assert Model() == KnightSteps.Advance(k0, dt) == KnightSteps.UpdateStep(k0, config, f);
        return;
      }
      ghost var k1 := Model();
      assert k1 == KnightSteps.Advance(k0, dt);
      ReadInputs(horizontal, jumpDown, dashDown);
      ghost var k2 := Model();
      CheckGrounded(grounded);
      ghost var k3 := Model();
      CheckWall(touchingWall);
      ghost var k4 := Model();
      Handles(dt);
      ghost var k5 := Model();
      JumpPhysics(dt, gravityY, jumpHeld);
      ghost var k6 := Model();
      FaceInput();
      KnightSteps.UpdateStepStages(k0, k1, k2, k3, k4, k5, k6, Model(), config, f);
      ResetInputs();
    }

    /** The fixed-rate physics callback. */
    method FixedUpdate(dt: real)
      requires Valid()
      modifies this
      ensures Valid()
      ensures Model() == KnightSteps.FixedStep(old(Model()), config, dt)
    {
      if isDashing {
        HandleDashMovement(dt);
        return;
      }
      if !isWallSliding {
        velocity := Vec(horizontalInput * config.moveSpeed, velocity.y);
      }
    }
  }
}
