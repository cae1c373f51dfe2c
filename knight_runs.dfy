/** Runs: the component driven by any interleaving of Update and FixedUpdate
    calls, and the properties that span several calls, each proved by
    induction over the run. */
module KnightRuns {
  import opened KnightState
  import opened KnightSteps
  import opened KnightLemmas

  /** One engine callback: an Update with its frame, or a FixedUpdate with
      its fixed time step. */
  datatype Tick = FrameTick(f: Frame) | PhysicsTick(dt: real)

  /** What the engine guarantees of a callback: the axis is in range and
      time does not run backwards. */
  predicate WellFormed(t: Tick) {
    match t
    case FrameTick(f) => Axis(f.horizontal) && f.dt >= 0.0
    case PhysicsTick(dt) => dt >= 0.0
  }

  predicate AllWellFormed(ts: seq<Tick>) {
    forall i :: 0 <= i < |ts| ==> WellFormed(ts[i])
  }

  /** One callback applied to the component. */
  function Apply(k: Knight, c: Config, t: Tick): (r: Knight)
    requires Inv(k) && WellFormed(t)
    ensures Inv(r)
  {
    match t
    case FrameTick(f) => UpdateStep(k, c, f)
    case PhysicsTick(dt) => FixedStep(k, c, dt)
  }

  /** A whole run; the invariant holds between any two callbacks. */
  function Run(k: Knight, c: Config, ts: seq<Tick>): (r: Knight)
    requires Inv(k) && AllWellFormed(ts)
    ensures Inv(r)
    decreases |ts|
  {
    if ts == [] then k else Run(Apply(k, c, ts[0]), c, ts[1..])
  }

  /** The time that the Update calls of a run advance (the frame clock). */
  function FrameTime(ts: seq<Tick>): (r: real)
    ensures AllWellFormed(ts) ==> r >= 0.0
    decreases |ts|
  {
    if ts == [] then 0.0
    else (if ts[0].FrameTick? then ts[0].f.dt else 0.0) + FrameTime(ts[1..])
  }

  /** The time that the FixedUpdate calls of a run advance. */
  function PhysicsTime(ts: seq<Tick>): (r: real)
    ensures AllWellFormed(ts) ==> r >= 0.0
    decreases |ts|
  {
    if ts == [] then 0.0
    else (if ts[0].PhysicsTick? then ts[0].dt else 0.0) + PhysicsTime(ts[1..])
  }

  /** Whether the run holds a FixedUpdate call at all. */
  predicate HasPhysics(ts: seq<Tick>) {
    exists i :: 0 <= i < |ts| && ts[i].PhysicsTick?
  }

  /** No Update of the run reports ground or wall contact. */
  predicate NoContact(ts: seq<Tick>) {
    forall i :: 0 <= i < |ts| && ts[i].FrameTick? ==> !ts[i].f.grounded && !ts[i].f.touchingWall
  }

  /** The same callback with no jump press. */
  function ClearJump(t: Tick): Tick {
    match t
    case FrameTick(f) => FrameTick(f.(jumpDown := false))
    case PhysicsTick(_) => t
  }

  /** The same run with every jump press removed. */
  function ClearJumps(ts: seq<Tick>): (r: seq<Tick>)
    ensures |r| == |ts|
    ensures forall i :: 0 <= i < |ts| ==> r[i] == ClearJump(ts[i])
    ensures AllWellFormed(ts) ==> AllWellFormed(r)
    ensures FrameTime(r) == FrameTime(ts)
    decreases |ts|
  {
    if ts == [] then [] else [ClearJump(ts[0])] + ClearJumps(ts[1..])
  }

  /** While the cooldown outlasts the frame time of a run that starts out of
      a dash, no dash can start: the dash stays unavailable and the timer
      counts down by exactly the frame time. */
  lemma {:induction false} CooldownBlocksDash(k: Knight, c: Config, ts: seq<Tick>)
    requires Inv(k) && AllWellFormed(ts) && !k.isDashing
    requires k.dashCooldownTimer > FrameTime(ts)
    ensures var r := Run(k, c, ts);
            !r.canDash && !r.isDashing && r.dashCooldownTimer == k.dashCooldownTimer - FrameTime(ts)
    decreases |ts|
  {
    if ts != [] {
      var k1 := Apply(k, c, ts[0]);
      match ts[0] {
      case FrameTick(f) =>
        UpdateCooldown(k, c, f);
      case PhysicsTick(dt) =>
      }
      CooldownBlocksDash(k1, c, ts[1..]);
    }
  }

  /** While the dash time left outlasts the physics time of a run, the dash
      keeps going: the dash time falls by exactly the physics time, the
      facing and the double jump are untouched, and the cooldown does not
      move at all while the frame clock keeps running. */
  lemma {:induction false} DashHolds(k: Knight, c: Config, ts: seq<Tick>)
    requires Inv(k) && AllWellFormed(ts) && k.isDashing
    requires k.dashTimeLeft > PhysicsTime(ts)
    ensures var r := Run(k, c, ts);
            && r.isDashing
            && r.dashTimeLeft == k.dashTimeLeft - PhysicsTime(ts)
            && r.dashCooldownTimer == k.dashCooldownTimer
            && r.time1 == k.time1 + FrameTime(ts)
            && r.facingDirection == k.facingDirection
            && r.hasDoubleJump == k.hasDoubleJump
    decreases |ts|
  {
    if ts != [] {
      DashHolds(Apply(k, c, ts[0]), c, ts[1..]);
    }
  }

  /** During such a run the velocity is the dash velocity along the facing
      as soon as one FixedUpdate has run, and untouched before. */
  lemma {:induction false} DashVelocity(k: Knight, c: Config, ts: seq<Tick>)
    requires Inv(k) && AllWellFormed(ts) && k.isDashing
    requires k.dashTimeLeft > PhysicsTime(ts)
    ensures var r := Run(k, c, ts);
            && (HasPhysics(ts) ==> r.velocity == Vec(k.facingDirection as real * c.dashSpeed, 0.0))
            && (!HasPhysics(ts) ==> r.velocity == k.velocity)
    decreases |ts|
  {
    if ts != [] {
      var k1 := Apply(k, c, ts[0]);
      DashVelocity(k1, c, ts[1..]);
      HasPhysicsCons(ts);
    }
  }

  lemma HasPhysicsCons(ts: seq<Tick>)
    requires ts != []
    ensures HasPhysics(ts) <==> ts[0].PhysicsTick? || HasPhysics(ts[1..])
  {
    if HasPhysics(ts[1..]) {
      var i :| 0 <= i < |ts[1..]| && ts[1..][i].PhysicsTick?;
      assert ts[i + 1].PhysicsTick?;
    }
    if HasPhysics(ts) && !ts[0].PhysicsTick? {
      var i :| 0 <= i < |ts| && ts[i].PhysicsTick?;
      assert ts[1..][i - 1].PhysicsTick?;
    }
  }

  /** A spent double jump stays spent through any run without contact. */
  lemma {:induction false} DoubleJumpStaysSpent(k: Knight, c: Config, ts: seq<Tick>)
    requires Inv(k) && AllWellFormed(ts) && NoContact(ts) && !k.hasDoubleJump
    ensures !Run(k, c, ts).hasDoubleJump
    decreases |ts|
  {
    if ts != [] {
      var k1 := Apply(k, c, ts[0]);
      match ts[0] {
      case FrameTick(f) =>
        if !k.isDashing { UpdateDoubleJump(k, c, f); }
      case PhysicsTick(dt) =>
      }
      DoubleJumpStaysSpent(k1, c, ts[1..]);
    }
  }

  /** Airborne with the double jump spent and no wall slide, no jump press of
      a contact-free run has any effect. */
  lemma {:induction false} AirborneJumpsIgnored(k: Knight, c: Config, ts: seq<Tick>)
    requires Inv(k) && AllWellFormed(ts) && NoContact(ts) && !k.hasDoubleJump && !k.isWallSliding
    ensures Run(k, c, ts) == Run(k, c, ClearJumps(ts))
    decreases |ts|
  {
    if ts != [] {
      var k1 := Apply(k, c, ts[0]);
      match ts[0] {
      case FrameTick(f) =>
        SpentDoubleJumpIgnored(k, c, f);
        if !k.isDashing {
          UpdateDoubleJump(k, c, f.(jumpDown := false));
          UpdateWallSlide(k, c, f.(jumpDown := false));
        }
      case PhysicsTick(dt) =>
      }
      AirborneJumpsIgnored(k1, c, ts[1..]);
      assert ClearJumps(ts)[1..] == ClearJumps(ts[1..]);
    }
  }

  /** No jump press of a run that ends within the warm-up has any effect. */
  lemma {:induction false} WarmUpRunIgnoresJumps(k: Knight, c: Config, ts: seq<Tick>)
    requires Inv(k) && AllWellFormed(ts) && k.time1 + FrameTime(ts) <= JumpWarmUp
    ensures Run(k, c, ts) == Run(k, c, ClearJumps(ts))
    decreases |ts|
  {
    if ts != [] {
      var k1 := Apply(k, c, ts[0]);
      match ts[0] {
      case FrameTick(f) =>
        WarmUpIgnoresJump(k, c, f);
      case PhysicsTick(dt) =>
      }
      WarmUpRunIgnoresJumps(k1, c, ts[1..]);
      assert ClearJumps(ts)[1..] == ClearJumps(ts[1..]);
    }
  }
}
