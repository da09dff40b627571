/**
 The per-frame locomotion of the player character (`PlayerController`):
 a vertical velocity driven by gravity, jumps and a glide toggle; a jump
 counter reset by a two-phase landing wait; a horizontal speed that moves
 towards a walk or sprint target; and the move vector handed to the
 collision system. Whether the character is grounded, the frame time, the
 input values and the camera-relative heading are parameters.
 */
module Player {
  import opened Engine

  /** `_gravity`: the downward acceleration. */
  const Gravity: real := -9.81

  /** The vertical velocity a grounded, descending character is pinned at. */
  const GroundStick: real := -1.0

  /** The tunables set in the inspector, fixed after load. */
  datatype Tuning = Tuning(
    gravityMultiplier: real,
    jumpPower: real,
    maxNumberOfJumps: int,
    glideGravityMultiplier: real,  // scales gravity while gliding
    maxGlideFallSpeed: real)       // the fastest downward velocity a glide step allows

  /** The tunables' declared initial values (`jumpPower` has none, so 0). */
  const DefaultTuning: Tuning := Tuning(3.0, 0.0, 2, 0.5, -2.0)

  /** The `Movement` record: walk speed, sprint multiplier and acceleration
      from the inspector, the sprint flag and the current horizontal speed. */
  datatype Movement = Movement(
    speed: real, multiplier: real, acceleration: real, isSprinting: bool, currentSpeed: real)

  /** The vertical state that gravity acts on. */
  datatype Vertical = Vertical(velocity: real, isGliding: bool)

  /** Where the landing coroutine is parked: not running, waiting for the
      character to leave the ground, or waiting for it to land again. */
  datatype Landing = Idle | WaitLeave | WaitLand

  /** The state jumps act on: the jump counter, the vertical velocity a jump
      sets, and the landing coroutine. */
  datatype Jumps = Jumps(numberOfJumps: nat, velocity: real, landing: Landing)

  /** A landing wait is pending exactly while the jump counter is non-zero;
      hence at most one is ever pending. */
  predicate LandingConsistent(j: Jumps)
  {
    j.landing == Idle <==> j.numberOfJumps == 0
  }

  // ---------------------------------------------------------------------------
  // Gravity

  /** The velocity change of one glide step. */
  function GlideDelta(t: Tuning, dt: real): real
  {
    Gravity * t.gravityMultiplier * t.glideGravityMultiplier * dt
  }

  /** The velocity change of one ordinary gravity step. */
  function FallDelta(t: Tuning, dt: real): real
  {
    Gravity * t.gravityMultiplier * dt
  }

  /** `ApplyGravity` on the vertical state. Three cases, tested in order:
      grounded and descending pins the velocity at the ground-stick value and
      ends the glide; gliding and descending applies the reduced glide gravity
      but never lets the velocity drop below `maxGlideFallSpeed`; anything
      else applies full gravity, unclamped. Only the first case touches the
      glide flag. */
  function GravityStep(t: Tuning, grounded: bool, s: Vertical, dt: real): (r: Vertical)
    ensures grounded && s.velocity < 0.0 ==> r == Vertical(GroundStick, false)
    ensures !(grounded && s.velocity < 0.0) ==> r.isGliding == s.isGliding
    ensures !(grounded && s.velocity < 0.0) && s.isGliding && s.velocity < 0.0 ==>
              && r.velocity >= t.maxGlideFallSpeed
              && r.velocity >= s.velocity + GlideDelta(t, dt)
              && (r.velocity == t.maxGlideFallSpeed || r.velocity == s.velocity + GlideDelta(t, dt))
    ensures !(grounded && s.velocity < 0.0) && s.isGliding && s.velocity < 0.0
            && GlideDelta(t, dt) <= 0.0 && t.maxGlideFallSpeed <= s.velocity ==>
              r.velocity <= s.velocity
    ensures !(grounded && s.velocity < 0.0) && !(s.isGliding && s.velocity < 0.0) ==>
              r.velocity == s.velocity + FallDelta(t, dt)
    ensures dt == 0.0 && !(grounded && s.velocity < 0.0)
            && (s.isGliding && s.velocity < 0.0 ==> t.maxGlideFallSpeed <= s.velocity) ==>
              r == s
  {
    if grounded && s.velocity < 0.0 then
      Vertical(GroundStick, false)
    else if s.isGliding && s.velocity < 0.0 then
      s.(velocity := Max(s.velocity + GlideDelta(t, dt), t.maxGlideFallSpeed))
    else
      s.(velocity := s.velocity + FallDelta(t, dt))
  }

  /** The vertical state after a run of airborne frames with the given frame times. */
  function AirborneRun(t: Tuning, s: Vertical, dts: seq<real>): Vertical
    decreases |dts|
  {
    if dts == [] then s else AirborneRun(t, GravityStep(t, false, s, dts[0]), dts[1..])
  }

  /** A glide that is under way (descending, not faster than the glide limit)
      stays under way for any number of airborne frames whose glide steps
      point downward: the velocity never rises and never passes the limit. */
  lemma {:induction false} SustainedGlideStaysInBand(t: Tuning, s: Vertical, dts: seq<real>)
    requires s.isGliding && t.maxGlideFallSpeed <= s.velocity < 0.0
    requires forall i :: 0 <= i < |dts| ==> GlideDelta(t, dts[i]) <= 0.0
    ensures var r := AirborneRun(t, s, dts);
            r.isGliding && t.maxGlideFallSpeed <= r.velocity <= s.velocity
    decreases |dts|
  {
    if dts != [] {
      var next := GravityStep(t, false, s, dts[0]);
      assert GlideDelta(t, dts[0]) <= 0.0;
      assert forall i :: 0 <= i < |dts[1..]| ==> GlideDelta(t, dts[1..][i]) <= 0.0 by {
        forall i | 0 <= i < |dts[1..]| ensures GlideDelta(t, dts[1..][i]) <= 0.0 {
          assert dts[1..][i] == dts[i + 1];
        }
      }
      SustainedGlideStaysInBand(t, next, dts[1..]);
    }
  }

  /** The glide limit is applied only when the velocity is already negative
      before the step: a glider still ascending at 0.1 falls to -2.843 in one
      0.1-second frame under the declared tunables, below the limit of -2. */
  lemma AscendingGlideStepPassesLimit()
    ensures var r := GravityStep(DefaultTuning, false, Vertical(0.1, true), 0.1);
            r.isGliding && r.velocity == -2.843 && r.velocity < DefaultTuning.maxGlideFallSpeed
  {
  }

  /** Under the declared tunables: falling freely from rest for a 0.016-second
      frame gives -9.81 * 3 * 0.016; a grounded glider sinking at -0.5 is
      pinned at the ground-stick value and stops gliding. */
  lemma GravityScenarios()
    ensures GravityStep(DefaultTuning, false, Vertical(0.0, false), 0.016) == Vertical(-0.47088, false)
    ensures GravityStep(DefaultTuning, true, Vertical(-0.5, true), 0.016) == Vertical(-1.0, false)
  {
  }

  // ---------------------------------------------------------------------------
  // Jumps and the landing wait

  /** `Jump` on the jump state. A press that is not the start of the action
      changes nothing; an airborne press with no jumps left changes nothing;
      any other press counts one more jump and sets the velocity to the jump
      power, and the first jump of a run starts the landing wait. */
  function JumpStep(t: Tuning, started: bool, grounded: bool, j: Jumps): (r: Jumps)
    ensures !started ==> r == j
    ensures !grounded && j.numberOfJumps >= t.maxNumberOfJumps ==> r == j
    ensures started && (grounded || j.numberOfJumps < t.maxNumberOfJumps) ==>
              r.numberOfJumps == j.numberOfJumps + 1 && r.velocity == t.jumpPower
    ensures started && !grounded && r != j ==> r.numberOfJumps <= t.maxNumberOfJumps
    ensures LandingConsistent(j) && r.landing != j.landing ==> j.landing == Idle && j.numberOfJumps == 0 && r.landing == WaitLeave
    ensures started && (grounded || j.numberOfJumps < t.maxNumberOfJumps) && j.numberOfJumps == 0 ==>
              r.landing == WaitLeave
    ensures LandingConsistent(j) ==> LandingConsistent(r)
  {
    if !started then j
    else if !grounded && j.numberOfJumps >= t.maxNumberOfJumps then j
    else
      var landing := if j.numberOfJumps == 0 then WaitLeave else j.landing;
      Jumps(j.numberOfJumps + 1, t.jumpPower, landing)
  }

  /** One poll of the landing coroutine, with the grounded state it observes.
      The first wait ends when the character is off the ground; the second
      ends when it is on the ground again, and only then is the counter reset.
      Each poll moves at most one phase on. */
  function LandingStep(grounded: bool, j: Jumps): (r: Jumps)
    ensures r.velocity == j.velocity
    ensures r.numberOfJumps != j.numberOfJumps ==>
              j.landing == WaitLand && grounded && r.numberOfJumps == 0 && r.landing == Idle
    ensures j.landing != WaitLand ==> r.numberOfJumps == j.numberOfJumps
    ensures j.landing == Idle ==> r == j
    ensures j.landing == WaitLeave ==> r.landing == (if grounded then WaitLeave else WaitLand)
    ensures LandingConsistent(j) ==> LandingConsistent(r)
  {
    match j.landing
    case Idle => j
    case WaitLeave => if grounded then j else j.(landing := WaitLand)
    case WaitLand => if grounded then j.(numberOfJumps := 0, landing := Idle) else j
  }

  /** The jump state after polling the landing coroutine once per grounded
      observation, first observation first. */
  function LandingRun(obs: seq<bool>, j: Jumps): Jumps
    decreases |obs|
  {
    if obs == [] then j else LandingRun(obs[1..], LandingStep(obs[0], j))
  }

  /** Some observation is grounded. */
  predicate EverGrounded(obs: seq<bool>)
  {
    exists k :: 0 <= k < |obs| && obs[k]
  }

  /** Some airborne observation is followed, later, by a grounded one. */
  predicate LeftThenLanded(obs: seq<bool>)
  {
    exists i, k :: 0 <= i < k < |obs| && !obs[i] && obs[k]
  }

  lemma {:induction false} IdleLandingRun(obs: seq<bool>, j: Jumps)
    requires j.landing == Idle
    ensures LandingRun(obs, j) == j
    decreases |obs|
  {
    if obs != [] {
      IdleLandingRun(obs[1..], LandingStep(obs[0], j));
    }
  }

  /** In the second phase, the counter is reset exactly when some grounded
      observation arrives; until then it is kept. */
  lemma {:induction false} WaitLandResetsOnLanding(obs: seq<bool>, j: Jumps)
    requires j.landing == WaitLand && j.numberOfJumps > 0
    ensures var r := LandingRun(obs, j);
            (r.numberOfJumps == 0 <==> EverGrounded(obs))
            && (r.landing == Idle <==> EverGrounded(obs))
            && (!EverGrounded(obs) ==> r == j)
    decreases |obs|
  {
    if obs != [] {
      if obs[0] {
        IdleLandingRun(obs[1..], LandingStep(obs[0], j));
        assert EverGrounded(obs);
      } else {
        WaitLandResetsOnLanding(obs[1..], j);
        if EverGrounded(obs[1..]) {
          var k :| 0 <= k < |obs[1..]| && obs[1..][k];
          assert obs[k + 1];
        }
        if EverGrounded(obs) {
          var k :| 0 <= k < |obs| && obs[k];
          assert k > 0 && obs[1..][k - 1];
        }
      }
    }
  }

  /** The landing handshake, started by the first jump: the counter goes back
      to zero, and the wait ends, exactly when the observations contain an
      airborne one followed later by a grounded one. In particular the
      grounded frame the jump was taken on never resets it. */
  lemma {:induction false} LandingResetsOnlyAfterLeavingAndLanding(obs: seq<bool>, j: Jumps)
    requires j.landing == WaitLeave && j.numberOfJumps > 0
    ensures var r := LandingRun(obs, j);
            (r.numberOfJumps == 0 <==> LeftThenLanded(obs))
            && (r.landing == Idle <==> LeftThenLanded(obs))
    decreases |obs|
  {
    if obs != [] {
      var rest := obs[1..];
      if obs[0] {
        LandingResetsOnlyAfterLeavingAndLanding(rest, j);
        if LeftThenLanded(rest) {
          var i, k :| 0 <= i < k < |rest| && !rest[i] && rest[k];
          assert !obs[i + 1] && obs[k + 1];
        }
        if LeftThenLanded(obs) {
          var i, k :| 0 <= i < k < |obs| && !obs[i] && obs[k];
          assert i > 0 && !rest[i - 1] && rest[k - 1];
        }
      } else {
        WaitLandResetsOnLanding(rest, j.(landing := WaitLand));
        if EverGrounded(rest) {
          var k :| 0 <= k < |rest| && rest[k];
          assert !obs[0] && obs[k + 1];
        }
        if LeftThenLanded(obs) {
          var i, k :| 0 <= i < k < |obs| && !obs[i] && obs[k];
          assert rest[k - 1];
        }
      }
    }
  }

  // ---------------------------------------------------------------------------
  // Horizontal speed

  /** The speed the blend aims at: the walk speed scaled by the sprint
      multiplier while sprinting, the walk speed otherwise. */
  function TargetSpeed(m: Movement): real
  {
    if m.isSprinting then m.speed * m.multiplier else m.speed
  }

  /** The most the speed may change in one frame: `acceleration * dt`. */
  function MaxSpeedChange(m: Movement, dt: real): real
  {
    m.acceleration * dt
  }

  /** The speed blend of `ApplyMovement`. Only the current speed changes, so
      the target stays where it was. With a non-negative step the speed moves
      by at most the step, ends between where it was and the target (never
      past it) and is no farther from the target than before; a target within
      reach is reached exactly; a frame with no elapsed time changes nothing. */
  function BlendSpeed(m: Movement, dt: real): (r: Movement)
    ensures r == m.(currentSpeed := r.currentSpeed)
    ensures TargetSpeed(r) == TargetSpeed(m)
    ensures MaxSpeedChange(m, dt) >= 0.0 ==>
              && Abs(r.currentSpeed - m.currentSpeed) <= MaxSpeedChange(m, dt)
              && Abs(TargetSpeed(m) - r.currentSpeed) <= Abs(TargetSpeed(m) - m.currentSpeed)
              && (m.currentSpeed <= TargetSpeed(m) ==> m.currentSpeed <= r.currentSpeed <= TargetSpeed(m))
              && (TargetSpeed(m) <= m.currentSpeed ==> TargetSpeed(m) <= r.currentSpeed <= m.currentSpeed)
    ensures Abs(TargetSpeed(m) - m.currentSpeed) <= MaxSpeedChange(m, dt) ==> r.currentSpeed == TargetSpeed(m)
    ensures dt == 0.0 ==> r == m
  {
    m.(currentSpeed := MoveTowards(m.currentSpeed, TargetSpeed(m), MaxSpeedChange(m, dt)))
  }

  /** The movement record after `n` frames of the same length. */
  function BlendRun(m: Movement, dt: real, n: nat): Movement
    decreases n
  {
    if n == 0 then m else BlendRun(BlendSpeed(m, dt), dt, n - 1)
  }

  /** `n` applications of `MoveTowards` with the same target and step. */
  function Approach(c: real, target: real, step: real, n: nat): real
    decreases n
  {
    if n == 0 then c else Approach(MoveTowards(c, target, step), target, step, n - 1)
  }

  /** The distance `n` steps of length `step` cover, laid end to end. */
  function Covered(step: real, n: nat): real
    decreases n
  {
    if n == 0 then 0.0 else Covered(step, n - 1) + step
  }

  /** `n` steps cover `n` times the step. */
  lemma {:induction false} CoveredIsProduct(step: real, n: nat)
    ensures Covered(step, n) == (n as real) * step
    decreases n
  {
    if n > 0 {
      CoveredIsProduct(step, n - 1);
      assert (n as real) * step == ((n - 1) as real) * step + step;
    }
  }

  /** Non-negative steps cover a non-negative distance. */
  lemma {:induction false} CoveredNonNegative(step: real, n: nat)
    requires step >= 0.0
    ensures Covered(step, n) >= 0.0
    decreases n
  {
    if n > 0 {
      CoveredNonNegative(step, n - 1);
    }
  }

  /** Where `n` equal steps towards a fixed target end: the distance the
      steps cover away from the start, or the target itself once it is
      within that distance. */
  lemma {:induction false} ApproachClosedForm(c: real, target: real, step: real, n: nat)
    requires step >= 0.0
    ensures var d := Covered(step, n);
            var r := Approach(c, target, step, n);
            (c <= target ==> r == (if c + d < target then c + d else target))
            && (target < c ==> r == (if target < c - d then c - d else target))
    decreases n
  {
    if n > 0 {
      var c1 := MoveTowards(c, target, step);
      ApproachClosedForm(c1, target, step, n - 1);
      CoveredNonNegative(step, n - 1);
      OneMoreStep(c, target, step, Covered(step, n - 1), c1, Approach(c1, target, step, n - 1));
    }
  }

  /** The arithmetic of one more blend step, kept linear: `before` is the
      distance covered by the remaining frames, `c1` the speed after the first. */
  lemma OneMoreStep(c: real, target: real, step: real, before: real, c1: real, r: real)
    requires step >= 0.0 && before >= 0.0
    requires c1 == MoveTowards(c, target, step)
    requires c1 <= target ==> r == (if c1 + before < target then c1 + before else target)
    requires target < c1 ==> r == (if target < c1 - before then c1 - before else target)
    ensures c <= target ==> r == (if c + (before + step) < target then c + (before + step) else target)
    ensures target < c ==> r == (if target < c - (before + step) then c - (before + step) else target)
  {
  }

  /** The target and the step depend only on the settings and the sprint
      flag, not on the current speed. */
  lemma SameSettings(m: Movement, c: real, dt: real)
    ensures TargetSpeed(m.(currentSpeed := c)) == TargetSpeed(m)
    ensures MaxSpeedChange(m.(currentSpeed := c), dt) == MaxSpeedChange(m, dt)
  {
  }

  /** `n` frames of the speed blend are `n` steps of `MoveTowards` towards the
      same target, and leave everything but the speed alone. */
  lemma {:induction false} BlendRunApproaches(m: Movement, dt: real, n: nat)
    ensures BlendRun(m, dt, n)
            == m.(currentSpeed := Approach(m.currentSpeed, TargetSpeed(m), MaxSpeedChange(m, dt), n))
    decreases n
  {
    if n > 0 {
      var m1 := BlendSpeed(m, dt);
      BlendRunApproaches(m1, dt, n - 1);
      SameSettings(m, m1.currentSpeed, dt);
    }
  }

  /** After `n` equal frames the speed has moved `n` full steps towards the
      target (a distance of `n` times the step, by `CoveredIsProduct`), or has
      reached it and stayed there. */
  lemma BlendRunReachesTarget(m: Movement, dt: real, n: nat)
    requires MaxSpeedChange(m, dt) >= 0.0
    ensures var d := Covered(MaxSpeedChange(m, dt), n);
            var c := m.currentSpeed;
            var target := TargetSpeed(m);
            var r := BlendRun(m, dt, n);
            && r == m.(currentSpeed := r.currentSpeed)
            && (c <= target ==> r.currentSpeed == (if c + d < target then c + d else target))
            && (target < c ==> r.currentSpeed == (if target < c - d then c - d else target))
  {
    BlendRunApproaches(m, dt, n);
    ApproachClosedForm(m.currentSpeed, TargetSpeed(m), MaxSpeedChange(m, dt), n);
  }

  /** Over repeated frames of the same length the distance to the target never
      grows: one more frame leaves the speed no farther from it. */
  lemma BlendRunConverges(m: Movement, dt: real, n: nat)
    requires MaxSpeedChange(m, dt) >= 0.0
    ensures Abs(TargetSpeed(m) - BlendRun(m, dt, n + 1).currentSpeed)
            <= Abs(TargetSpeed(m) - BlendRun(m, dt, n).currentSpeed)
  {
    var step := MaxSpeedChange(m, dt);
    BlendRunApproaches(m, dt, n);
    BlendRunApproaches(m, dt, n + 1);
    ApproachClosedForm(m.currentSpeed, TargetSpeed(m), step, n);
    ApproachClosedForm(m.currentSpeed, TargetSpeed(m), step, n + 1);
    assert Covered(step, n + 1) == Covered(step, n) + step;
  }

  /** Walk speed 5, sprint multiplier 2, acceleration 10, frames of 0.1
      seconds, sprinting from rest: 1 after one frame, the sprint speed 10
      after ten. */
  lemma SprintFromRest()
    ensures var m := Movement(5.0, 2.0, 10.0, true, 0.0);
            BlendRun(m, 0.1, 1).currentSpeed == 1.0 && BlendRun(m, 0.1, 10).currentSpeed == 10.0
  {
    var m := Movement(5.0, 2.0, 10.0, true, 0.0);
    BlendRunReachesTarget(m, 0.1, 1);
    BlendRunReachesTarget(m, 0.1, 10);
    CoveredIsProduct(1.0, 10);
  }

  /** The move vector of one frame, before scaling by the frame time: the
      horizontal direction scaled by the current speed; the vertical part is
      the direction's own, whatever the speed, so a character at rest still
      falls. */
  function MoveVector(direction: Vec3, currentSpeed: real): (r: Vec3)
    ensures r.y == direction.y
    ensures Vec3(r.x, 0.0, r.z) == Scale(Vec3(direction.x, 0.0, direction.z), currentSpeed)
    ensures currentSpeed == 0.0 ==> r == Vec3(0.0, direction.y, 0.0)
    ensures currentSpeed == 1.0 ==> r == direction
  {
    Vec3(direction.x * currentSpeed, direction.y, direction.z * currentSpeed)
  }

  // ---------------------------------------------------------------------------
  // The controller

  /** The player controller's state. `heading` parameters stand for the
      camera-relative direction computed from the move input and the camera's
      yaw; `grounded` parameters for the collision system's report. */
  class PlayerController {
    const tuning: Tuning
    var input: Vec2
    var direction: Vec3
    var movement: Movement
    var velocity: real
    var numberOfJumps: nat
    var isGliding: bool
    var landing: Landing

    ghost predicate Valid()
      reads this
    {
      LandingConsistent(Jumps(numberOfJumps, velocity, landing))
    }

    function VerticalState(): Vertical
      reads this
    {
      Vertical(velocity, isGliding)
    }

    function JumpState(): Jumps
      reads this
    {
      Jumps(numberOfJumps, velocity, landing)
    }

    constructor (tuning: Tuning, speed: real, multiplier: real, acceleration: real)
      ensures Valid()
      ensures this.tuning == tuning && movement == Movement(speed, multiplier, acceleration, false, 0.0)
      ensures input == Zero2 && direction == Vec3(0.0, 0.0, 0.0)
      ensures velocity == 0.0 && !isGliding && numberOfJumps == 0 && landing == Idle
    {
      this.tuning := tuning;
      movement := Movement(speed, multiplier, acceleration, false, 0.0);
      input := Zero2;
      direction := Vec3(0.0, 0.0, 0.0);
      velocity := 0.0;
      isGliding := false;
      numberOfJumps := 0;
      landing := Idle;
    }

    /** The move callback: remember the input and face along it, flat. */
    method Move(value: Vec2)
      requires Valid()
      modifies this`input, this`direction
      ensures Valid()
      ensures input == value && direction == Vec3(value.x, 0.0, value.y)
    {
      input := value;
      direction := Vec3(value.x, 0.0, value.y);
    }

    /** The glide callback: starting the action turns gliding on, cancelling
      it turns gliding off, any other phase leaves it. */
    method Glide(phase: InputPhase)
      requires Valid()
      modifies this`isGliding
      ensures Valid()
      ensures phase == Started ==> isGliding
      ensures phase == Canceled ==> !isGliding
      ensures phase != Started && phase != Canceled ==> isGliding == old(isGliding)
    {
      if phase == Started {
        isGliding := true;
      } else if phase == Canceled {
        isGliding := false;
      }
    }

    /** The sprint callback: sprinting while the action is started or performed. */
    method Sprint(phase: InputPhase)
      requires Valid()
      modifies this`movement
      ensures Valid()
      ensures movement == old(movement).(isSprinting := phase == Started || phase == Performed)
    {
      movement := movement.(isSprinting := phase == Started || phase == Performed);
    }

    /** The jump callback; the landing wait it may start is the `landing` phase. */
    method Jump(phase: InputPhase, grounded: bool)
      requires Valid()
      modifies this`numberOfJumps, this`velocity, this`landing
      ensures Valid()
      ensures JumpState() == JumpStep(tuning, phase == Started, grounded, old(JumpState()))
    {
      if phase != Started {
        return;
      }
      if !grounded && numberOfJumps >= tuning.maxNumberOfJumps {
        return;
      }
      if numberOfJumps == 0 {
        // no landing wait is pending while the counter is zero
        assert landing == Idle;
        landing := WaitLeave;
      }
      numberOfJumps := numberOfJumps + 1;
      velocity := tuning.jumpPower;
    }

    /** Turn towards the input only when there is some; the turn itself is
      not modelled, the new direction is `heading`. */
    method ApplyRotation(heading: Vec3)
      modifies this`direction
      ensures input == Zero2 ==> direction == old(direction)
      ensures input != Zero2 ==> direction == heading
    {
      if input == Zero2 {
        return;
      }
      direction := heading;
    }

    method ApplyGravity(grounded: bool, dt: real)
      modifies this`velocity, this`isGliding, this`direction
      ensures VerticalState() == GravityStep(tuning, grounded, old(VerticalState()), dt)
      ensures direction == old(direction).(y := velocity)
    {
      if grounded && velocity < 0.0 {
        velocity := GroundStick;
        isGliding := false;
      } else {
        if isGliding && velocity < 0.0 {
          velocity := velocity + Gravity * tuning.gravityMultiplier * tuning.glideGravityMultiplier * dt;
          velocity := Max(velocity, tuning.maxGlideFallSpeed);
        } else {
          velocity := velocity + Gravity * tuning.gravityMultiplier * dt;
        }
      }
      direction := direction.(y := velocity);
    }

    /** Blend the speed and return the displacement for this frame. */
    method ApplyMovement(dt: real) returns (displacement: Vec3)
      modifies this`movement
      ensures movement == BlendSpeed(old(movement), dt)
      ensures displacement == Scale(MoveVector(direction, movement.currentSpeed), dt)
    {
      var targetHorizontalSpeed := if movement.isSprinting then movement.speed * movement.multiplier else movement.speed;
      assert targetHorizontalSpeed == TargetSpeed(movement);
      movement := movement.(currentSpeed := MoveTowards(movement.currentSpeed, targetHorizontalSpeed, MaxSpeedChange(movement, dt)));
      var moveX := direction.x * movement.currentSpeed;
      var moveZ := direction.z * movement.currentSpeed;
      var moveY := direction.y;
      displacement := Scale(Vec3(moveX, moveY, moveZ), dt);
    }

    /** The per-frame update: rotation, gravity, movement, in that order. The
      returned displacement is what is handed to the collision system; its
      vertical part is the new velocity times the frame time. */
    method Update(heading: Vec3, grounded: bool, dt: real) returns (displacement: Vec3)
      modifies this`direction, this`velocity, this`isGliding, this`movement
      ensures VerticalState() == GravityStep(tuning, grounded, old(VerticalState()), dt)
      ensures movement == BlendSpeed(old(movement), dt)
      ensures direction == (if input == Zero2 then old(direction) else heading).(y := velocity)
      ensures displacement == Scale(MoveVector(direction, movement.currentSpeed), dt)
      ensures displacement.y == velocity * dt
    {
      ApplyRotation(heading);
      ApplyGravity(grounded, dt);
      displacement := ApplyMovement(dt);
    }

    /** Resume the landing coroutine once, with the grounded state it sees. */
    method PollLanding(grounded: bool)
      requires Valid()
      modifies this`numberOfJumps, this`landing
      ensures Valid()
      ensures JumpState() == LandingStep(grounded, old(JumpState()))
    {
      match landing
      case Idle =>
      case WaitLeave =>
        if !grounded {
          landing := WaitLand;
        }
      case WaitLand =>
        if grounded {
          numberOfJumps := 0;
          landing := Idle;
        }
    }

    /** One frame: the update, then the landing coroutine's poll, which sees
      the grounded state after the move (`groundedAfterMove`). */
    method Tick(heading: Vec3, grounded: bool, groundedAfterMove: bool, dt: real) returns (displacement: Vec3)
      requires Valid()
      modifies this
      ensures Valid()
      ensures VerticalState() == GravityStep(tuning, grounded, old(VerticalState()), dt)
      ensures movement == BlendSpeed(old(movement), dt)
      ensures direction == (if input == Zero2 then old(direction) else heading).(y := velocity)
      ensures displacement == Scale(MoveVector(direction, movement.currentSpeed), dt)
      ensures JumpState() == LandingStep(groundedAfterMove, old(JumpState()).(velocity := velocity))
      ensures input == old(input)
    {
      displacement := Update(heading, grounded, dt);
      PollLanding(groundedAfterMove);
    }
  }
}
