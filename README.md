# Third-person locomotion and orbit camera, modelled in Dafny

This project models the two Unity components of a third-person character
controller that hold real per-frame state:

- `PlayerController` (module `Player`, `player.dfy`). It covers the vertical
  velocity that gravity, jumps and a glide toggle drive. It covers the jump
  counter and the two-phase landing wait that resets it. It covers the
  horizontal speed that blends towards a walk or sprint target. It also
  covers the move vector handed to the collision system each frame.
- `CameraManager` (module `Camera`, `camera.dfy`). Look input accumulates
  into yaw and pitch, and the pitch is clamped into a configured range.

`engine.dfy` (module `Engine`) holds the engine values and helpers these
components use: `Vector2`/`Vector3`, the phase of an input action, and
`Mathf.Max`, `Mathf.Clamp`, `Mathf.Sign` and `Mathf.MoveTowards`, written out
the way the engine defines them.

Float quantities are `real`. Each component is a `class` whose methods update
its fields in place, as the source does. The pure per-frame transitions are
functions. The methods are proved equal to those functions, and the
multi-frame properties are lemmas about the functions.

The landing coroutine `WaitForLanding` becomes the field `landing` of type
`Landing = Idle | WaitLeave | WaitLand`. `PollLanding` resumes it once per
frame. `Tick` runs `Update` and then that poll, because Unity resumes
`WaitUntil` coroutines after `Update`. The poll therefore sees the grounded
state after the frame's move (`groundedAfterMove`). The class keeps the
invariant that a landing wait is pending exactly while the jump counter is
non-zero, so at most one wait is ever pending.

Collaborators become parameters: whether the character is grounded, the frame
time `dt`, input values and phases, and the camera-relative heading that
`ApplyRotation` computes.

`Tick` takes the grounded state its gravity step reads (`grounded`) and the one
its landing poll reads (`groundedAfterMove`) as independent parameters. In the
program, the grounded state a frame's gravity step reads is the one the
previous frame's move left. The model therefore allows more frame sequences
than the program can produce. Its properties hold for all of them, so they
hold for the program's sequences too.

Behaviour of the code that is easy to misread:

- `BoolToInt(true)` is `+1` (`Assets/Scripts/CameraManager.cs:46`). An invert
  flag left at `false` therefore flips its axis.
- A zero-length frame does not always leave the vertical velocity alone. A
  grounded, descending character is still pinned at `-1`. A glider falling
  faster than `maxGlideFallSpeed` is still raised to that limit.
  `GravityStep` states the zero-length case outside those two situations.
- A grounded jump is accepted whatever the counter holds
  (`Assets/Scripts/PlayerController.cs:134`). So the counter is bounded by
  `maxNumberOfJumps` only for airborne jumps, not globally.
- The glide clamp applies only when the velocity is already negative before
  the step. A glider that is still rising can therefore fall below
  `maxGlideFallSpeed` for one frame. `AscendingGlideStepPassesLimit` exhibits
  this.

## Model

| member | source | states |
|---|---|---|
| `Engine.Max` | Assets/Scripts/PlayerController.cs:75 | the result is at least both arguments and is one of them |
| `Engine.Clamp` | Assets/Scripts/CameraManager.cs:35 | for an ordered range the result lies in it; a value inside is kept; a value below becomes the lower bound; otherwise a value above becomes the upper bound |
| `Engine.ClampIdempotent` | Assets/Scripts/CameraManager.cs:35 | clamping a clamped value again changes nothing |
| `Engine.MoveTowards` | Assets/Scripts/PlayerController.cs:102 | for a non-negative step the result moves at most the step, lies between start and target, is no farther from the target, and is the target or a full step away; a target in reach is hit exactly; a zero step changes nothing |
| `Camera.BoolToInt` | Assets/Scripts/CameraManager.cs:46 | the result is always +1 or -1, and it is +1 exactly when the flag is true |
| `Camera.CameraStep` | Assets/Scripts/CameraManager.cs:33-35 | the yaw grows by input.x * horizontal * BoolToInt(invertHorizontal) * dt, unclamped; the pitch is the clamp of the old pitch plus input.y * vertical * BoolToInt(invertVertical) * dt; the pitch lies in [min, max] when min <= max; with zero input or dt the yaw is unchanged and the pitch is only clamped; with zero input and an in-range pitch nothing changes |
| `Camera.QuietFrameIdempotent` | Assets/Scripts/CameraManager.cs:33-35 | a second frame with zero input or zero dt changes nothing |
| `Camera.CameraRunYaw` | Assets/Scripts/CameraManager.cs:33 | over any number of frames the yaw is the start plus the sum of the per-frame increments, so it is never clamped |
| `Camera.CameraRunPitchInRange` | Assets/Scripts/CameraManager.cs:34-35 | after any non-empty run of frames, whatever the input magnitudes, the pitch lies in [min, max] |
| `Camera.CameraManager.constructor` | Assets/Scripts/CameraManager.cs:11-16 | the angles and the stored input start at zero |
| `Camera.CameraManager.Look` | Assets/Scripts/CameraManager.cs:24-27 | the stored look input becomes the value read |
| `Camera.CameraManager.Update` | Assets/Scripts/CameraManager.cs:31-36 | the new angles are `CameraStep` of the old ones, and the pitch ends in [min, max] |
| `Player.GravityStep` | Assets/Scripts/PlayerController.cs:60-84 | grounded and descending: the velocity becomes -1 and gliding stops, whatever the glide state; gliding and descending otherwise: the velocity is at least maxGlideFallSpeed, is either that limit or the glide step's result, and never rises for a downward step from within the limit; otherwise: the velocity changes by exactly gravity * gravityMultiplier * dt; only the ground-stick case touches the glide flag |
| `Player.GravityScenarios` | Assets/Scripts/PlayerController.cs:63-79 | free fall from rest for 0.016 s under the declared tunables gives -0.47088; a grounded glider sinking at -0.5 is pinned at -1 and stops gliding |
| `Player.SustainedGlideStaysInBand` | Assets/Scripts/PlayerController.cs:70-75 | a glide descending within the limit stays gliding, never rises and never passes maxGlideFallSpeed over any number of airborne frames with downward glide steps |
| `Player.AscendingGlideStepPassesLimit` | Assets/Scripts/PlayerController.cs:70-79 | a glider still rising at 0.1 falls to -2.843 in one 0.1 s frame, below the -2 limit, because the clamp needs a negative velocity before the step |
| `Player.JumpStep` | Assets/Scripts/PlayerController.cs:131-139 | a press that is not `started` changes nothing; an airborne press at or over maxNumberOfJumps changes nothing; any other press adds exactly one jump and sets the velocity to jumpPower; an accepted airborne jump leaves the count at most maxNumberOfJumps; only the first jump of a run starts the landing wait; the pending-wait invariant is kept |
| `Player.LandingStep` | Assets/Scripts/PlayerController.cs:146-152 | the counter changes only in the second wait, on a grounded poll, and then to 0 with the wait ended; the first wait moves on only when not grounded; the velocity is never touched; the pending-wait invariant is kept |
| `Player.WaitLandResetsOnLanding` | Assets/Scripts/PlayerController.cs:149-151 | in the second wait the counter resets, and the wait ends, exactly when a grounded observation arrives |
| `Player.LandingResetsOnlyAfterLeavingAndLanding` | Assets/Scripts/PlayerController.cs:146-152 | from the first wait the counter resets exactly when the observations hold an airborne one followed later by a grounded one, so the grounded frame of the jump never resets it |
| `Player.BlendSpeed` | Assets/Scripts/PlayerController.cs:100-102 | the target (`TargetSpeed`) is the walk speed times the multiplier while sprinting and the walk speed otherwise; only the current speed changes, and the target does not move; with acceleration * dt >= 0 the speed moves by at most acceleration * dt, ends between its old value and the target, and gets no farther from the target; a target within reach is reached exactly; dt == 0 changes nothing |
| `Player.BlendRunApproaches` | Assets/Scripts/PlayerController.cs:100-102 | n frames of the blend are n `MoveTowards` steps towards the same target, and leave walk speed, multiplier, acceleration and the sprint flag unchanged |
| `Player.ApproachClosedForm` | Assets/Scripts/PlayerController.cs:102 | n equal non-negative steps from c end at c moved by the covered distance towards the target, or at the target once it is within that distance |
| `Player.BlendRunReachesTarget` | Assets/Scripts/PlayerController.cs:100-102 | after n equal frames the speed has moved n full steps towards the target, or has reached it exactly and stayed |
| `Player.BlendRunConverges` | Assets/Scripts/PlayerController.cs:102 | over repeated equal frames the distance to the target never grows |
| `Player.SprintFromRest` | Assets/Scripts/PlayerController.cs:100-102 | walk 5, multiplier 2, acceleration 10, 0.1 s frames, sprinting from rest: 1 after one frame, the sprint speed 10 after ten |
| `Player.MoveVector` | Assets/Scripts/PlayerController.cs:105-113 | the horizontal part is the flattened direction scaled by the current speed (`Scale`, the engine's `Vector3 * float`); the vertical part is the direction's own and is not scaled by speed; at zero speed only the vertical part remains; at unit speed the vector is the direction |
| `Player.PlayerController.constructor` | Assets/Scripts/PlayerController.cs:28-43 | the character starts at rest, not gliding, not sprinting, with no jumps and no landing wait |
| `Player.PlayerController.Move` | Assets/Scripts/PlayerController.cs:125-129 | the stored input becomes the value read, and the direction becomes it flattened onto the ground plane; the pending-wait invariant is kept |
| `Player.PlayerController.Glide` | Assets/Scripts/PlayerController.cs:119-123 | `started` turns gliding on, `canceled` turns it off, any other phase leaves it; the pending-wait invariant is kept |
| `Player.PlayerController.Sprint` | Assets/Scripts/PlayerController.cs:141-144 | sprinting becomes `started` or `performed`, and nothing else in the movement record changes; the pending-wait invariant is kept |
| `Player.PlayerController.Jump` | Assets/Scripts/PlayerController.cs:131-139 | the counter, velocity and landing wait change as `JumpStep` says, and the pending-wait invariant is kept |
| `Player.PlayerController.ApplyRotation` | Assets/Scripts/PlayerController.cs:87-95 | with zero input the direction is unchanged; otherwise it becomes the camera-relative heading |
| `Player.PlayerController.ApplyGravity` | Assets/Scripts/PlayerController.cs:60-84 | velocity and glide flag change as `GravityStep` says, and afterwards the direction's vertical part equals the velocity |
| `Player.PlayerController.ApplyMovement` | Assets/Scripts/PlayerController.cs:97-117 | the movement record changes as `BlendSpeed` says, and the displacement is the move vector for the new speed, scaled by dt (`Scale`, the `finalMoveVector * Time.deltaTime` of line 116) |
| `Player.PlayerController.Update` | Assets/Scripts/PlayerController.cs:53-58 | rotation, gravity and movement in that order; the displacement's vertical part is the new velocity times dt |
| `Player.PlayerController.PollLanding` | Assets/Scripts/PlayerController.cs:146-152 | the counter and the landing wait change as `LandingStep` says, and the pending-wait invariant is kept |
| `Player.PlayerController.Tick` | Assets/Scripts/PlayerController.cs:53-58 | one frame: `Update`, then one poll of the landing wait with the grounded state after the move; the invariant is kept |

## Left out

- The rotation itself in `ApplyRotation` (`Quaternion.Euler`, `LookRotation`, `RotateTowards`) is trigonometry over engine types. The camera-relative heading is a parameter, and the character's rotation is not modelled.
- `CameraManager.LateUpdate` (the camera pose) and the distance captured in `Awake` are trigonometric float computations over engine transforms.
- `CharacterController.Move` and `.isGrounded` are the engine's physics. Grounded states are parameters, and the displacement is returned instead of applied.
- `Awake`'s `GetComponent` and `Camera.main` are engine lookups.
- The Input System's `CallbackContext` and `ReadValue` become an `InputPhase` value and plain vector parameters.
- Coroutine scheduling is not modelled beyond one poll per frame after `Update`. This covers `StartCoroutine` and exactly when a `WaitUntil` is first evaluated. Discarding a pending wait when the character is destroyed is not modelled either.
- `rotationSpeed` and the `speed` field are never read by the modelled logic.
- IEEE float rounding, infinities and NaN are not modelled: quantities are exact reals.
- Overflow of the 32-bit `_numberOfJumps` counter is not modelled. The counter is an unbounded `nat`, although repeated grounded jumps increment it with no bound.
- `MovingPlatform.cs` and `PlatformCollision.cs` are engine plumbing outside this model.
- Player.GravityStep: the glide step is promised never to raise the velocity only when it starts at or above `maxGlideFallSpeed`. A faster fall is raised to the limit by the clamp, so the unconditional form does not hold.
- Player.JumpStep: the count bound `numberOfJumps <= maxNumberOfJumps` is stated only for accepted airborne jumps. A grounded jump is accepted whatever the count, so no global bound holds.
