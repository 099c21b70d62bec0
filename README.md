# platformer2d behaviours in Dafny

This project models the three per-frame scripts of a 2D side-scrolling
platformer and proves properties of them:

- **PlayerBehaviour** (`player.dfy`, module `Player`): the player's motion
  state machine. It starts in an automatic run to the right. Once the player
  stands at or past a target x, it hands over to player input, and it never
  goes back. Every frame it recomputes the grounded flag with a downward probe
  of length half height + 0.1. It then picks a horizontal input: 1 or 0 during
  the automatic run, the Move action's reading afterwards. It jumps only on
  ground, sets the `isRunning` and `isJumping` animator flags, and turns the
  sprite by the sign of the input. A separate physics step overwrites the
  horizontal velocity and keeps the vertical one.
- **ParallaxBackground** (`parallax.dfy`, module `Parallax`): a background
  layer. It records its start once. In each late update it moves to
  `camera + (start - camera) * factor` on x and y and keeps its z.
- **CameraFollow** (`camera_follow.dfy`, module `Follow`): the camera. It aims
  at the target's position plus an offset and moves towards it with
  `Vector3.Lerp`. Then it clamps x and y to a rectangle and leaves z unclamped.

`unity_math.dfy` (module `UnityMath`) holds the vector values. It also holds
the engine's `Vector3.Lerp`, `Mathf.Clamp01` and `Mathf.Clamp`, written as the
engine documents them. `unity_objects.dfy` (module `UnityObjects`) holds small
classes for the engine components the scripts touch: Transform, Rigidbody2D,
Animator and SpriteRenderer. Each behaviour is a class. It holds constant
references to its components. Its callbacks are methods with `modifies`
clauses that name exactly the fields they write. Update, FixedUpdate,
LateUpdate and the player's helper methods are each proved equal to a pure
function of the previous state, and the lemmas state what those functions
promise. The three Start methods state their effect directly.

Positions and velocities are exact `real`s, not IEEE floats. So a parallax
factor of exactly 1 gives exactly the recorded start, which floats do not
guarantee.

Engine inputs become parameters:

- The ground raycast becomes a `GroundProbe`: either no ground-layer collider
  below, or one at a given distance. The player is grounded exactly when that
  distance is at most the probe length.
- The Move action's x reading becomes `move`.
- The Jump action's `IsPressed` reading becomes `jumpPressed`.
- `Time.deltaTime` becomes `deltaTime`.
- `Camera.main.transform` becomes `mainCamera`.
- The object found by the "Player" tag becomes `taggedPlayer`. It may be
  null.
- The presence of a SpriteRenderer on the parallax layer becomes
  `hasSpriteRenderer`.

`Player.Simulate` runs any sequence of engine callbacks. It allows every
interleaving of frames and physics steps. Its contract states that the mode is
one-way. The lemmas `AutoRunNeverReadsInput` and `AutoRunNeverJumps` state the
other properties of whole runs: during the automatic run no input is read and
no jump happens.

The parallax boundary cases (ParallaxBackground.cs lines 44-50):
A factor of 0 locks the layer to the camera, so the layer moves with the
camera. A factor of 1 pins the layer at its recorded start in the world.

## Model

| member | source | states |
|---|---|---|
| UnityMath.Clamp01 | Assets/Code/CameraFollow.cs:39 | The Lerp parameter ends up in [0, 1]. It is unchanged inside that interval, 0 below it and 1 above it. |
| UnityMath.Clamp | Assets/Code/CameraFollow.cs:42-43 | For min <= max the result lies in [min, max]. A value already inside is unchanged. A value below min gives min; otherwise a value above max gives max, also when the interval is empty. The result is always the value, min or max. |
| UnityMath.ClampIdempotent | Assets/Code/CameraFollow.cs:42-43 | Clamping an already clamped value changes nothing. |
| UnityMath.Interpolate | Assets/Code/ParallaxBackground.cs:44-50 | from + (to - from) * t is `from` at t = 0 and `to` at t = 1. For t in [0, 1] it lies between the two. The remaining distance to `to` is the fraction (1 - t) of the whole distance. |
| UnityMath.Lerp | Assets/Code/CameraFollow.cs:39 | Vector3.Lerp with t clamped. It gives a for t <= 0 and b for t >= 1. Every component lies between a's and b's. Each component is the interpolation at clamp01(t). |
| UnityMath.InterpolateApproaches | Assets/Code/CameraFollow.cs:39 | For 0 <= t1 <= t2 <= 1, the point at t2 is no farther from the goal than the point at t1. |
| UnityMath.LerpApproaches | Assets/Code/CameraFollow.cs:39 | On every axis, a larger t leaves Lerp's result no farther from b. |
| Player.GroundCheckStep | Assets/Code/PlayerBehaviour.cs:129-140 | On ground the jumping flag is cleared. Off ground it is kept. Nothing else changes. |
| Player.RunStep | Assets/Code/PlayerBehaviour.cs:108-118 | isRunning is true iff direction != 0 and grounded. Facing is flipped for direction < 0 and unflipped for > 0. Facing is kept for 0. Nothing else changes. |
| Player.JumpStep | Assets/Code/PlayerBehaviour.cs:120-127 | Vertical velocity becomes jumpForce and horizontal velocity is kept. isJumping becomes true. Nothing else changes. |
| Player.InitialRunStep | Assets/Code/PlayerBehaviour.cs:86-99 | For x < targetX the input is 1 and the mode flag is kept. For x >= targetX the input is 0 and the automatic run is over. Run is applied to the chosen input. |
| Player.UpdateStep | Assets/Code/PlayerBehaviour.cs:61-84 | Gives every field after one frame. isGrounded is this frame's probe result. The move input is read only under player control and is 1/0 during the automatic run. The velocity changes only when a jump fires. A jump fires only with player control, jump held and ground in this frame's probe. The jumping flag is set after the ground check cleared it. Also the running and facing rules. |
| Player.FixedUpdateStep | Assets/Code/PlayerBehaviour.cs:101-106 | Horizontal velocity becomes moveInput * moveSpeed. Vertical velocity is kept. Nothing else changes. |
| Player.AutoRunIgnoresInput | Assets/Code/PlayerBehaviour.cs:65-81 | During the automatic run a frame's outcome does not depend on the move or jump reading. |
| Player.Simulate | Assets/Code/PlayerBehaviour.cs:29-99 | Over any sequence of Update and FixedUpdate calls, a completed initial run stays completed. |
| Player.ModeIsOneWay | Assets/Code/PlayerBehaviour.cs:65-99 | For any prefixes i <= j of a run: if the automatic run has ended after i callbacks, it has also ended after j. |
| Player.ReachingTargetEndsAutoRun | Assets/Code/PlayerBehaviour.cs:86-99 | If any frame sees the player at x >= targetX, the run ends under player control. |
| Player.AutoRunNeverReadsInput | Assets/Code/PlayerBehaviour.cs:65-81 | Take two runs that differ only in the Move/Jump readings. If the automatic run has not ended, they end in the same state. |
| Player.DefaultFirstFrameRunsRight | Assets/Code/PlayerBehaviour.cs:16-29 | With the declared settings (speed 5, jump force 7, start x -10, target x -7), a player that Start placed at the start x is short of the target. So its first frame, on any ground and input, drives it right with input 1 and faces it right, stays in the automatic run, and the next physics step sets horizontal velocity 5 while keeping the vertical one. |
| Player.AutoRunNeverJumps | Assets/Code/PlayerBehaviour.cs:65-99 | While the automatic run lasts, vertical velocity is never written. The jumping flag is never turned on. |
| Player.PlayerBehaviour.constructor | Assets/Code/PlayerBehaviour.cs:16-31 | A new player is in the automatic run, with input 0 and not grounded. |
| Player.PlayerBehaviour.Start | Assets/Code/PlayerBehaviour.cs:47-59 | The half height comes from the sprite bounds. x becomes startX. y and z are unchanged. Only those two fields may be written. |
| Player.PlayerBehaviour.IsGroundedCheck | Assets/Code/PlayerBehaviour.cs:129-140 | Returns whether ground lies within half height + 0.1 below. On ground it clears the jumping flag. It writes only that flag. |
| Player.PlayerBehaviour.Run | Assets/Code/PlayerBehaviour.cs:108-118 | The new state is RunStep of the old. Only isRunning and flipX may be written. |
| Player.PlayerBehaviour.Jump | Assets/Code/PlayerBehaviour.cs:120-127 | The new state is JumpStep of the old. Only the velocity and isJumping may be written. |
| Player.PlayerBehaviour.HandleInitialRun | Assets/Code/PlayerBehaviour.cs:86-99 | The new state is InitialRunStep of the old, for the transform's x and targetX. |
| Player.PlayerBehaviour.Update | Assets/Code/PlayerBehaviour.cs:61-84 | The new state is UpdateStep of the old, with this frame's probe and inputs. It never writes the transform or the settings. |
| Player.PlayerBehaviour.FixedUpdate | Assets/Code/PlayerBehaviour.cs:101-106 | The new state is FixedUpdateStep of the old. Only the body's velocity may be written. |
| Parallax.LayerPosition | Assets/Code/ParallaxBackground.cs:44-52 | z is kept. Factor 0 puts the layer on the camera's x (or y). Factor 1 puts it on the recorded start. Factors in [0, 1] put it between camera and start. |
| Parallax.LayerFollowsCameraByComplement | Assets/Code/ParallaxBackground.cs:44-50 | Between two camera positions the layer moves by (1 - factor) times the camera's displacement on each axis. |
| Parallax.ParallaxBackground.constructor | Assets/Code/ParallaxBackground.cs:5-16 | A new layer has no camera, is enabled and has recorded nothing. |
| Parallax.ParallaxBackground.Start | Assets/Code/ParallaxBackground.cs:18-37 | Remembers the main camera. Without a sprite renderer it logs the error, disables itself and records no start. Otherwise it records the current x and y. |
| Parallax.ParallaxBackground.LateUpdate | Assets/Code/ParallaxBackground.cs:39-56 | With no camera the position is unchanged. Otherwise the layer moves to LayerPosition with its old z. Only the layer's position may be written, so the recorded start never changes here. |
| Follow.DesiredPosition | Assets/Code/CameraFollow.cs:36 | The desired position is exactly the target's position displaced by the offset. |
| Follow.ClampToBounds | Assets/Code/CameraFollow.cs:42-43 | For a non-empty rectangle, x and y end up inside it. z is untouched. A position already inside is unchanged. |
| Follow.ClampToBoundsIdempotent | Assets/Code/CameraFollow.cs:42-43 | Clamping a clamped position again changes nothing. |
| Follow.FollowPosition | Assets/Code/CameraFollow.cs:36-46 | For any target position, x and y stay in [min, max] when min <= max. z is the interpolated z with no clamp. z lies between the old z and the desired z. |
| Follow.SmoothedOnSegment | Assets/Code/CameraFollow.cs:39 | Before clamping, the position lies on the segment from the current to the desired position, at fraction clamp01(smoothSpeed * dt). It equals the desired position when smoothSpeed * dt >= 1. It equals the current one when smoothSpeed * dt <= 0. |
| Follow.LongerFrameGetsCloser | Assets/Code/CameraFollow.cs:39 | With smoothSpeed >= 0, a longer frame leaves the smoothed position no farther from the desired one on any axis. |
| Follow.FullStepReachesDesired | Assets/Code/CameraFollow.cs:36-43 | When smoothSpeed * dt >= 1, the camera lands on the clamped desired position. It lands exactly on the desired position when that is inside the bounds. |
| Follow.RestingCameraStays | Assets/Code/CameraFollow.cs:36-46 | A camera already at its desired position inside the bounds does not move. |
| Follow.DefaultBoundsHoldCamera | Assets/Code/CameraFollow.cs:7-12 | With the declared settings (offset (0, 2, -10), smooth speed 5, bounds (-10, -5) to (10, 5)), the camera after any late update has x in [-10, 10] and y in [-5, 5], wherever the target is. |
| Follow.CameraFollow.constructor | Assets/Code/CameraFollow.cs:5-12 | Holds the assigned target (possibly none) and the settings. Nothing is logged yet. |
| Follow.CameraFollow.Start | Assets/Code/CameraFollow.cs:14-29 | An assigned target is kept. Otherwise the tagged player becomes the target if one exists. If none exists, the target stays null and the error is logged. |
| Follow.CameraFollow.LateUpdate | Assets/Code/CameraFollow.cs:31-47 | With no target the camera does not move. Otherwise it moves to FollowPosition of its old position and the target's old position. Only the camera's position may be written. |

## Left out

- Input System plumbing (`OnEnable`, `OnDisable`, `FindAction`, `ReadValue`, `IsPressed`, PlayerBehaviour.cs lines 33-45): replaced by the `move` and `jumpPressed` parameters. The source guards only the `Enable` calls with `?.` (lines 37-38); lines 73 and 77 read both actions unguarded, so the model assumes both actions exist.
- `Physics2D.Raycast` and the ground layer mask: replaced by `GroundProbe`, the distance to the nearest ground-layer collider straight below.
- Physics integration: the engine moves the transform and changes the body's velocity (gravity, collisions) between callbacks. This is engine work, so a trace supplies the x each frame sees. For that reason the model does not prove that the automatic run eventually reaches the target. It proves that the run ends once a frame sees the target reached. Nor does a trace carry the engine's changes to the body's velocity, so `Player.AutoRunNeverJumps` says that the script never writes the vertical velocity during the automatic run, not that the body's vertical velocity stays constant.
- Engine scheduling: how many FixedUpdate calls run per frame, and the order between scripts. `Player.Simulate` accepts any interleaving instead. The engine does not call LateUpdate on a disabled component; the methods do not check `enabled` themselves.
- Missing SpriteRenderer or Animator on the player: the source logs an error and then dereferences the null reference (PlayerBehaviour.cs lines 50-53). The model assumes both components are assigned. A missing Rigidbody2D is treated the same way.
- A missing main camera in the parallax layer's Start (an unguarded null dereference at ParallaxBackground.cs line 20): `mainCamera` is a non-null parameter.
- Debug drawing and gizmos (`Debug.DrawRay`, `Debug.DrawLine`, `OnDrawGizmos`), the sorting-layer assignment and the `lengthX` bounds query (ParallaxBackground.cs lines 33, 36, 57-88): these have no effect on positions or flags.
- Tag lookup, `Camera.main` and `GetComponent`: only their null or non-null outcome is kept, as parameters.
- IEEE single-precision arithmetic: all coordinates are exact reals.
