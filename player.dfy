/**
 * The player's motion state machine (PlayerBehaviour). The player starts in
 * an automatic run to the right and, once it reaches a target x, hands over
 * to player input for good. Every frame it recomputes whether it stands on
 * ground, chooses a horizontal input, may jump, and drives two animator
 * flags and the sprite's facing; a separate physics step writes the
 * horizontal velocity.
 *
 * The engine queries the script makes become parameters: the downward
 * raycast is a GroundProbe, the Move action's x reading is `move` and the
 * Jump action's IsPressed reading is `jumpPressed`.
 */
module Player {
  import opened UnityMath
  import opened UnityObjects

  /** The inspector-tunable settings of the player. */
  datatype Config = Config(moveSpeed: real, jumpForce: real, startX: real, targetX: real)

  /** The values the script declares for its settings. */
  const DefaultConfig := Config(5.0, 7.0, -10.0, -7.0)

  /** How far the ground probe reaches below the sprite's half height. */
  const ProbeMargin: real := 0.1

  /**
   * What lies straight below the player on the ground layer: nothing, or a
   * collider at the given (non-negative) distance from the player's position.
   */
  datatype GroundProbe = NoGroundBelow | GroundBelow(distance: real)

  /** The length of the downward ray cast by the grounded check. */
  function ProbeLength(halfHeight: real): real {
    halfHeight + ProbeMargin
  }

  /** The ray of the given length hits ground. */
  predicate Grounded(halfHeight: real, probe: GroundProbe) {
    probe.GroundBelow? && probe.distance <= ProbeLength(halfHeight)
  }

  /**
   * The part of the scene the script drives: the body's velocity, the
   * script's own fields, the two animator flags and the sprite's facing.
   */
  datatype Motion = Motion(
    velocity: Vec2,
    moveInput: real,
    isGrounded: bool,
    isInitialRunComplete: bool,
    isRunning: bool,
    isJumping: bool,
    flipX: bool)

  /** The animator side of the grounded check: touching ground ends a jump. */
  function GroundCheckStep(m: Motion, grounded: bool): (r: Motion)
    ensures grounded ==> !r.isJumping
    ensures !grounded ==> r.isJumping == m.isJumping
    ensures r == m.(isJumping := r.isJumping)
  {
    if grounded then m.(isJumping := false) else m
  }

  /**
   * Run: the running flag is on exactly when there is input and ground
   * underfoot; a non-zero input turns the sprite to face its direction, and
   * a zero input keeps the facing it had.
   */
  function RunStep(m: Motion, direction: real): (r: Motion)
    ensures r.isRunning <==> direction != 0.0 && m.isGrounded
    ensures direction < 0.0 ==> r.flipX
    ensures direction > 0.0 ==> !r.flipX
    ensures direction == 0.0 ==> r.flipX == m.flipX
    ensures r == m.(isRunning := r.isRunning, flipX := r.flipX)
  {
    var m' := m.(isRunning := direction != 0.0 && m.isGrounded);
    if direction != 0.0 then m'.(flipX := direction < 0.0) else m'
  }

  /** Jump: vertical velocity becomes the jump force, horizontal velocity is kept. */
  function JumpStep(m: Motion, jumpForce: real): (r: Motion)
    ensures r.velocity.x == m.velocity.x && r.velocity.y == jumpForce
    ensures r.isJumping
    ensures r == m.(velocity := r.velocity, isJumping := true)
  {
    m.(velocity := Vec2(m.velocity.x, jumpForce), isJumping := true)
  }

  /**
   * HandleInitialRun: short of the target the player is driven right with
   * input 1 and stays in the automatic mode; at or past the target the input
   * is 0 and the automatic mode ends. Run is applied to the chosen input.
   */
  function InitialRunStep(m: Motion, x: real, targetX: real): (r: Motion)
    ensures x < targetX ==> r.moveInput == 1.0 && r.isInitialRunComplete == m.isInitialRunComplete
    ensures x >= targetX ==> r.moveInput == 0.0 && r.isInitialRunComplete
    ensures r == RunStep(m.(moveInput := r.moveInput, isInitialRunComplete := r.isInitialRunComplete), r.moveInput)
  {
    if x < targetX then
      RunStep(m.(moveInput := 1.0), 1.0)
    else
      RunStep(m.(moveInput := 0.0), 0.0).(isInitialRunComplete := true)
  }

  /** A jump fires in this frame: player control, the jump input held and ground under the player now. */
  predicate JumpFires(m: Motion, halfHeight: real, probe: GroundProbe, jumpPressed: bool) {
    m.isInitialRunComplete && jumpPressed && Grounded(halfHeight, probe)
  }

  /**
   * Update: the grounded check first, then the automatic run or the player's
   * run and jump. The contract gives every field of the new state. Notably,
   * inputs are read only under player control, a jump needs this frame's
   * grounded result, the horizontal velocity is never written, and a jump
   * leaves the jumping flag on although the grounded check cleared it.
   */
  function UpdateStep(m: Motion, config: Config, halfHeight: real, x: real,
                      probe: GroundProbe, move: real, jumpPressed: bool): (r: Motion)
    ensures r.isGrounded == Grounded(halfHeight, probe)
    ensures m.isInitialRunComplete ==> r.isInitialRunComplete && r.moveInput == move
    ensures !m.isInitialRunComplete ==>
              r.moveInput == (if x < config.targetX then 1.0 else 0.0) &&
              r.isInitialRunComplete == (x >= config.targetX)
    ensures r.velocity == if JumpFires(m, halfHeight, probe, jumpPressed)
                          then Vec2(m.velocity.x, config.jumpForce) else m.velocity
    ensures r.isJumping == if r.isGrounded then JumpFires(m, halfHeight, probe, jumpPressed) else m.isJumping
    ensures r.isRunning <==> r.moveInput != 0.0 && r.isGrounded
    ensures r.moveInput != 0.0 ==> r.flipX == (r.moveInput < 0.0)
    ensures r.moveInput == 0.0 ==> r.flipX == m.flipX
  {
    var grounded := Grounded(halfHeight, probe);
    var m1 := GroundCheckStep(m, grounded).(isGrounded := grounded);
    if !m1.isInitialRunComplete then
      InitialRunStep(m1, x, config.targetX)
    else
      var m2 := RunStep(m1.(moveInput := move), move);
      if jumpPressed && m2.isGrounded then JumpStep(m2, config.jumpForce) else m2
  }

  /** FixedUpdate: horizontal velocity becomes input times speed, vertical velocity is kept. */
  function FixedUpdateStep(m: Motion, moveSpeed: real): (r: Motion)
    ensures r.velocity.x == m.moveInput * moveSpeed && r.velocity.y == m.velocity.y
    ensures r == m.(velocity := r.velocity)
  {
    m.(velocity := Vec2(m.moveInput * moveSpeed, m.velocity.y))
  }

  /** During the automatic run a frame's outcome does not depend on the move or jump input. */
  lemma AutoRunIgnoresInput(m: Motion, config: Config, halfHeight: real, x: real, probe: GroundProbe,
                            move1: real, jump1: bool, move2: real, jump2: bool)
    requires !m.isInitialRunComplete
    ensures UpdateStep(m, config, halfHeight, x, probe, move1, jump1)
         == UpdateStep(m, config, halfHeight, x, probe, move2, jump2)
  {
  }

  /**
   * With the declared settings, Start leaves the player short of the target,
   * so the first frame drives it right whatever the ground and the inputs,
   * and the physics step that follows moves it at the declared speed.
   */
  lemma DefaultFirstFrameRunsRight(m: Motion, halfHeight: real, probe: GroundProbe, move: real, jumpPressed: bool)
    requires !m.isInitialRunComplete
    ensures var r := UpdateStep(m, DefaultConfig, halfHeight, DefaultConfig.startX, probe, move, jumpPressed);
            && r.moveInput == 1.0 && !r.isInitialRunComplete && !r.flipX
            && r.velocity == m.velocity
            && FixedUpdateStep(r, DefaultConfig.moveSpeed).velocity == Vec2(5.0, m.velocity.y)
  {
  }

  /** One engine callback with the values the engine supplies to it. */
  datatype Callback =
    | UpdateCall(x: real, probe: GroundProbe, move: real, jumpPressed: bool)
    | FixedUpdateCall

  function Step(m: Motion, config: Config, halfHeight: real, c: Callback): Motion {
    match c
    case UpdateCall(x, probe, move, jumpPressed) => UpdateStep(m, config, halfHeight, x, probe, move, jumpPressed)
    case FixedUpdateCall => FixedUpdateStep(m, config.moveSpeed)
  }

  /**
   * The state after the engine makes the given callbacks in order, in any
   * interleaving of frames and physics steps. The automatic-run flag never
   * goes back to false.
   */
  function Simulate(m: Motion, config: Config, halfHeight: real, cs: seq<Callback>): (r: Motion)
    ensures m.isInitialRunComplete ==> r.isInitialRunComplete
    decreases |cs|
  {
    if cs == [] then m else Simulate(Step(m, config, halfHeight, cs[0]), config, halfHeight, cs[1..])
  }

  /** Running two callback sequences one after the other is running their concatenation. */
  lemma {:induction false} SimulateAppend(m: Motion, config: Config, halfHeight: real, a: seq<Callback>, b: seq<Callback>)
    ensures Simulate(m, config, halfHeight, a + b) == Simulate(Simulate(m, config, halfHeight, a), config, halfHeight, b)
    decreases |a|
  {
    if a == [] {
      assert a + b == b;
    } else {
      assert (a + b)[1..] == a[1..] + b;
      SimulateAppend(Step(m, config, halfHeight, a[0]), config, halfHeight, a[1..], b);
    }
  }

  /** The mode flag is monotone along any run: once player control starts, it stays. */
  lemma ModeIsOneWay(m: Motion, config: Config, halfHeight: real, cs: seq<Callback>, i: nat, j: nat)
    requires i <= j <= |cs|
    ensures Simulate(m, config, halfHeight, cs[..i]).isInitialRunComplete
            ==> Simulate(m, config, halfHeight, cs[..j]).isInitialRunComplete
  {
    assert cs[..j] == cs[..i] + cs[i..j];
    SimulateAppend(m, config, halfHeight, cs[..i], cs[i..j]);
  }

  /** A frame that observes the player at or past the target ends the automatic run for good. */
  lemma ReachingTargetEndsAutoRun(m: Motion, config: Config, halfHeight: real, cs: seq<Callback>, i: nat)
    requires i < |cs| && cs[i].UpdateCall? && cs[i].x >= config.targetX
    ensures Simulate(m, config, halfHeight, cs).isInitialRunComplete
  {
    assert cs == cs[..i] + [cs[i]] + cs[i + 1..];
    SimulateAppend(m, config, halfHeight, cs[..i] + [cs[i]], cs[i + 1..]);
    SimulateAppend(m, config, halfHeight, cs[..i], [cs[i]]);
  }

  /** The two callbacks are the same but for what the Move and Jump actions read. */
  predicate SameButInput(c: Callback, d: Callback) {
    match c
    case FixedUpdateCall => d.FixedUpdateCall?
    case UpdateCall(x, probe, _, _) => d.UpdateCall? && d.x == x && d.probe == probe
  }

  /**
   * As long as the automatic run lasts, the inputs are never read: two runs
   * that differ only in what the Move and Jump actions would report end in
   * the same state.
   */
  lemma {:induction false} AutoRunNeverReadsInput(m: Motion, config: Config, halfHeight: real,
                                                  cs: seq<Callback>, ds: seq<Callback>)
    requires |cs| == |ds|
    requires forall k :: 0 <= k < |cs| ==> SameButInput(cs[k], ds[k])
    requires !Simulate(m, config, halfHeight, cs).isInitialRunComplete
    ensures Simulate(m, config, halfHeight, cs) == Simulate(m, config, halfHeight, ds)
    decreases |cs|
  {
    if cs != [] {
      assert SameButInput(cs[0], ds[0]);
      var m' := Step(m, config, halfHeight, cs[0]);
      assert m' == Step(m, config, halfHeight, ds[0]);
      assert forall k :: 0 <= k < |cs[1..]| ==> SameButInput(cs[1..][k], ds[1..][k]) by {
        forall k | 0 <= k < |cs[1..]| ensures SameButInput(cs[1..][k], ds[1..][k]) {
          assert SameButInput(cs[k + 1], ds[k + 1]);
        }
      }
      AutoRunNeverReadsInput(m', config, halfHeight, cs[1..], ds[1..]);
    }
  }

  /**
   * No jump during the automatic run: as long as it lasts, the script never
   * writes the vertical velocity and never turns the jumping flag on.
   */
  lemma {:induction false} AutoRunNeverJumps(m: Motion, config: Config, halfHeight: real, cs: seq<Callback>)
    requires !Simulate(m, config, halfHeight, cs).isInitialRunComplete
    ensures Simulate(m, config, halfHeight, cs).velocity.y == m.velocity.y
    ensures Simulate(m, config, halfHeight, cs).isJumping ==> m.isJumping
    decreases |cs|
  {
    if cs != [] {
      AutoRunNeverJumps(Step(m, config, halfHeight, cs[0]), config, halfHeight, cs[1..]);
    }
  }

  /**
   * The behaviour itself. The component references are fixed when the
   * scene is built; the script's own fields and the components' fields are
   * what its callbacks update.
   */
  class PlayerBehaviour {
    const transform: Transform
    const rb: Rigidbody2D
    const spriteRenderer: SpriteRenderer
    const animator: Animator
    const config: Config

    var playerHalfHeight: real
    var moveInput: real
    var isInitialRunComplete: bool
    var isGrounded: bool

    /** The driven state as one value. */
    function State(): Motion
      reads this, rb, animator, spriteRenderer
    {
      Motion(rb.linearVelocity, moveInput, isGrounded, isInitialRunComplete,
             animator.isRunning, animator.isJumping, spriteRenderer.flipX)
    }

    constructor(transform: Transform, rb: Rigidbody2D, spriteRenderer: SpriteRenderer,
                animator: Animator, config: Config)
      ensures this.transform == transform && this.rb == rb
      ensures this.spriteRenderer == spriteRenderer && this.animator == animator
      ensures this.config == config
      ensures playerHalfHeight == 0.0 && moveInput == 0.0
      ensures !isInitialRunComplete && !isGrounded
    {
      this.transform := transform;
      this.rb := rb;
      this.spriteRenderer := spriteRenderer;
      this.animator := animator;
      this.config := config;
      playerHalfHeight := 0.0;
      moveInput := 0.0;
      isInitialRunComplete := false;
      isGrounded := false;
    }

    /** Start: take the half height from the sprite's bounds and put the player at the start x. */
    method Start()
      modifies this`playerHalfHeight, transform`position
      ensures playerHalfHeight == spriteRenderer.extentsY
      ensures transform.position.x == config.startX
      ensures transform.position.y == old(transform.position.y)
      ensures transform.position.z == old(transform.position.z)
    {
      playerHalfHeight := spriteRenderer.extentsY;
      var startPosition := transform.position;
      startPosition := startPosition.(x := config.startX);
      transform.position := startPosition;
    }

    /** IsGroundedCheck: cast the probe down; on ground, clear the jumping flag. */
    method IsGroundedCheck(probe: GroundProbe) returns (grounded: bool)
      modifies animator`isJumping
      ensures grounded == Grounded(playerHalfHeight, probe)
      ensures State() == GroundCheckStep(old(State()), grounded)
    {
      grounded := probe.GroundBelow? && probe.distance <= playerHalfHeight + ProbeMargin;
      if grounded {
        animator.isJumping := false;
      }
    }

    method Run(direction: real)
      modifies animator`isRunning, spriteRenderer`flipX
      ensures State() == RunStep(old(State()), direction)
    {
      animator.isRunning := direction != 0.0 && isGrounded;
      if direction != 0.0 {
        spriteRenderer.flipX := direction < 0.0;
      }
    }

    method Jump()
      modifies rb`linearVelocity, animator`isJumping
      ensures State() == JumpStep(old(State()), config.jumpForce)
    {
      rb.linearVelocity := Vec2(rb.linearVelocity.x, config.jumpForce);
      animator.isJumping := true;
    }

    method HandleInitialRun()
      modifies this`moveInput, this`isInitialRunComplete, animator`isRunning, spriteRenderer`flipX
      ensures State() == InitialRunStep(old(State()), transform.position.x, config.targetX)
    {
      if transform.position.x < config.targetX {
        moveInput := 1.0;
        Run(moveInput);
      } else {
        moveInput := 0.0;
        Run(moveInput);
        isInitialRunComplete := true;
      }
    }

    /** Update: one frame, with the raycast's view of the ground and the two input readings. */
    method Update(probe: GroundProbe, move: real, jumpPressed: bool)
      modifies this`isGrounded, this`moveInput, this`isInitialRunComplete
      modifies rb`linearVelocity, animator`isRunning, animator`isJumping, spriteRenderer`flipX
      ensures State() == UpdateStep(old(State()), config, playerHalfHeight, transform.position.x,
                                    probe, move, jumpPressed)
    {
      isGrounded := IsGroundedCheck(probe);
      if !isInitialRunComplete {
        HandleInitialRun();
      } else {
        moveInput := move;
        Run(moveInput);
        if jumpPressed && isGrounded {
          Jump();
        }
      }
    }

    /** FixedUpdate: overwrite the horizontal velocity from the current input. */
    method FixedUpdate()
      modifies rb`linearVelocity
      ensures State() == FixedUpdateStep(old(State()), config.moveSpeed)
    {
      var targetVelocityX := moveInput * config.moveSpeed;
      rb.linearVelocity := Vec2(targetVelocityX, rb.linearVelocity.y);
    }
  }
}
