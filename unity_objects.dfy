/**
 * Stand-ins for the engine components the three behaviours read and write.
 * Each keeps only the state the scripts touch; the engine itself (physics
 * integration, rendering, animation blending) is outside the model and may
 * change these fields between callbacks.
 */
module UnityObjects {
  import opened UnityMath

  /** A scene object's Transform, reduced to its world position. */
  class Transform {
    var position: Vec3

    constructor(position: Vec3)
      ensures this.position == position
    {
      this.position := position;
    }
  }

  /** A Rigidbody2D, reduced to the velocity the physics engine integrates. */
  class Rigidbody2D {
    var linearVelocity: Vec2

    constructor(linearVelocity: Vec2)
      ensures this.linearVelocity == linearVelocity
    {
      this.linearVelocity := linearVelocity;
    }
  }

  /** An Animator, reduced to the two boolean parameters the player sets by name. */
  class Animator {
    var isRunning: bool
    var isJumping: bool

    constructor()
      ensures !isRunning && !isJumping
    {
      isRunning, isJumping := false, false;
    }
  }

  /** A SpriteRenderer: its horizontal flip and the vertical half-extent of its bounds. */
  class SpriteRenderer {
    var flipX: bool
    const extentsY: real

    constructor(extentsY: real)
      ensures this.extentsY == extentsY && !flipX
    {
      this.extentsY := extentsY;
      flipX := false;
    }
  }
}
