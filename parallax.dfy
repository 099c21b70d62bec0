/**
 * A parallax background layer (ParallaxBackground). It records where it
 * starts once, and after every frame's movement places itself between the
 * camera and that start: on each axis, camera + (start - camera) * factor,
 * keeping its own depth. A factor of 0 locks the layer to the camera (it
 * looks infinitely far away); a factor of 1 pins it at its start in the
 * world (it looks as near as the foreground).
 */
module Parallax {
  import opened UnityMath
  import opened UnityObjects

  /** The layer's new position for a camera position, the recorded start and the two factors. */
  function LayerPosition(camera: Vec3, startX: real, startY: real,
                         factorX: real, factorY: real, z: real): (r: Vec3)
    ensures r.z == z
    ensures factorX == 0.0 ==> r.x == camera.x
    ensures factorX == 1.0 ==> r.x == startX
    ensures 0.0 <= factorX <= 1.0 ==> Between(camera.x, startX, r.x)
    ensures factorY == 0.0 ==> r.y == camera.y
    ensures factorY == 1.0 ==> r.y == startY
    ensures 0.0 <= factorY <= 1.0 ==> Between(camera.y, startY, r.y)
  {
    Vec3(Interpolate(camera.x, startX, factorX), Interpolate(camera.y, startY, factorY), z)
  }

  /**
   * Relative motion: when the camera moves, the layer moves by (1 - factor)
   * of the camera's displacement, so on screen it drifts back by factor of it.
   */
  lemma LayerFollowsCameraByComplement(c1: Vec3, c2: Vec3, startX: real, startY: real,
                                       factorX: real, factorY: real, z: real)
    ensures LayerPosition(c2, startX, startY, factorX, factorY, z).x
          - LayerPosition(c1, startX, startY, factorX, factorY, z).x == (c2.x - c1.x) * (1.0 - factorX)
    ensures LayerPosition(c2, startX, startY, factorX, factorY, z).y
          - LayerPosition(c1, startX, startY, factorX, factorY, z).y == (c2.y - c1.y) * (1.0 - factorY)
  {
  }

  class ParallaxBackground {
    const transform: Transform
    const parallaxEffectX: real
    const parallaxEffectY: real

    var startPositionX: real
    var startPositionY: real
    var cameraTransform: Transform?
    var enabled: bool
    /** The messages written to the error log. */
    var errors: seq<string>

    /** A fresh component: nothing recorded yet, no camera, enabled, no errors. */
    constructor(transform: Transform, parallaxEffectX: real, parallaxEffectY: real)
      ensures this.transform == transform
      ensures this.parallaxEffectX == parallaxEffectX && this.parallaxEffectY == parallaxEffectY
      ensures startPositionX == 0.0 && startPositionY == 0.0
      ensures cameraTransform == null && enabled && errors == []
    {
      this.transform := transform;
      this.parallaxEffectX := parallaxEffectX;
      this.parallaxEffectY := parallaxEffectY;
      startPositionX, startPositionY := 0.0, 0.0;
      cameraTransform := null;
      enabled := true;
      errors := [];
    }

    /**
     * Start: remember the main camera; without a sprite renderer, log an
     * error, disable the component and record nothing; otherwise record the
     * layer's current x and y as its start.
     */
    method Start(mainCamera: Transform, hasSpriteRenderer: bool, objectName: string)
      modifies this`cameraTransform, this`enabled, this`errors, this`startPositionX, this`startPositionY
      ensures cameraTransform == mainCamera
      ensures !hasSpriteRenderer ==>
                && !enabled
                && errors == old(errors) + ["No SpriteRenderer found on " + objectName + "!"]
                && startPositionX == old(startPositionX) && startPositionY == old(startPositionY)
      ensures hasSpriteRenderer ==>
                && enabled == old(enabled)
                && errors == old(errors)
                && startPositionX == transform.position.x && startPositionY == transform.position.y
    {
      cameraTransform := mainCamera;
      if !hasSpriteRenderer {
        errors := errors + ["No SpriteRenderer found on " + objectName + "!"];
        enabled := false;
        return;
      }
      startPositionX := transform.position.x;
      startPositionY := transform.position.y;
    }

    /**
     * LateUpdate: without a camera, nothing; otherwise move the layer to its
     * parallax position. Only the layer's position can change: the recorded
     * start stays as Start left it.
     */
    method LateUpdate()
      modifies transform`position
      ensures cameraTransform == null ==> transform.position == old(transform.position)
      ensures cameraTransform != null ==>
                transform.position == LayerPosition(old(cameraTransform.position), startPositionX, startPositionY,
                                                    parallaxEffectX, parallaxEffectY, old(transform.position.z))
    {
      if cameraTransform == null {
        return;
      }
      var parallaxX := (startPositionX - cameraTransform.position.x) * parallaxEffectX;
      var parallaxY := (startPositionY - cameraTransform.position.y) * parallaxEffectY;
      var newPosition := Vec3(cameraTransform.position.x + parallaxX,
                              cameraTransform.position.y + parallaxY,
                              transform.position.z);
      transform.position := newPosition;
    }
  }
}
