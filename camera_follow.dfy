/**
 * The camera's follow behaviour (CameraFollow). After every frame's movement
 * the camera aims at its target's position plus an offset, moves part of
 * the way there by linear interpolation, and keeps its x and y inside a
 * rectangle; its z is not bounded.
 */
module Follow {
  import opened UnityMath
  import opened UnityObjects

  /** The inspector-tunable settings of the camera. */
  datatype FollowSettings = FollowSettings(offset: Vec3, smoothSpeed: real,
                                           minPosition: Vec2, maxPosition: Vec2)

  /** The values the script declares for its settings. */
  const DefaultSettings := FollowSettings(Vec3(0.0, 2.0, -10.0), 5.0, Vec2(-10.0, -5.0), Vec2(10.0, 5.0))

  const MissingTargetError := "CameraFollow: No target assigned and no Player tag found!"

  /** Where the camera aims: the target's position displaced by the offset. */
  function DesiredPosition(targetPosition: Vec3, offset: Vec3): (r: Vec3)
    ensures r.x - targetPosition.x == offset.x
    ensures r.y - targetPosition.y == offset.y
    ensures r.z - targetPosition.z == offset.z
  {
    Add(targetPosition, offset)
  }

  /** x and y clamped to the rectangle, z as it is. */
  function ClampToBounds(p: Vec3, min: Vec2, max: Vec2): (r: Vec3)
    ensures min.x <= max.x ==> min.x <= r.x <= max.x
    ensures min.y <= max.y ==> min.y <= r.y <= max.y
    ensures r.z == p.z
    ensures min.x <= p.x <= max.x && min.y <= p.y <= max.y ==> r == p
  {
    Vec3(Clamp(p.x, min.x, max.x), Clamp(p.y, min.y, max.y), p.z)
  }

  /** Clamping an already clamped position changes nothing. */
  lemma ClampToBoundsIdempotent(p: Vec3, min: Vec2, max: Vec2)
    requires min.x <= max.x && min.y <= max.y
    ensures ClampToBounds(ClampToBounds(p, min, max), min, max) == ClampToBounds(p, min, max)
  {
  }

  /**
   * The camera's position after one late update: part of the way towards
   * the desired position, then x and y clamped. Whatever the target does,
   * x and y stay inside a non-empty rectangle; z is the interpolated z,
   * between the old z and the desired z.
   */
  function FollowPosition(current: Vec3, targetPosition: Vec3, s: FollowSettings, deltaTime: real): (r: Vec3)
    ensures s.minPosition.x <= s.maxPosition.x ==> s.minPosition.x <= r.x <= s.maxPosition.x
    ensures s.minPosition.y <= s.maxPosition.y ==> s.minPosition.y <= r.y <= s.maxPosition.y
    ensures r.z == Lerp(current, DesiredPosition(targetPosition, s.offset), s.smoothSpeed * deltaTime).z
    ensures Between(current.z, targetPosition.z + s.offset.z, r.z)
  {
    var smoothed := Lerp(current, DesiredPosition(targetPosition, s.offset), s.smoothSpeed * deltaTime);
    ClampToBounds(smoothed, s.minPosition, s.maxPosition)
  }

  /**
   * Before clamping, the camera lies on the segment from where it was to
   * where it aims, at the fraction clamp01(smoothSpeed * deltaTime) of the
   * way; it reaches the desired position when that product is at least 1
   * and stays put when it is at most 0.
   */
  lemma SmoothedOnSegment(current: Vec3, desired: Vec3, smoothSpeed: real, deltaTime: real)
    ensures var p := Lerp(current, desired, smoothSpeed * deltaTime);
            var t := Clamp01(smoothSpeed * deltaTime);
            && Between(current.x, desired.x, p.x) && Between(current.y, desired.y, p.y)
            && Between(current.z, desired.z, p.z)
            && desired.x - p.x == (desired.x - current.x) * (1.0 - t)
            && desired.y - p.y == (desired.y - current.y) * (1.0 - t)
            && desired.z - p.z == (desired.z - current.z) * (1.0 - t)
            && (smoothSpeed * deltaTime >= 1.0 ==> p == desired)
            && (smoothSpeed * deltaTime <= 0.0 ==> p == current)
  {
  }

  /** A longer frame (or a faster smoothing) never leaves the smoothed camera farther from where it aims. */
  lemma LongerFrameGetsCloser(current: Vec3, desired: Vec3, smoothSpeed: real, dt1: real, dt2: real)
    requires smoothSpeed >= 0.0 && dt1 <= dt2
    ensures var p1, p2 := Lerp(current, desired, smoothSpeed * dt1), Lerp(current, desired, smoothSpeed * dt2);
            && Abs(desired.x - p2.x) <= Abs(desired.x - p1.x)
            && Abs(desired.y - p2.y) <= Abs(desired.y - p1.y)
            && Abs(desired.z - p2.z) <= Abs(desired.z - p1.z)
  {
    var t1, t2 := smoothSpeed * dt1, smoothSpeed * dt2;
    assert t1 <= t2 by { ScaleMonotone(smoothSpeed, dt1, dt2); }
    LerpApproaches(current, desired, t1, t2);
  }

  lemma ScaleMonotone(k: real, a: real, b: real)
    requires k >= 0.0 && a <= b
    ensures k * a <= k * b
  {
  }

  /**
   * With a whole step of smoothing (smoothSpeed * deltaTime >= 1), the camera
   * lands on the desired position clamped to the rectangle, and exactly on
   * it when that position is inside.
   */
  lemma FullStepReachesDesired(current: Vec3, targetPosition: Vec3, s: FollowSettings, deltaTime: real)
    requires s.smoothSpeed * deltaTime >= 1.0
    ensures var d := DesiredPosition(targetPosition, s.offset);
            && FollowPosition(current, targetPosition, s, deltaTime) == ClampToBounds(d, s.minPosition, s.maxPosition)
            && (s.minPosition.x <= d.x <= s.maxPosition.x && s.minPosition.y <= d.y <= s.maxPosition.y
                ==> FollowPosition(current, targetPosition, s, deltaTime) == d)
  {
  }

  /** A camera already at its desired position inside the rectangle stays there. */
  lemma RestingCameraStays(current: Vec3, targetPosition: Vec3, s: FollowSettings, deltaTime: real)
    requires current == DesiredPosition(targetPosition, s.offset)
    requires s.minPosition.x <= current.x <= s.maxPosition.x && s.minPosition.y <= current.y <= s.maxPosition.y
    ensures FollowPosition(current, targetPosition, s, deltaTime) == current
  {
  }

  /** With the declared settings the camera never leaves the rectangle from (-10, -5) to (10, 5). */
  lemma DefaultBoundsHoldCamera(current: Vec3, targetPosition: Vec3, deltaTime: real)
    ensures var r := FollowPosition(current, targetPosition, DefaultSettings, deltaTime);
            -10.0 <= r.x <= 10.0 && -5.0 <= r.y <= 5.0
  {
  }

  class CameraFollow {
    const transform: Transform
    const settings: FollowSettings

    var target: Transform?
    /** The messages written to the error log. */
    var errors: seq<string>

    constructor(transform: Transform, target: Transform?, settings: FollowSettings)
      ensures this.transform == transform && this.target == target && this.settings == settings
      ensures errors == []
    {
      this.transform := transform;
      this.target := target;
      this.settings := settings;
      errors := [];
    }

    /**
     * Start: keep an assigned target; otherwise take the object tagged as the
     * player, if there is one, or log an error and stay without a target.
     */
    method Start(taggedPlayer: Transform?)
      modifies this`target, this`errors
      ensures old(target) != null ==> target == old(target) && errors == old(errors)
      ensures old(target) == null && taggedPlayer != null ==> target == taggedPlayer && errors == old(errors)
      ensures old(target) == null && taggedPlayer == null ==>
                target == null && errors == old(errors) + [MissingTargetError]
    {
      if target == null {
        var player := taggedPlayer;
        if player != null {
          target := player;
        } else {
          errors := errors + [MissingTargetError];
        }
      }
    }

    /** LateUpdate: without a target, nothing; otherwise move towards it within the bounds. */
    method LateUpdate(deltaTime: real)
      modifies transform`position
      ensures target == null ==> transform.position == old(transform.position)
      ensures target != null ==>
                transform.position == FollowPosition(old(transform.position), old(target.position), settings, deltaTime)
    {
      if target == null {
        return;
      }
      var desiredPosition := Add(target.position, settings.offset);
      var smoothedPosition := Lerp(transform.position, desiredPosition, settings.smoothSpeed * deltaTime);
      smoothedPosition := smoothedPosition.(x := Clamp(smoothedPosition.x, settings.minPosition.x, settings.maxPosition.x));
      smoothedPosition := smoothedPosition.(y := Clamp(smoothedPosition.y, settings.minPosition.y, settings.maxPosition.y));
      transform.position := smoothedPosition;
    }
  }
}
