/**
 * The camera of src/core/Camera.h as far as the accumulation bookkeeping and
 * the clamps are concerned: the angles, the zoom, the screen ratio, the
 * rotation vector and the frame counter `LoopNum` that every camera change
 * resets. The view direction `Front` is the unit vector
 * (cos yaw cos pitch, sin pitch, sin yaw cos pitch) of the angles it was last
 * computed from, and is represented by those two angles; the other
 * direction vectors (Right, Up, the image-plane corner), the position and
 * the view matrix are not part of this model.
 */
module Cameras {
  import opened Vectors

  datatype CameraMovement = Forward | Backward | Left | Right

  const DefaultYaw: real := -90.0
  const DefaultPitch: real := 0.0
  const Speed: real := 2.5
  const Sensitivity: real := 0.1
  const DefaultZoom: real := 30.0
  const DefaultFov: real := 30.0

  /** The scroll clamp: two checks in a row, first the lower bound 1, then the upper bound 45. */
  function ClampZoom(z: real): (r: real)
    ensures 1.0 <= r <= 45.0
    ensures 1.0 <= z <= 45.0 ==> r == z
    ensures z < 1.0 ==> r == 1.0
    ensures z > 45.0 ==> r == 45.0
  {
    var lower := if z < 1.0 then 1.0 else z;
    if lower > 45.0 then 45.0 else lower
  }

  /** Clamping twice is clamping once, and the clamp keeps the order of zoom values. */
  lemma ClampZoomIdempotentMonotone(a: real, b: real)
    ensures ClampZoom(ClampZoom(a)) == ClampZoom(a)
    ensures a <= b ==> ClampZoom(a) <= ClampZoom(b)
  {
  }

  /**
   * The pitch clamp as written: above 89 becomes 89, and below -89 also
   * becomes +89, so a camera tilted past straight down flips to straight up.
   */
  function ClampPitchAsWritten(p: real): (r: real)
    ensures r <= 89.0
    ensures -89.0 <= p <= 89.0 ==> r == p
    ensures p > 89.0 || p < -89.0 ==> r == 89.0
  {
    var upper := if p > 89.0 then 89.0 else p;
    if upper < -89.0 then 89.0 else upper
  }

  /** The evidently intended clamp: into [-89, 89], each side to its own bound. */
  function ClampPitch(p: real): (r: real)
    ensures -89.0 <= r <= 89.0
    ensures -89.0 <= p <= 89.0 ==> r == p
    ensures p > 89.0 ==> r == 89.0
    ensures p < -89.0 ==> r == -89.0
  {
    if p > 89.0 then 89.0 else if p < -89.0 then -89.0 else p
  }

  /** The two clamps agree exactly on pitches not below -89. */
  lemma ClampPitchAgreement(p: real)
    ensures ClampPitchAsWritten(p) == ClampPitch(p) <==> p >= -89.0
  {
  }

  /** A pitch of -90 (one degree past straight down) is flipped to +89 by the clamp as written. */
  lemma ClampPitchFlipsDownward()
    ensures ClampPitchAsWritten(-90.0) == 89.0
    ensures ClampPitch(-90.0) == -89.0
  {
  }

  /** The pitch a mouse movement produces before or without the clamp. */
  function MovedPitch(pitch: real, yoffset: real, sensitivity: real, constrainPitch: bool): (r: real)
    ensures constrainPitch ==> r <= 89.0
    ensures !constrainPitch ==> r == pitch + yoffset * sensitivity
    ensures constrainPitch && -89.0 <= pitch + yoffset * sensitivity <= 89.0 ==> r == pitch + yoffset * sensitivity
  {
    var p := pitch + yoffset * sensitivity;
    if constrainPitch then ClampPitchAsWritten(p) else p
  }

  /**
   * An angle in degrees brought into [-180, 180) by whole turns; two angles
   * with the same wrap have the same sine and cosine.
   */
  function Wrap(a: real): (r: real)
    ensures -180.0 <= r < 180.0
    ensures -180.0 <= a < 180.0 ==> r == a
  {
    var turns := ((a + 180.0) / 360.0).Floor;
    a - 360.0 * turns as real
  }

  /** Wrapping is idempotent. */
  lemma WrapIdempotent(a: real)
    ensures Wrap(Wrap(a)) == Wrap(a)
  {
  }

  /**
   * degrees(acos(cos(radians(a)))): the angle in [0, 180] with the cosine
   * of `a`, which is the size of `a` once wrapped.
   */
  function AcosCos(a: real): (r: real)
    ensures 0.0 <= r <= 180.0
    ensures 0.0 <= a < 180.0 ==> r == a
    ensures -180.0 <= a <= 0.0 ==> r == -a
  {
    var w := Wrap(a);
    if w < 0.0 then -w else w
  }

  /**
   * degrees(asin(sin(radians(a)))): the angle in [-90, 90] with the sine
   * of `a`; its cosine is the absolute value of the cosine of `a`.
   */
  function AsinSin(a: real): (r: real)
    ensures -90.0 <= r <= 90.0
    ensures -90.0 <= a <= 90.0 ==> r == a
  {
    var w := Wrap(a);
    if w > 90.0 then 180.0 - w else if w < -90.0 then -180.0 - w else w
  }

  /** The sign of cos(radians(a)): 1, 0 or -1. */
  function CosSign(a: real): (r: int)
    ensures -1 <= r <= 1
    ensures -90.0 < a < 90.0 ==> r == 1
    ensures r == 0 <==> Wrap(a) == 90.0 || Wrap(a) == -90.0
  {
    var w := Wrap(a);
    if -90.0 < w < 90.0 then 1 else if w == 90.0 || w == -90.0 then 0 else -1
  }

  /**
   * The yaw `Refresh` derives from a view direction built from the angles
   * (viewYaw, viewPitch): degrees(acos(Front.x / cos(radians(Pitch)))) - 180
   * with Pitch = AsinSin(viewPitch). The quotient is cos(viewYaw) times the
   * sign of cos(viewPitch); a zero cosine gives the quotient 0 (see `Quot`).
   */
  function RefreshedYaw(viewYaw: real, viewPitch: real): (r: real)
    ensures -180.0 <= r <= 0.0
    ensures CosSign(viewPitch) == 1 ==> r == AcosCos(viewYaw) - 180.0
    ensures CosSign(viewPitch) == 1 && -180.0 <= viewYaw <= 0.0 ==> r == -viewYaw - 180.0
  {
    var heading :=
      if CosSign(viewPitch) == 1 then AcosCos(viewYaw)
      else if CosSign(viewPitch) == -1 then 180.0 - AcosCos(viewYaw)
      else 90.0;
    heading - 180.0
  }

  /**
   * With the view above or below the horizon by less than 90 degrees, the
   * yaw Refresh derives points the same way as the view exactly when the
   * view yaw is -90 (up to whole turns): any other heading is mirrored
   * about -90, so the next recomputation of the direction turns the view.
   */
  lemma RefreshTurnsView(viewYaw: real, viewPitch: real)
    requires CosSign(viewPitch) == 1
    ensures Wrap(RefreshedYaw(viewYaw, viewPitch)) == Wrap(viewYaw) <==> Wrap(viewYaw) == -90.0
  {
    var w := Wrap(viewYaw);
    var r := RefreshedYaw(viewYaw, viewPitch);
    assert r == (if w < 0.0 then -w else w) - 180.0;
    if r == 0.0 {
      assert w == 180.0 || w == -180.0;
    }
  }

  /** The camera of `main` looks along yaw -87.78; Refresh turns it to -92.22. */
  lemma RefreshTurnsInitialView()
    ensures RefreshedYaw(-87.78, -14.0) == -92.22
    ensures Wrap(RefreshedYaw(-87.78, -14.0)) != Wrap(-87.78)
  {
    assert Wrap(-14.0) == -14.0;
    assert Wrap(-87.78) == -87.78;
  }

  /**
   * The evidently intended yaw: the heading of the view direction itself
   * (atan2 of its z and x components), which is the view yaw wrapped, or
   * turned half way when the view is past straight up or down.
   */
  function IntendedYaw(viewYaw: real, viewPitch: real): (r: real)
    ensures -180.0 <= r < 180.0
    ensures CosSign(viewPitch) == 1 ==> r == Wrap(viewYaw)
  {
    if CosSign(viewPitch) == -1 then Wrap(viewYaw + 180.0) else Wrap(viewYaw)
  }

  /** The intended yaw keeps the heading of every view the pitch clamp allows. */
  lemma IntendedYawKeepsView(viewYaw: real, viewPitch: real)
    requires -89.0 <= viewPitch <= 89.0
    ensures Wrap(IntendedYaw(viewYaw, viewPitch)) == Wrap(viewYaw)
    ensures AsinSin(viewPitch) == viewPitch
  {
    WrapIdempotent(viewYaw);
  }

  class Camera {
    var Yaw: real
    var Pitch: real
    var MovementSpeed: real
    var MouseSensitivity: real
    var Zoom: real
    var Fov: real
    var ScreenRatio: real
    var Rotation: Vec3
    var LoopNum: int
    /** The angles the view direction `Front` was last computed from. */
    var ViewYaw: real
    var ViewPitch: real

    /**
     * The constructor: angles from the rotation vector, default speed,
     * sensitivity and zoom, a view direction built from those angles and a
     * fresh frame counter.
     */
    constructor (screenRatio: real, rotation: Vec3)
      ensures Yaw == rotation.x && Pitch == rotation.y && Rotation == rotation
      ensures ViewYaw == rotation.x && ViewPitch == rotation.y
      ensures MovementSpeed == Speed && MouseSensitivity == Sensitivity
      ensures Zoom == DefaultZoom && Fov == DefaultFov && ScreenRatio == screenRatio
      ensures LoopNum == 0
    {
      MovementSpeed := Speed;
      MouseSensitivity := Sensitivity;
      Zoom := DefaultZoom;
      Rotation := rotation;
      Yaw := rotation.x;
      Pitch := rotation.y;
      ScreenRatio := screenRatio;
      Fov := DefaultFov;
      LoopNum := 0;
      new;
      UpdateCameraVectors();
    }

    /** The view direction is recomputed from the current angles, and accumulation restarts. */
    method UpdateCameraVectors()
      modifies this`ViewYaw, this`ViewPitch, this`LoopNum
      ensures ViewYaw == Yaw && ViewPitch == Pitch
      ensures LoopNum == 0
    {
      ViewYaw := Yaw;
      ViewPitch := Pitch;
      LoopNum := 0;
    }

    /** A key press moves the position (not modelled) and restarts accumulation. */
    method ProcessKeyboard(direction: CameraMovement, deltaTime: real)
      modifies this`LoopNum
      ensures LoopNum == 0
    {
      LoopNum := 0;
    }

    /**
     * Mouse look: both offsets scaled by the sensitivity, the pitch
     * optionally clamped, and the view direction recomputed from the new
     * angles.
     */
    method ProcessMouseMovement(xoffset: real, yoffset: real, constrainPitch: bool)
      modifies this`Yaw, this`Pitch, this`Rotation, this`ViewYaw, this`ViewPitch, this`LoopNum
      ensures Yaw == old(Yaw) + xoffset * MouseSensitivity
      ensures Pitch == MovedPitch(old(Pitch), yoffset, MouseSensitivity, constrainPitch)
      ensures constrainPitch ==> Pitch <= 89.0
      ensures Rotation == Vec3(Yaw, Pitch, 0.0)
      ensures ViewYaw == Yaw && ViewPitch == Pitch
      ensures LoopNum == 0
    {
      var x := xoffset * MouseSensitivity;
      var y := yoffset * MouseSensitivity;

      Yaw := Yaw + x;
      Pitch := Pitch + y;

      if constrainPitch {
        if Pitch > 89.0 {
          Pitch := 89.0;
        }
        if Pitch < -89.0 {
          Pitch := 89.0;
        }
      }

      Rotation := Vec3(Yaw, Pitch, 0.0);
      UpdateCameraVectors();
    }

    /** Scrolling narrows or widens the view; the zoom stays within [1, 45]. */
    method ProcessMouseScroll(yoffset: real)
      modifies this`Zoom, this`LoopNum
      ensures Zoom == ClampZoom(old(Zoom) - yoffset)
      ensures 1.0 <= Zoom <= 45.0
      ensures LoopNum == 0
    {
      Zoom := Zoom - yoffset;
      if Zoom < 1.0 {
        Zoom := 1.0;
      }
      if Zoom > 45.0 {
        Zoom := 45.0;
      }
      LoopNum := 0;
    }

    /**
     * A window resize: the new aspect ratio (0 for a zero height, see
     * `Quot`), and the view direction recomputed from the current angles.
     */
    method ProcessScreenRatio(screenWidth: int, screenHeight: int)
      modifies this`ScreenRatio, this`ViewYaw, this`ViewPitch, this`LoopNum
      ensures ScreenRatio == Quot(screenWidth as real, screenHeight as real)
      ensures screenHeight != 0 ==> ScreenRatio * (screenHeight as real) == screenWidth as real
      ensures ViewYaw == Yaw && ViewPitch == Pitch
      ensures LoopNum == 0
    {
      ScreenRatio := Quot(screenWidth as real, screenHeight as real);
      UpdateCameraVectors();
    }

    /** One more frame has been accumulated. */
    method LoopIncrease()
      modifies this`LoopNum
      ensures LoopNum == old(LoopNum) + 1
    {
      LoopNum := LoopNum + 1;
    }

    /**
     * Re-derives the angles from the view direction, which itself stays as
     * it is: the pitch is the elevation of the view, the yaw is
     * `RefreshedYaw`, and the rotation vector is rebuilt from both.
     */
    method Refresh()
      modifies this`Yaw, this`Pitch, this`Rotation, this`LoopNum
      ensures Pitch == AsinSin(ViewPitch) && Yaw == RefreshedYaw(ViewYaw, ViewPitch)
      ensures -90.0 <= ViewPitch <= 90.0 ==> Pitch == ViewPitch
      ensures Rotation == Vec3(Yaw, Pitch, 0.0)
      ensures LoopNum == 0
    {
      Pitch := AsinSin(ViewPitch);
      Yaw := RefreshedYaw(ViewYaw, ViewPitch);
      Rotation := Vec3(Yaw, Pitch, 0.0);
      LoopNum := 0;
    }

    /**
     * The evidently intended effect of editing the rotation: the angles are
     * taken from the edited rotation and the view direction is recomputed
     * from them, so the camera keeps the rotation it was given.
     */
    method ApplyRotation(rotation: Vec3)
      modifies this`Yaw, this`Pitch, this`Rotation, this`ViewYaw, this`ViewPitch, this`LoopNum
      ensures Yaw == rotation.x && Pitch == rotation.y && Rotation == rotation
      ensures ViewYaw == rotation.x && ViewPitch == rotation.y
      ensures LoopNum == 0
    {
      Rotation := rotation;
      Yaw := rotation.x;
      Pitch := rotation.y;
      UpdateCameraVectors();
    }
  }
}
