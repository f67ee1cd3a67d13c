/**
 * The progressive-accumulation controller of src/sources/main.cpp: the
 * frame counter `camera.LoopNum` advances once per frame under the
 * iteration cap, and every edit that changes the rendered image (render
 * settings, camera, material) sets it back to 0. The inspector widgets are
 * reduced to the events they raise; drawing, shaders and the triangle
 * buffer refresh are not part of this model.
 */
module RenderLoop {
  import opened Vectors
  import opened Materials
  import opened Cameras
  import opened Screens

  /** The window size the camera's aspect ratio is built from (SCR_WIDTH, SCR_HEIGHT). */
  const ScreenWidth: int := 1024
  const ScreenHeight: int := 512

  /** The factor between the window and the render targets (RENDER_SCALE). */
  const RenderScale: int := 1

  /** The largest bounce count the inspector slider offers (MAX_BOUNCE). */
  const MaxBounce: int := 4

  /** The iteration cap that means "no limit". */
  const NoLimit: int := -1

  /** The end-of-frame rule: one more frame unless a cap is set and reached. */
  function NextLoopNum(loopNum: int, maxIterations: int): (r: int)
    ensures r == loopNum || r == loopNum + 1
    ensures r == loopNum + 1 <==> (maxIterations == NoLimit || loopNum < maxIterations)
  {
    if maxIterations == NoLimit || loopNum < maxIterations then loopNum + 1 else loopNum
  }

  /** The counter after k frames without any edit. */
  function Frames(loopNum: int, maxIterations: int, k: nat): int
    decreases k
  {
    if k == 0 then loopNum else Frames(NextLoopNum(loopNum, maxIterations), maxIterations, k - 1)
  }

  /**
   * k undisturbed frames from a counter within the cap: without a limit the
   * counter grows by k; with a cap it grows by k but stops at the cap.
   */
  lemma {:induction false} FramesWithinCap(loopNum: int, maxIterations: int, k: nat)
    requires maxIterations == NoLimit || loopNum <= maxIterations
    ensures maxIterations == NoLimit ==> Frames(loopNum, maxIterations, k) == loopNum + k
    ensures maxIterations != NoLimit ==>
      Frames(loopNum, maxIterations, k) == if loopNum + k < maxIterations then loopNum + k else maxIterations
    decreases k
  {
    if k > 0 {
      FramesWithinCap(NextLoopNum(loopNum, maxIterations), maxIterations, k - 1);
    }
  }

  /** Once a cap is reached (or passed) the counter stays put for ever. */
  lemma {:induction false} CapIsSticky(loopNum: int, maxIterations: int, k: nat)
    requires maxIterations != NoLimit && loopNum >= maxIterations
    ensures Frames(loopNum, maxIterations, k) == loopNum
    decreases k
  {
    if k > 0 {
      CapIsSticky(loopNum, maxIterations, k - 1);
    }
  }

  /**
   * The reset happens before the end-of-frame rule, so the first frame drawn
   * after an edit carries counter 1, or 0 under a cap of 0.
   */
  lemma FirstFrameAfterEdit(maxIterations: int)
    requires maxIterations >= NoLimit
    ensures NextLoopNum(0, maxIterations) == if maxIterations == 0 then 0 else 1
  {
  }

  /** The inspector and callback state the render loop reads and writes. */
  class RenderState {
    const camera: Camera
    const panel: MaterialPanel
    const screenBuffer: RenderBuffer
    var currentMaterial: Material
    var enableImportantSample: bool
    var enableEnvMap: bool
    var enableToneMapping: bool
    var enableGammaCorrection: bool
    var maxBounce: int
    var maxIterations: int

    /**
     * The panel shows the material being edited, the counter is a valid
     * frame number for the parity rule, and a set cap is never exceeded.
     */
    ghost predicate Valid()
      reads this, camera, panel, panel.baseColor, panel.emissive, screenBuffer
    {
      && panel.Valid() && screenBuffer.Valid()
      && panel.Shows(currentMaterial)
      && 0 <= camera.LoopNum
      && (maxIterations >= 0 ==> camera.LoopNum <= maxIterations)
    }

    /**
     * The state on entering the render loop: the camera built at the
     * window's ratio with rotation (-87.78, -14, 0) and then refreshed, which
     * turns its yaw to -92.22; both accumulation slots configured at the
     * framebuffer size (the GL handles are parameters); the material
     * mirrored into the panel; and the inspector defaults.
     */
    constructor (initial: Material, width: int, height: int,
                 framebuffer0: nat, texture0: nat, framebuffer1: nat, texture1: nat)
      ensures Valid() && fresh(camera) && fresh(panel) && fresh(screenBuffer) && fresh(screenBuffer.fbo)
      ensures currentMaterial == initial && camera.LoopNum == 0
      ensures camera.ViewYaw == -87.78 && camera.ViewPitch == -14.0
      ensures camera.Rotation == Vec3(-92.22, -14.0, 0.0) && camera.Yaw == -92.22 && camera.Pitch == -14.0
      ensures camera.Zoom == DefaultZoom && camera.ScreenRatio == 2.0
      ensures screenBuffer.fbo[0] == Fbo(framebuffer0, texture0, width * RenderScale, height * RenderScale)
      ensures screenBuffer.fbo[1] == Fbo(framebuffer1, texture1, width * RenderScale, height * RenderScale)
      ensures enableImportantSample && enableEnvMap && enableToneMapping && enableGammaCorrection
      ensures maxBounce == 4 && maxIterations == 1000
    {
      var cam := new Camera(ScreenWidth as real / ScreenHeight as real, Vec3(-87.78, -14.0, 0.0));
      var buffer := new RenderBuffer();
      buffer.Init(width * RenderScale, height * RenderScale, framebuffer0, texture0, framebuffer1, texture1);
      screenBuffer := buffer;
      var p := new MaterialPanel();
      p.SetGlobalMaterialProperty(initial);
      panel := p;
      currentMaterial := initial;
      RefreshTurnsInitialView();
      cam.Refresh();
      camera := cam;
      enableImportantSample := true;
      enableEnvMap := true;
      enableToneMapping := true;
      enableGammaCorrection := true;
      maxBounce := 4;
      maxIterations := 1000;
    }

    /** The "Enable HDR EnvMap" checkbox changed: the image restarts. */
    method ToggleEnvMap(value: bool)
      requires Valid()
      modifies this`enableEnvMap, camera`LoopNum
      ensures Valid() && enableEnvMap == value && camera.LoopNum == 0
      ensures enableImportantSample == old(enableImportantSample) && maxBounce == old(maxBounce)
      ensures maxIterations == old(maxIterations) && currentMaterial == old(currentMaterial)
    {
      enableEnvMap := value;
      camera.LoopNum := 0;
    }

    /** The "Enable Important Sampling" checkbox changed: the image restarts. */
    method ToggleImportantSample(value: bool)
      requires Valid()
      modifies this`enableImportantSample, camera`LoopNum
      ensures Valid() && enableImportantSample == value && camera.LoopNum == 0
      ensures enableEnvMap == old(enableEnvMap) && maxBounce == old(maxBounce)
      ensures maxIterations == old(maxIterations) && currentMaterial == old(currentMaterial)
    {
      enableImportantSample := value;
      camera.LoopNum := 0;
    }

    /** The "Max Bounce" slider moved: the image restarts. */
    method SetMaxBounce(value: int)
      requires Valid()
      modifies this`maxBounce, camera`LoopNum
      ensures Valid() && maxBounce == value && camera.LoopNum == 0
      ensures enableEnvMap == old(enableEnvMap) && enableImportantSample == old(enableImportantSample)
      ensures maxIterations == old(maxIterations) && currentMaterial == old(currentMaterial)
    {
      maxBounce := value;
      camera.LoopNum := 0;
    }

    /** The "Max Iterations" slider moved (-1 meaning no limit): the image restarts. */
    method SetMaxIterations(value: int)
      requires Valid()
      modifies this`maxIterations, camera`LoopNum
      ensures Valid() && maxIterations == value && camera.LoopNum == 0
      ensures enableEnvMap == old(enableEnvMap) && enableImportantSample == old(enableImportantSample)
      ensures maxBounce == old(maxBounce) && currentMaterial == old(currentMaterial)
    {
      maxIterations := value;
      camera.LoopNum := 0;
    }

    /** The display-only switches act on the tone-mapping pass and keep the accumulated image. */
    method SetDisplayOptions(toneMapping: bool, gammaCorrection: bool)
      requires Valid()
      modifies this`enableToneMapping, this`enableGammaCorrection
      ensures Valid() && enableToneMapping == toneMapping && enableGammaCorrection == gammaCorrection
      ensures camera.LoopNum == old(camera.LoopNum)
      ensures enableEnvMap == old(enableEnvMap) && enableImportantSample == old(enableImportantSample)
      ensures maxBounce == old(maxBounce) && maxIterations == old(maxIterations)
      ensures currentMaterial == old(currentMaterial)
    {
      enableToneMapping := toneMapping;
      enableGammaCorrection := gammaCorrection;
    }

    /**
     * The "Camera Position" field was edited (the position itself is not
     * part of this model), then the camera refreshes: the angles are
     * re-derived from the unchanged view direction.
     */
    method EditCameraPosition()
      requires Valid()
      modifies camera`Yaw, camera`Pitch, camera`Rotation, camera`LoopNum
      ensures Valid() && camera.LoopNum == 0
      ensures camera.Pitch == AsinSin(camera.ViewPitch) && camera.Yaw == RefreshedYaw(camera.ViewYaw, camera.ViewPitch)
      ensures camera.Rotation == Vec3(camera.Yaw, camera.Pitch, 0.0)
    {
      camera.Refresh();
    }

    /**
     * The "Camera Rotation" field was edited, then the camera refreshes.
     * Refresh rebuilds the rotation from the view direction, which the edit
     * did not touch, so the edited rotation is dropped.
     */
    method EditCameraRotation(rotation: Vec3)
      requires Valid()
      modifies camera`Yaw, camera`Pitch, camera`Rotation, camera`LoopNum
      ensures Valid() && camera.LoopNum == 0
      ensures camera.Pitch == AsinSin(camera.ViewPitch) && camera.Yaw == RefreshedYaw(camera.ViewYaw, camera.ViewPitch)
      ensures camera.Rotation == Vec3(camera.Yaw, camera.Pitch, 0.0)
      ensures rotation.x > 0.0 || rotation.z != 0.0 ==> camera.Rotation != rotation
    {
      camera.Rotation := rotation;
      camera.Refresh();
    }

    /** The "Camera Zoom" slider moved: the zoom is taken as is, then the camera refreshes. */
    method EditCameraZoom(zoom: real)
      requires Valid()
      modifies camera`Zoom, camera`Yaw, camera`Pitch, camera`Rotation, camera`LoopNum
      ensures Valid() && camera.LoopNum == 0 && camera.Zoom == zoom
      ensures camera.Pitch == AsinSin(camera.ViewPitch) && camera.Yaw == RefreshedYaw(camera.ViewYaw, camera.ViewPitch)
      ensures camera.Rotation == Vec3(camera.Yaw, camera.Pitch, 0.0)
    {
      camera.Zoom := zoom;
      camera.Refresh();
    }

    /** A key press moving the camera. */
    method KeyPress(direction: CameraMovement, deltaTime: real)
      requires Valid()
      modifies camera`LoopNum
      ensures Valid() && camera.LoopNum == 0
      ensures camera.Rotation == old(camera.Rotation) && camera.Zoom == old(camera.Zoom)
    {
      camera.ProcessKeyboard(direction, deltaTime);
    }

    /** A mouse movement with the right button held: mouse look with the pitch constrained. */
    method MouseLook(xoffset: real, yoffset: real)
      requires Valid()
      modifies camera`Yaw, camera`Pitch, camera`Rotation, camera`ViewYaw, camera`ViewPitch, camera`LoopNum
      ensures Valid() && camera.LoopNum == 0
      ensures camera.Yaw == old(camera.Yaw) + xoffset * camera.MouseSensitivity
      ensures camera.Pitch == MovedPitch(old(camera.Pitch), yoffset, camera.MouseSensitivity, true)
      ensures camera.Pitch <= 89.0
      ensures camera.Rotation == Vec3(camera.Yaw, camera.Pitch, 0.0)
      ensures camera.ViewYaw == camera.Yaw && camera.ViewPitch == camera.Pitch
    {
      camera.ProcessMouseMovement(xoffset, yoffset, true);
    }

    /**
     * The framebuffer-size callback: new aspect ratio, the view direction
     * recomputed from the current angles, and both accumulation slots
     * resized.
     */
    method WindowResized(width: int, height: int)
      requires Valid()
      modifies camera`ScreenRatio, camera`ViewYaw, camera`ViewPitch, camera`LoopNum, screenBuffer.fbo
      ensures Valid() && camera.LoopNum == 0
      ensures camera.ScreenRatio == Quot((width * RenderScale) as real, (height * RenderScale) as real)
      ensures camera.ViewYaw == camera.Yaw && camera.ViewPitch == camera.Pitch
      ensures forall k :: 0 <= k < 2 ==>
        screenBuffer.fbo[k] == old(screenBuffer.fbo[k]).(width := width * RenderScale, height := height * RenderScale)
    {
      camera.ProcessScreenRatio(width * RenderScale, height * RenderScale);
      screenBuffer.Resize(width * RenderScale, height * RenderScale);
    }

    /** The "Base Color" editor wrote four floats into the panel; the material takes the first three. */
    method EditBaseColor(r: real, g: real, b: real, a: real)
      requires Valid()
      modifies this`currentMaterial, camera`LoopNum, panel.baseColor
      ensures Valid() && camera.LoopNum == 0
      ensures currentMaterial == old(currentMaterial).(baseColor := Vec3(r, g, b))
      ensures panel.baseColor[3] == a
      ensures maxIterations == old(maxIterations)
    {
      panel.baseColor[0], panel.baseColor[1], panel.baseColor[2], panel.baseColor[3] := r, g, b, a;
      currentMaterial := currentMaterial.(baseColor := Vec3(panel.baseColor[0], panel.baseColor[1], panel.baseColor[2]));
      camera.LoopNum := 0;
    }

    /** The "Emissive" editor wrote the panel's emission colour; the material takes it. */
    method EditEmissive(r: real, g: real, b: real)
      requires Valid()
      modifies this`currentMaterial, camera`LoopNum, panel.emissive
      ensures Valid() && camera.LoopNum == 0
      ensures currentMaterial == old(currentMaterial).(emissive := Vec3(r, g, b))
      ensures maxIterations == old(maxIterations)
    {
      panel.emissive[0], panel.emissive[1], panel.emissive[2] := r, g, b;
      currentMaterial := currentMaterial.(emissive := Vec3(panel.emissive[0], panel.emissive[1], panel.emissive[2]));
      camera.LoopNum := 0;
    }

    /** A scalar slider moved: its global, then the same field of the material, change; the image restarts. */
    method EditScalar(f: Scalar, value: real)
      requires Valid()
      modifies this`currentMaterial, camera`LoopNum, panel
      ensures Valid() && camera.LoopNum == 0
      ensures currentMaterial == WithScalar(old(currentMaterial), f, value)
      ensures maxIterations == old(maxIterations)
    {
      panel.SetScalar(f, value);
      currentMaterial := WithScalar(currentMaterial, f, panel.Scalar(f));
      camera.LoopNum := 0;
    }

    /**
     * The end of the inspector: the counter advances under the cap, then the
     * path-tracing pass draws into one slot reading the other as history, and
     * the display passes read the slot just drawn.
     */
    method Advance() returns (drawSlot: int, historySlot: int, displaySlot: int)
      requires Valid()
      modifies camera`LoopNum
      ensures Valid()
      ensures camera.LoopNum == NextLoopNum(old(camera.LoopNum), maxIterations)
      ensures drawSlot == CurIndex(camera.LoopNum) && historySlot == HistIndex(camera.LoopNum)
      ensures drawSlot != historySlot && displaySlot == drawSlot
      ensures camera.Zoom == old(camera.Zoom) && camera.Rotation == old(camera.Rotation)
    {
      if maxIterations == NoLimit || camera.LoopNum < maxIterations {
        camera.LoopIncrease();
      }
      drawSlot, historySlot := screenBuffer.SetCurrentBuffer(camera.LoopNum);
      displaySlot := screenBuffer.SetCurrentAsTexture(camera.LoopNum);
    }
  }

  /**
   * A material edit changes exactly the edited field: every other scalar and
   * every non-scalar field of the material keep their values.
   */
  lemma EditChangesOneField(m: Material, f: Scalar, value: real)
    ensures ScalarOf(WithScalar(m, f, value), f) == value
    ensures forall g :: g != f ==> ScalarOf(WithScalar(m, f, value), g) == ScalarOf(m, g)
    ensures SameNonScalar(WithScalar(m, f, value), m)
    ensures WithScalar(m, f, value) == m <==> ScalarOf(m, f) == value
  {
    WithScalarIdentity(m, f, value);
  }
}
