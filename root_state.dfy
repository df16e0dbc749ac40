/**
 * The library's renderer state: a textured, indexed mesh seen through a camera.
 * Rendering waits until the surface has been configured by a valid resize; the
 * camera's uniform buffer is rewritten in place every update.
 */
module RootState {
  import opened Wrappers
  import opened Wgpu
  import opened Winit
  import opened Surface

  /** The camera's pose and projection; the camera code is not part of this model. */
  datatype Camera = Camera(pose: nat)

  /** The uniform holding a camera's view-projection matrix, identified by the camera it was derived from. */
  datatype CameraUniform = CameraUniform(viewProjectionOf: Camera)

  /** `CameraUniform::update_vp`: the uniform is the one computed from the camera. */
  function ViewProjection(c: Camera): (u: CameraUniform)
    ensures u.viewProjectionOf == c
  {
    CameraUniform(c)
  }

  /** The GPU buffer the uniform is copied into: an allocation and its current contents. */
  datatype UniformBuffer = UniformBuffer(allocation: nat, contents: CameraUniform)

  class State {
    var config: SurfaceConfiguration
    var isSurfaceConfigured: bool
    /** The configuration last handed to `surface.configure`, if any. */
    var surfaceApplied: Option<SurfaceConfiguration>
    const vertexCount: uint32
    const indexCount: uint32
    /** The key events handed to the camera controller, oldest first. */
    var controllerInputs: seq<(KeyCode, bool)>
    var camera: Camera
    var cameraUniform: CameraUniform
    var cameraBuffer: UniformBuffer
    /** How many redraws this state has asked the window for. */
    ghost var redrawRequests: nat

    /**
     * The flag says exactly whether the surface has been configured, and then with
     * the current configuration; the GPU buffer holds the uniform of the current camera.
     */
    ghost predicate Valid()
      reads this
    {
      && (isSurfaceConfigured <==> surfaceApplied.Some?)
      && (surfaceApplied.Some? ==> surfaceApplied.value == config)
      && cameraUniform == ViewProjection(camera)
      && cameraBuffer.contents == cameraUniform
    }

    /**
     * `State::new`: the configuration takes the window size as it is and the
     * selected format, and is not applied yet. The counts are the lengths of the
     * vertex and index arrays cast to `u32`. Device negotiation and texture loading
     * are not modelled, and `initial` is the camera `Camera::new` builds.
     */
    constructor (windowSize: PhysicalSize, caps: SurfaceCapabilities,
                 verticesLen: uint64, indicesLen: uint64, initial: Camera)
      requires InitialConfig(caps, windowSize).Some?
      ensures Valid()
      ensures config == InitialConfig(caps, windowSize).value
      ensures config.width == windowSize.width && config.height == windowSize.height
      ensures !isSurfaceConfigured && surfaceApplied.None?
      ensures vertexCount == AsU32(verticesLen) && indexCount == AsU32(indicesLen)
      ensures controllerInputs == [] && camera == initial
      ensures cameraBuffer.contents == ViewProjection(initial)
      ensures redrawRequests == 0
    {
      config := InitialConfig(caps, windowSize).value;
      vertexCount := AsU32(verticesLen);
      indexCount := AsU32(indicesLen);
      camera := initial;
      cameraUniform := ViewProjection(initial);
      cameraBuffer := UniformBuffer(0, cameraUniform);
      controllerInputs := [];
      isSurfaceConfigured := false;
      surfaceApplied := None;
      redrawRequests := 0;
    }

    /**
     * `resize`: with both sides positive the configuration takes them exactly, is
     * applied to the surface and the flag is set; otherwise nothing changes. The
     * camera is left alone.
     */
    method Resize(width: uint32, height: uint32)
      requires Valid()
      modifies this
      ensures Valid()
      ensures width > 0 && height > 0 ==>
        && config == old(config).(width := width, height := height)
        && isSurfaceConfigured && surfaceApplied == Some(config)
      ensures width == 0 || height == 0 ==>
        && config == old(config)
        && isSurfaceConfigured == old(isSurfaceConfigured)
        && surfaceApplied == old(surfaceApplied)
      ensures config == ApplyResize(old(config), width, height)
      ensures camera == old(camera) && cameraBuffer == old(cameraBuffer)
      ensures controllerInputs == old(controllerInputs) && redrawRequests == old(redrawRequests)
    {
      if width > 0 && height > 0 {
        config := config.(width := width);
        config := config.(height := height);
        surfaceApplied := Some(config);
        isSurfaceConfigured := true;
      }
    }

    /** `handle_key`: Q pressed exits the loop and nothing else; every other key goes to the controller. */
    method HandleKey(code: KeyCode, isPressed: bool) returns (exit: bool)
      requires Valid()
      modifies this
      ensures Valid()
      ensures exit <==> code == KeyQ && isPressed
      ensures exit ==> controllerInputs == old(controllerInputs)
      ensures !exit ==> controllerInputs == old(controllerInputs) + [(code, isPressed)]
      ensures camera == old(camera) && cameraBuffer == old(cameraBuffer)
      ensures config == old(config) && isSurfaceConfigured == old(isSurfaceConfigured)
      ensures surfaceApplied == old(surfaceApplied) && redrawRequests == old(redrawRequests)
    {
      if code == KeyQ && isPressed {
        exit := true;
      } else {
        controllerInputs := controllerInputs + [(code, isPressed)];
        exit := false;
      }
    }

    /**
     * `update`: the controller moves the camera (to `moved`, since the controller is
     * not modelled), the uniform is recomputed from the moved camera, and the same
     * buffer allocation is overwritten with it.
     */
    method Update(moved: Camera)
      requires Valid()
      modifies this
      ensures Valid()
      ensures camera == moved
      ensures cameraBuffer == UniformBuffer(old(cameraBuffer.allocation), ViewProjection(moved))
      ensures controllerInputs == old(controllerInputs)
      ensures config == old(config) && isSurfaceConfigured == old(isSurfaceConfigured)
      ensures surfaceApplied == old(surfaceApplied) && redrawRequests == old(redrawRequests)
    {
      camera := moved;
      cameraUniform := ViewProjection(camera);
      cameraBuffer := cameraBuffer.(contents := cameraUniform);
    }

    /**
     * `render`: a redraw is always requested. Before the first valid resize it
     * returns Ok without acquiring a texture; afterwards an acquisition error is
     * returned, and otherwise one indexed draw of all indices, as 16-bit, is
     * submitted and presented.
     */
    method Render(acquisition: Acquisition) returns (outcome: RenderOutcome)
      requires Valid()
      modifies this
      ensures Valid()
      ensures redrawRequests == old(redrawRequests) + 1
      ensures !isSurfaceConfigured ==> outcome == NoDraw
      ensures isSurfaceConfigured && acquisition.Failed? ==> outcome == AcquireError(acquisition.error)
      ensures isSurfaceConfigured && acquisition.Acquired? ==> outcome == Presented(Indexed(indexCount, Uint16))
      ensures outcome.Presented? ==> surfaceApplied == Some(config)
      ensures config == old(config) && isSurfaceConfigured == old(isSurfaceConfigured)
      ensures surfaceApplied == old(surfaceApplied)
      ensures camera == old(camera) && cameraBuffer == old(cameraBuffer)
      ensures controllerInputs == old(controllerInputs)
    {
      redrawRequests := redrawRequests + 1;
      if !isSurfaceConfigured {
        return NoDraw;
      }
      if acquisition.Failed? {
        return AcquireError(acquisition.error);
      }
      outcome := Presented(Indexed(indexCount, Uint16));
    }
  }

  /**
   * A frame asked for before any valid resize draws nothing, even when a zero-sized
   * resize arrived first; after a valid resize the same request draws every index.
   */
  method FirstFrames(caps: SurfaceCapabilities, indicesLen: uint32) returns (before: RenderOutcome, after: RenderOutcome)
    requires InitialConfig(caps, PhysicalSize(800, 600)).Some?
    ensures before == NoDraw
    ensures after == Presented(Indexed(indicesLen, Uint16))
  {
    var state := new State(PhysicalSize(800, 600), caps, 0, indicesLen, Camera(0));
    state.Resize(0, 0);
    before := state.Render(Acquired);
    state.Resize(800, 600);
    after := state.Render(Acquired);
  }
}
