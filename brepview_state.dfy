/**
 * The extended viewer's graphical state: a surface configuration kept in step
 * with the window and a single pipeline slot that can be swapped between frames.
 */
module BrepviewState {
  import opened Wrappers
  import opened Wgpu
  import opened Winit
  import opened Surface
  import opened BrepviewPipeline

  /** The custom events the state handles. */
  datatype Event = UpdatePipeline(info: PipelineInfo) | SendBindGroup

  class State {
    var surfaceConfig: SurfaceConfiguration
    var pipeline: PipelineResource
    /** The configuration last handed to `surface.configure`, if any; `new` hands it none. */
    var surfaceApplied: Option<SurfaceConfiguration>
    /** How many redraws this state has asked the window for. */
    ghost var redrawRequests: nat

    /**
     * `State::new`: the initial configuration from the window size and the
     * adapter's capabilities, and the pipeline built from the description. The
     * device negotiation before it is not modelled; the capability lists must be
     * non-empty, since indexing an empty one panics.
     */
    constructor (windowSize: PhysicalSize, caps: SurfaceCapabilities, info: PipelineInfo)
      requires InitialConfig(caps, windowSize).Some?
      ensures surfaceConfig == InitialConfig(caps, windowSize).value
      ensures pipeline == CreatePipeline(surfaceConfig, info).value
      ensures surfaceApplied.None?
      ensures redrawRequests == 0
    {
      var config := InitialConfig(caps, windowSize).value;
      surfaceConfig := config;
      pipeline := CreatePipeline(config, info).value;
      surfaceApplied := None;
      redrawRequests := 0;
    }

    /**
     * `resize`: a size with a zero side is ignored; otherwise width and height are
     * taken exactly and the configuration is applied to the surface.
     */
    method Resize(size: PhysicalSize)
      modifies this
      ensures size.width > 0 && size.height > 0 ==>
        && surfaceConfig == old(surfaceConfig).(width := size.width, height := size.height)
        && surfaceApplied == Some(surfaceConfig)
      ensures size.width == 0 || size.height == 0 ==>
        surfaceConfig == old(surfaceConfig) && surfaceApplied == old(surfaceApplied)
      ensures surfaceConfig == ApplyResize(old(surfaceConfig), size.width, size.height)
      ensures pipeline == old(pipeline) && redrawRequests == old(redrawRequests)
    {
      var width := size.width;
      var height := size.height;
      if width > 0 && height > 0 {
        surfaceConfig := surfaceConfig.(width := width);
        surfaceConfig := surfaceConfig.(height := height);
        surfaceApplied := Some(surfaceConfig);
      }
    }

    /** `update_pipeline`: the slot is overwritten only by a successfully built resource. */
    method UpdatePipeline(info: PipelineInfo) returns (r: Result<(), PipelineError>)
      modifies this
      ensures r.Success? <==> CreatePipeline(old(surfaceConfig), info).Success?
      ensures r.Success? ==> pipeline == CreatePipeline(old(surfaceConfig), info).value
      ensures r.Failure? ==> pipeline == old(pipeline)
      ensures surfaceConfig == old(surfaceConfig) && surfaceApplied == old(surfaceApplied)
      ensures redrawRequests == old(redrawRequests)
    {
      match CreatePipeline(surfaceConfig, info)
      case Failure(e) =>
        r := Failure(e);
      case Success(created) =>
        pipeline := created;
        r := Success(());
    }

    /** `handle_event`: a pipeline update is `update_pipeline`; any other event is a successful no-op. */
    method HandleEvent(event: Event) returns (r: Result<(), PipelineError>)
      modifies this
      ensures event.UpdatePipeline? ==>
        r.Success? && pipeline == CreatePipeline(old(surfaceConfig), event.info).value
      ensures event.SendBindGroup? ==> r.Success? && pipeline == old(pipeline)
      ensures surfaceConfig == old(surfaceConfig) && surfaceApplied == old(surfaceApplied)
      ensures redrawRequests == old(redrawRequests)
    {
      match event
      case UpdatePipeline(info) =>
        r := UpdatePipeline(info);
      case SendBindGroup =>
        r := Success(());
    }

    /**
     * `render`: a redraw is requested first; a failed acquisition is returned before
     * anything is encoded; otherwise the resource's one draw is submitted and the
     * frame presented, unless its divisor is zero, which panics. There is no
     * configured-surface gate: whether a texture can be acquired from a surface
     * that was never configured is wgpu's decision, passed in as `acquisition`.
     */
    method Render(acquisition: Acquisition) returns (outcome: RenderOutcome)
      modifies this
      ensures surfaceConfig == old(surfaceConfig) && pipeline == old(pipeline)
      ensures surfaceApplied == old(surfaceApplied)
      ensures redrawRequests == old(redrawRequests) + 1
      ensures acquisition.Failed? ==> outcome == AcquireError(acquisition.error)
      ensures acquisition.Acquired? && !Drawable(pipeline) ==> outcome == DivisionPanic
      ensures acquisition.Acquired? && Drawable(pipeline) ==> outcome == Presented(DrawFor(pipeline))
    {
      redrawRequests := redrawRequests + 1;
      if acquisition.Failed? {
        return AcquireError(acquisition.error);
      }
      if !Drawable(pipeline) {
        return DivisionPanic;
      }
      outcome := Presented(DrawFor(pipeline));
    }
  }
}
