/**
 * The minimal viewer's state: a surface configuration kept in step with the
 * window, a fixed pipeline, and a render that only asks for the next frame.
 */
module BrepviewerState {
  import opened Wrappers
  import opened Wgpu
  import opened Winit
  import opened Surface

  /** The pipeline `new` assembles: no vertex buffers, counter-clockwise, back faces culled. */
  function FixedPipeline(format: TextureFormat): (p: RenderPipeline)
    ensures p.targetFormat == format && p.vertexBuffers == []
    ensures p.frontFace == Ccw && p.cullMode == Some(Back)
  {
    RenderPipeline(Wgsl("shader.wgsl"), Some("vs_main"), Some("fs_main"), [], 0,
      format, Replace, TriangleList, Ccw, Some(Back))
  }

  class State {
    var surfaceConfig: SurfaceConfiguration
    const pipeline: RenderPipeline
    /** The configuration last handed to `surface.configure`, if any; `new` hands it none. */
    var surfaceApplied: Option<SurfaceConfiguration>
    /** How many redraws this state has asked the window for. */
    ghost var redrawRequests: nat

    /**
     * `State::new`: the configuration takes the window size as it is and the
     * selected format; the pipeline's colour target uses that format.
     */
    constructor (windowSize: PhysicalSize, caps: SurfaceCapabilities)
      requires InitialConfig(caps, windowSize).Some?
      ensures surfaceConfig == InitialConfig(caps, windowSize).value
      ensures surfaceConfig.width == windowSize.width && surfaceConfig.height == windowSize.height
      ensures pipeline == FixedPipeline(surfaceConfig.format)
      ensures surfaceApplied.None?
      ensures redrawRequests == 0
    {
      var config := InitialConfig(caps, windowSize).value;
      surfaceConfig := config;
      pipeline := FixedPipeline(config.format);
      surfaceApplied := None;
      redrawRequests := 0;
    }

    /**
     * `resize`: a size with a zero side is ignored; otherwise width and height are
     * taken exactly and the configuration is applied to the surface.
     */
    method Resize(size: PhysicalSize)
      modifies this
      ensures size.width > 0 && size.height > 0 ==>
        && surfaceConfig == old(surfaceConfig).(width := size.width, height := size.height)
        && surfaceApplied == Some(surfaceConfig)
      ensures size.width == 0 || size.height == 0 ==>
        surfaceConfig == old(surfaceConfig) && surfaceApplied == old(surfaceApplied)
      ensures surfaceConfig == ApplyResize(old(surfaceConfig), size.width, size.height)
      ensures redrawRequests == old(redrawRequests)
    {
      var width := size.width;
      var height := size.height;
      if width > 0 && height > 0 {
        surfaceConfig := surfaceConfig.(width := width);
        surfaceConfig := surfaceConfig.(height := height);
        surfaceApplied := Some(surfaceConfig);
      }
    }

    /** `render`: asks for a redraw and returns Ok; nothing is drawn. */
    method Render() returns (outcome: RenderOutcome)
      modifies this
      ensures outcome == NoDraw
      ensures redrawRequests == old(redrawRequests) + 1
      ensures surfaceConfig == old(surfaceConfig) && surfaceApplied == old(surfaceApplied)
    {
      redrawRequests := redrawRequests + 1;
      outcome := NoDraw;
    }
  }
}
