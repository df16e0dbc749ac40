/**
 * The extended viewer's application: the vertex type and its layout, the
 * triangle it draws, the pipeline description built at start-up, and the
 * handler that routes window and user events to the state.
 */
module BrepviewMain {
  import opened Wrappers
  import opened Wgpu
  import opened Winit
  import opened Surface
  import opened BrepviewPipeline
  import opened BrepviewState

  const F32_BYTES: nat := 4

  /** A vertex: position and colour, three 32-bit floats each, packed. */
  datatype MyVertex = MyVertex(position: (real, real, real), color: (real, real, real))

  /** `size_of::<MyVertex>()`: the struct is packed, so its size is the sum of its fields. */
  const MY_VERTEX_SIZE: nat := 3 * F32_BYTES + 3 * F32_BYTES

  /** Total byte size of a list of attribute formats laid out back to back. */
  function PackedSize(entries: seq<(uint32, VertexFormat)>): (bytes: nat) {
    if |entries| == 0 then 0 else entries[0].1.Size() + PackedSize(entries[1..])
  }

  /**
   * `vertex_attr_array!`: one attribute per (location, format) entry, each placed
   * right after the previous one, starting at `offset`.
   */
  function AttrsFrom(offset: nat, entries: seq<(uint32, VertexFormat)>): (attrs: seq<VertexAttribute>)
    ensures |attrs| == |entries|
    decreases entries
  {
    if |entries| == 0 then []
    else
      [VertexAttribute(entries[0].1, offset, entries[0].0)]
        + AttrsFrom(offset + entries[0].1.Size(), entries[1..])
  }

  /**
   * The attributes keep the entries' formats and locations, the first starts at
   * `offset`, each starts where the previous ends, and the last ends after the
   * packed size of all of them.
   */
  lemma {:induction false} AttrsAreContiguous(offset: nat, entries: seq<(uint32, VertexFormat)>)
    ensures var attrs := AttrsFrom(offset, entries);
      && |attrs| == |entries|
      && (forall k :: 0 <= k < |attrs| ==> attrs[k].format == entries[k].1 && attrs[k].shaderLocation == entries[k].0)
      && (|attrs| > 0 ==> attrs[0].offset == offset)
      && (forall k :: 0 <= k < |attrs| - 1 ==> attrs[k + 1].offset == attrs[k].offset + attrs[k].format.Size())
      && (|attrs| > 0 ==> attrs[|attrs| - 1].offset + attrs[|attrs| - 1].format.Size() == offset + PackedSize(entries))
    decreases entries
  {
    if |entries| > 0 {
      var rest := AttrsFrom(offset + entries[0].1.Size(), entries[1..]);
      AttrsAreContiguous(offset + entries[0].1.Size(), entries[1..]);
      assert AttrsFrom(offset, entries) == [VertexAttribute(entries[0].1, offset, entries[0].0)] + rest;
    }
  }

  /** `MyVertex::ATTRIBUTES`: position at location 0, colour at location 1. */
  const MY_VERTEX_ENTRIES: seq<(uint32, VertexFormat)> := [(0, Float32x3), (1, Float32x3)]

  /** `MyVertex::layout`: stride `size_of::<MyVertex>()`, stepped per vertex. */
  function MyVertexLayout(): (layout: VertexBufferLayout)
    ensures layout.arrayStride == 24 && layout.stepMode == PerVertex
    ensures layout.attributes == AttrsFrom(0, MY_VERTEX_ENTRIES)
  {
    VertexBufferLayout(MY_VERTEX_SIZE, PerVertex, AttrsFrom(0, MY_VERTEX_ENTRIES))
  }

  /** The layout's two attributes fill the 24-byte stride exactly, without gap or overlap. */
  lemma MyVertexLayoutTilesStride()
    ensures var layout := MyVertexLayout();
      && layout.arrayStride == 24
      && |layout.attributes| == 2
      && layout.attributes[0].offset == 0
      && layout.attributes[1].offset == layout.attributes[0].offset + layout.attributes[0].format.Size()
      && layout.attributes[1].offset + layout.attributes[1].format.Size() == layout.arrayStride
  {
    AttrsAreContiguous(0, MY_VERTEX_ENTRIES);
  }

  /** `VERTEX_DATA`: one triangle, counter-clockwise. */
  function VertexData(): (vs: seq<MyVertex>)
    ensures |vs| == 3
  {
    [ MyVertex((0.0, 0.5, 0.1), (1.0, 0.0, 0.0)),
      MyVertex((-0.5, -0.5, 0.1), (0.0, 1.0, 0.0)),
      MyVertex((0.5, -0.5, 0.1), (0.0, 0.0, 1.0)) ]
  }

  /**
   * The description `resumed` builds: the triangle's bytes as vertex buffer, no
   * index buffer (stride 0), counter-clockwise winding and no culling.
   */
  function StartupInfo(): (info: PipelineInfo)
    ensures info.vertexLayout == MyVertexLayout()
    ensures info.vertexBufferInit.contentsLen == 72
    ensures info.indexBufferInit == (0, None)
    ensures info.frontFace == Ccw && info.cullMode.None?
  {
    PipelineInfo(
      MyVertexLayout(),
      BufferInitDescriptor(Some("Vertex Buffer"), |VertexData()| * MY_VERTEX_SIZE, Vertex),
      (0, None),
      Ccw,
      None,
      ShaderInfo(Some("Shader Model"), Wgsl("./shader.wgsl"), Some("vs_main"), Some("fs_main")))
  }

  /**
   * Whatever the surface, the start-up pipeline has no index buffer, so `render`
   * takes the plain branch and never divides by the zero index stride; it draws
   * 72 / 24 = 3 vertices.
   */
  lemma StartupDrawsThreeVertices(config: SurfaceConfiguration)
    ensures var p := CreatePipeline(config, StartupInfo()).value;
      && p.indexBuffer.None?
      && p.inner.frontFace == Ccw && p.inner.cullMode.None?
      && Drawable(p)
      && DrawFor(p) == NonIndexed(3)
  {
    DrawOfCreatedPipeline(config, StartupInfo());
  }

  /**
   * A surface of 800 x 600 with the start-up pipeline, rendered once before any
   * resize: when wgpu hands out a texture, one plain draw of 3 vertices is
   * submitted although no configuration was ever applied to the surface.
   */
  method StartupFrame(caps: SurfaceCapabilities) returns (outcome: RenderOutcome, surfaceConfigured: bool)
    requires InitialConfig(caps, PhysicalSize(800, 600)).Some?
    ensures outcome == Presented(NonIndexed(3))
    ensures !surfaceConfigured
  {
    var state := new State(PhysicalSize(800, 600), caps, StartupInfo());
    StartupDrawsThreeVertices(state.surfaceConfig);
    outcome := state.Render(Acquired);
    surfaceConfigured := state.surfaceApplied.Some?;
  }

  /** The application handler; it has no state until `resumed` has run. */
  class App {
    var state: State?

    constructor ()
      ensures state == null
    {
      state := null;
    }

    /** `resumed`: the state is (re)built from the window and the start-up description. */
    method Resumed(windowSize: PhysicalSize, caps: SurfaceCapabilities)
      requires InitialConfig(caps, windowSize).Some?
      modifies this
      ensures state != null && fresh(state)
      ensures state.surfaceConfig == InitialConfig(caps, windowSize).value
      ensures state.pipeline == CreatePipeline(state.surfaceConfig, StartupInfo()).value
      ensures state.surfaceApplied.None? && state.redrawRequests == 0
    {
      state := new State(windowSize, caps, StartupInfo());
    }

    /** `user_event`: ignored without a state; otherwise handled, and a handling error would panic. */
    method UserEvent(event: Event) returns (effect: LoopEffect)
      modifies state
      ensures effect == Continue
      ensures state != null && event.UpdatePipeline? ==>
        state.pipeline == CreatePipeline(old(state.surfaceConfig), event.info).value
      ensures state != null && event.SendBindGroup? ==> state.pipeline == old(state.pipeline)
      ensures state != null ==>
        state.surfaceConfig == old(state.surfaceConfig) && state.surfaceApplied == old(state.surfaceApplied)
      ensures state != null ==> state.redrawRequests == old(state.redrawRequests)
    {
      if state == null {
        return Continue;
      }
      var r := state.HandleEvent(event);
      effect := if r.Failure? then Panic else Continue;
    }

    /**
     * `window_event`: ignored without a state. A redraw renders and panics on a
     * render error, as it does when the draw count divides by a zero stride; a
     * resize goes to `resize`; a close request or Q pressed exits the loop;
     * everything else (focus, mouse, other keys) changes nothing.
     */
    method WindowEvent(event: WindowEvent, acquisition: Acquisition) returns (effect: LoopEffect)
      modifies state
      ensures effect == ExitLoop <==>
        state != null && (event.CloseRequested? || event == KeyboardInput(Code(KeyQ), true))
      ensures effect == Panic <==>
        state != null && event.RedrawRequested? && (acquisition.Failed? || !Drawable(state.pipeline))
      ensures state != null ==> state.pipeline == old(state.pipeline)
      ensures state != null ==>
        state.surfaceConfig == if event.Resized?
          then ApplyResize(old(state.surfaceConfig), event.size.width, event.size.height)
          else old(state.surfaceConfig)
      ensures state != null ==>
        state.surfaceApplied ==
          if event.Resized? && event.size.width > 0 && event.size.height > 0
          then Some(state.surfaceConfig)
          else old(state.surfaceApplied)
      ensures state != null ==>
        state.redrawRequests == old(state.redrawRequests) + if event.RedrawRequested? then 1 else 0
    {
      if state == null {
        return Continue;
      }
      effect := Continue;
      match event {
        case RedrawRequested =>
          var outcome := state.Render(acquisition);
          if outcome.AcquireError? || outcome.DivisionPanic? {
            effect := Panic;
          }
        case Resized(size) =>
          state.Resize(size);
        case CloseRequested =>
          effect := ExitLoop;
        case KeyboardInput(Code(code), pressed) =>
          if code == KeyQ && pressed {
            effect := ExitLoop;
          }
        case _ =>
      }
    }
  }
}
