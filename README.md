# brepimport viewer: surface, pipeline and frame decisions

The repository is a 3D viewer built on wgpu and winit. This project models the
sequential decision layer under its GPU and windowing plumbing, with GPU objects
treated as opaque values:

- **Surface configuration** (all three renderer states). The surface format is the
  first sRGB format the adapter offers, else its first format. The initial
  configuration copies the window size as it is. A resize is applied only when both
  sides are positive, and then all three states also apply the configuration to the
  surface (`surface.configure`). The library state (`src/state.rs`) additionally
  sets `is_surface_configured`. None of the three `new` functions configures the
  surface.
- **Frame draw selection.** `render` always asks for another redraw first.
  - The library state returns Ok without acquiring a texture until the surface is
    configured. After that it issues one indexed draw of `INDICES.len()` 16-bit indices.
  - The extended viewer (`src/bin/brepview`) has no such gate. An acquisition error
    is returned before anything is encoded. Otherwise it issues an indexed draw of
    `index_buffer.size() as u32 / index_stride` indices when an index buffer exists,
    and a plain draw of `vertex_buffer.size() as u32 / array_stride as u32` vertices
    when none does. A zero divisor panics.
  - The minimal viewer (`src/bin/brepviewer`) draws nothing.
- **Pipeline construction and replacement** (extended viewer). `create_pipeline`
  turns a pipeline description into a resource bundle. The pipeline has a single
  slot, which `update_pipeline` overwrites only when building succeeds.
  `handle_event` dispatches the two custom events.
- **Event dispatch** (extended viewer's `main.rs`). Nothing happens before the state
  exists. Resized goes to `resize`, a redraw renders, and a render error panics. A
  close request and a Q key press exit the loop; other events change nothing. The
  start-up description is a packed 24-byte vertex type, a 3-vertex triangle and no
  index buffer, so the first frame draws exactly 3 vertices.

Files: `wrappers.dfy` (Option, Result), `wgpu.dfy` (GPU values, `as u32`),
`winit.dfy` (events), `surface.dfy` (format choice, initial configuration, resize
rule), `root_state.dfy` (`src/state.rs`), `brepview_pipeline.dfy` and
`brepview_state.dfy` (`src/bin/brepview/state.rs`), `brepview_main.dfy`
(`src/bin/brepview/main.rs`), `brepviewer_state.dfy` (`src/bin/brepviewer/state.rs`).

State that the Rust code updates in place is modelled as classes: the three `State`
structs and the `App` handler. Their methods state the whole new state. The pure
parts are functions with lemmas: format choice, the initial configuration,
`create_pipeline`, the draw count and the vertex layout.

Where the code differs from the intended design, the model follows the code:

- The library state's `resize` does not touch the camera, so the aspect ratio is not
  recomputed on resize.
- `create_pipeline` never returns an error, because shader problems do not surface
  as an `Err` there. The error branch of `update_pipeline` is modelled but cannot be
  taken.
- The extended viewer's `render` has no configured-surface gate. A redraw that
  arrives before the first valid resize acquires a texture from a surface that was
  never configured. What wgpu then yields is outside this code, so it comes in as
  the acquisition parameter. `BrepviewMain.StartupFrame` shows a frame presented
  while no configuration has been applied.
- The draw count divides the size of the buffer, not the length of the contents.
  `create_buffer_init` pads the contents to a multiple of 4 bytes, so index
  contents of N bytes at stride 2 draw N / 2 indices only when N is a multiple of 4.
  Three 16-bit indices (6 bytes) become an 8-byte buffer and draw 4 indices.

## Model

| member | source | states |
|---|---|---|
| Wgpu.CreateBufferInit | src/bin/brepview/state.rs:79-85 | the buffer keeps the initialiser's name and usage; its size is the contents' length rounded up to a multiple of 4, at most 3 bytes more, and zero exactly for empty contents |
| Wgpu.AsU32 | src/bin/brepview/state.rs:294 | `as u32` keeps values below 2^32 unchanged, never grows a value, and differs from it by a multiple of 2^32 |
| Surface.FirstSrgbIndex | src/state.rs:98-102 | the `find` over the format list yields the position of the first sRGB format (every earlier one is not sRGB), and nothing exactly when no format is sRGB |
| Surface.SelectFormat | src/bin/brepview/state.rs:193-198 | the chosen format is the first sRGB format when there is one, else the first format; an empty list panics (None), and only then |
| Surface.SrgbPreferred | src/bin/brepviewer/state.rs:73-78 | whenever any offered format is sRGB, the chosen format is sRGB |
| Surface.InitialConfig | src/state.rs:105-115 | the initial configuration has the window's width and height unchecked, the selected format, the first present and alpha modes, latency 2 and no view formats; it panics (None) exactly when a capability list is empty |
| Surface.ApplyResize | src/bin/brepview/state.rs:225-233 | a resize with a zero side leaves the configuration as it is; otherwise the configuration takes exactly the new width and height; nothing but the size ever changes |
| Surface.ResizeIdempotent | src/bin/brepview/state.rs:225-233 | repeating a resize request with the same size changes nothing further |
| Surface.ApplyResizes | src/bin/brepview/state.rs:225-233 | after a series of resizes only the size can differ, and it is the original size or one of the requested sizes with both sides positive |
| Surface.ResizesKeepLastPositive | src/bin/brepview/state.rs:225-233 | after any series of resizes the configuration has the most recent size with both sides positive (or its original size if none), and nothing else changes |
| Surface.MinimiseBetweenResizes | src/state.rs:301-308 | resizing to 800x600, then 0x0, then 1024x768 leaves the configuration at 1024x768 |
| RootState.ViewProjection | src/state.rs:185-186 | `update_vp` gives the uniform computed from the given camera (the matrix arithmetic is opaque) |
| RootState.State.constructor | src/state.rs:37-299 | the new state keeps the window size, is not configured, has applied nothing to the surface, counts indices as `INDICES.len() as u32`, and its camera buffer holds the initial camera's uniform |
| RootState.State.Resize | src/state.rs:301-308 | with both sides positive the configuration reports exactly (width, height), is applied to the surface and the flag is set; with a zero side configuration, flag and surface keep their values; the camera is untouched |
| RootState.State.HandleKey | src/state.rs:310-316 | exit is requested exactly for Q pressed, and then the controller receives nothing; every other (key, pressed) pair, Q released included, is appended to the controller's input |
| RootState.State.Update | src/state.rs:318-322 | the camera becomes the moved camera and the same buffer allocation now holds the uniform computed from the moved camera; the invariant camera/uniform/buffer agreement is kept |
| RootState.State.Render | src/state.rs:325-386 | a redraw is always requested; while unconfigured the result is Ok with no acquisition and no draw; once configured an acquisition error is returned, else exactly one indexed draw of `index_count` 16-bit indices on a surface configured with the current configuration |
| RootState.FirstFrames | src/state.rs:326-331 | a frame before any valid resize (even after a zero-sized one) draws nothing, and after a valid resize the same request draws every index |
| BrepviewPipeline.CreatePipeline | src/bin/brepview/state.rs:68-143 | building always succeeds; an index buffer exists exactly when index contents are supplied; index stride, vertex layout, winding and culling are copied verbatim; both buffers are what `create_buffer_init` makes of their initialisers; the colour target uses the surface format, triangle lists, replace blending, no bind groups |
| BrepviewPipeline.DrawFor | src/bin/brepview/state.rs:291-302 | the draw is indexed (16-bit) exactly when there is an index buffer; its count is the number of whole strides in the buffer size after `as u32` |
| BrepviewPipeline.WholeStrides | src/bin/brepview/state.rs:294 | the `u32` division yields the number of whole strides in the byte count: count x stride <= bytes < (count + 1) x stride |
| BrepviewPipeline.IndexedCountBelow4GiB | src/bin/brepview/state.rs:292-296 | with an index buffer below 4 GiB the indexed draw covers size / stride indices (N / 2 for stride 2) |
| BrepviewPipeline.NonIndexedCountBelow4GiB | src/bin/brepview/state.rs:297-301 | without an index buffer and with sizes below 4 GiB the plain draw covers size / stride vertices |
| BrepviewPipeline.DrawOfCreatedPipeline | src/bin/brepview/state.rs:78-86 | a resource built from a description is drawable, and draws padded contents / stride indices when index contents are supplied, and padded vertex bytes / vertex stride vertices otherwise |
| BrepviewPipeline.AlignedIndexContentsDrawExactly | src/bin/brepview/state.rs:292-296 | index contents whose length is a multiple of 4 are not padded, so N bytes at stride s draw exactly N / s indices |
| BrepviewPipeline.SixIndexBytesDrawFour | src/bin/brepview/state.rs:292-296 | three 16-bit indices (6 bytes at stride 2) draw 4 indices, because the buffer holds 8 bytes |
| BrepviewState.State.constructor | src/bin/brepview/state.rs:154-219 | the state holds the initial configuration and the pipeline built from the description against it; nothing has been applied to the surface |
| BrepviewState.State.Resize | src/bin/brepview/state.rs:225-233 | with both sides positive the configuration takes exactly (width, height) and is applied to the surface; with a zero side configuration and surface are unchanged; the pipeline is untouched |
| BrepviewState.State.UpdatePipeline | src/bin/brepview/state.rs:237-240 | succeeds exactly when building succeeds, and then the slot holds the new resource; on failure the previous pipeline is kept |
| BrepviewState.State.HandleEvent | src/bin/brepview/state.rs:243-249 | a pipeline update behaves as `update_pipeline`; the bind-group event returns Ok and changes nothing |
| BrepviewState.State.Render | src/bin/brepview/state.rs:252-307 | a redraw is requested first; an acquisition error is returned with no draw; otherwise a zero divisor panics, and any other resource presents its single draw whether or not the surface was ever configured; nothing else changes |
| BrepviewMain.AttrsFrom | src/bin/brepview/main.rs:39-42 | `vertex_attr_array!` makes one attribute per entry; their offsets are stated by `AttrsAreContiguous` |
| BrepviewMain.AttrsAreContiguous | src/bin/brepview/main.rs:39-42 | the attribute array keeps each entry's format and location, starts at the given offset, places each attribute right after the previous one and ends after the packed size of all entries |
| BrepviewMain.MyVertexLayout | src/bin/brepview/main.rs:49-57 | the layout has stride `size_of::<MyVertex>()` = 24, steps per vertex and uses the attribute array; `MyVertexLayoutTilesStride` states how the attributes fill the stride |
| BrepviewMain.MyVertexLayoutTilesStride | src/bin/brepview/main.rs:49-57 | the vertex layout's stride is 24 bytes and its two attributes fill it exactly, at offsets 0 and 12 |
| BrepviewMain.VertexData | src/bin/brepview/main.rs:60-76 | the start-up triangle has three vertices |
| BrepviewMain.StartupInfo | src/bin/brepview/main.rs:86-104 | the start-up description uses `MyVertex::layout()`, 72 vertex bytes (3 vertices of 24), no index buffer with stride 0, counter-clockwise winding and no culling |
| BrepviewMain.StartupDrawsThreeVertices | src/bin/brepview/main.rs:86-104 | the start-up pipeline has no index buffer, counter-clockwise winding and no culling, never divides by its zero index stride, and draws 72 / 24 = 3 vertices |
| BrepviewMain.StartupFrame | src/bin/brepview/main.rs:80-107 | on an 800x600 surface with the start-up description, one render before any resize presents one plain draw of 3 vertices, with no configuration applied to the surface |
| BrepviewMain.App.constructor | src/bin/brepview/main.rs:25-29 | the handler starts without a state |
| BrepviewMain.App.Resumed | src/bin/brepview/main.rs:80-107 | the state is built from the window size, the capabilities and the start-up description, with the surface not yet configured |
| BrepviewMain.App.UserEvent | src/bin/brepview/main.rs:109-115 | ignored without a state; otherwise a pipeline update installs the newly built pipeline, the bind-group event changes nothing, and the loop continues |
| BrepviewMain.App.WindowEvent | src/bin/brepview/main.rs:117-188 | the loop exits exactly on a close request or Q pressed, and panics exactly when a redraw's acquisition fails or its draw divides by a zero stride, both only once the state exists; a resize changes only the configuration and the applied surface configuration as `resize` does, a redraw only the redraw count, and all other events nothing |
| BrepviewerState.FixedPipeline | src/bin/brepviewer/state.rs:102-141 | the minimal viewer's pipeline has no vertex buffers, counter-clockwise winding, back-face culling and the surface format as target |
| BrepviewerState.State.constructor | src/bin/brepviewer/state.rs:34-151 | the state holds the initial configuration with the window's size, and the fixed pipeline for its format; nothing has been applied to the surface |
| BrepviewerState.State.Resize | src/bin/brepviewer/state.rs:153-161 | with both sides positive the configuration takes exactly (width, height) and is applied to the surface; with a zero side configuration and surface are unchanged |
| BrepviewerState.State.Render | src/bin/brepviewer/state.rs:163-166 | only a redraw is requested; the result is Ok and nothing is drawn |

## Left out

- RootState.State.constructor, BrepviewState.State.constructor, BrepviewerState.State.constructor, BrepviewMain.App.Resumed: indexing an empty capability list panics. These members require non-empty lists; `Surface.InitialConfig` itself models the panic as None.
- RootState.State.Update: the camera controller and the camera (`crate::camera`) are not part of this model. The moved camera is a parameter, and only the order of move, recompute and buffer overwrite is kept.
- Instance, adapter, device and queue negotiation, surface creation and `pollster::block_on` are left out. They are asynchronous foreign calls whose failures panic.
- Render-pass encoding is left out: clear colour, bind groups, vertex-buffer binding, command submission and presentation. Only which draw is issued, and its count, is kept.
- The view and projection matrices and the aspect ratio are floating point and come from code that is not shown. A uniform is represented by the camera it was computed from.
- Texture loading and the texture and camera bind groups are left out. They are foreign calls into modules that are not shown.
- WGSL shader text and pipeline-layout descriptors are opaque. A shader is represented by the path it is included from.
- `VERTICES` and `INDICES` of the library crate are not part of this model. `State::new` takes their lengths as parameters.
- Buffer byte contents are represented by their length. wgpu's `create_buffer_init` is not part of this repository; its padding rule (empty contents give an empty buffer, others are rounded up to `COPY_BUFFER_ALIGNMENT` = 4) is taken from wgpu's documented behaviour.
- Logging, focus and mouse handlers, and the `log_*_event` switches have no state effect. They are modelled as doing nothing.
- `src/bin/brepviewer/main.rs` is winit plumbing that never constructs the state, and it is not modelled. Also not modelled: `src/bin/brepviewer/mesh.rs` (not compiled), `src/bin/brepview/mesh.rs` (no function bodies), `src/bin/brepconv.rs` (help text), `build/main.rs` (cargo directives) and `src/bin/brepview/prelude.rs` (type aliases).
- The redraw request is counted in a ghost counter. The window it goes to is not modelled.
