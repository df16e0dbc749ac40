/**
 * The GPU objects the viewer handles, as opaque values. Only the parts that the
 * viewer's own decisions read are kept: formats, sizes, strides, winding and
 * culling, and which draw a frame issues.
 */
module Wgpu {
  import opened Wrappers

  const U32_LIMIT: int := 0x1_0000_0000

  type uint16 = x: int | 0 <= x < 0x1_0000
  type uint32 = x: int | 0 <= x < 0x1_0000_0000
  type uint64 = x: int | 0 <= x < 0x1_0000_0000_0000_0000
  /** The length of a Rust slice of bytes, which never exceeds `isize::MAX`. */
  type sliceLen = x: int | 0 <= x < 0x8000_0000_0000_0000

  /** Rust's `x as u32` on a `u64`: keeps the low 32 bits. */
  function AsU32(x: uint64): (r: uint32)
    ensures x < U32_LIMIT ==> r == x
    ensures r <= x
    ensures (x - r) % U32_LIMIT == 0
  {
    x % U32_LIMIT
  }

  /** A texture format; only whether it is sRGB matters to the viewer. */
  datatype TextureFormat =
    | Rgba8Unorm | Rgba8UnormSrgb | Bgra8Unorm | Bgra8UnormSrgb
    | Rgb10a2Unorm | Rgba16Float | Bc1RgbaUnormSrgb | OtherFormat(id: nat)
  {
    predicate IsSrgb() {
      this == Rgba8UnormSrgb || this == Bgra8UnormSrgb || this == Bc1RgbaUnormSrgb
    }
  }

  datatype PresentMode = AutoVsync | AutoNoVsync | Fifo | FifoRelaxed | Immediate | Mailbox

  datatype AlphaMode = Auto | Opaque | PreMultiplied | PostMultiplied | Inherit

  datatype TextureUsage = RenderAttachment

  /** What the adapter reports the surface supports, in its preference order. */
  datatype SurfaceCapabilities = SurfaceCapabilities(
    formats: seq<TextureFormat>,
    presentModes: seq<PresentMode>,
    alphaModes: seq<AlphaMode>)

  datatype SurfaceConfiguration = SurfaceConfiguration(
    usage: TextureUsage,
    format: TextureFormat,
    width: uint32,
    height: uint32,
    presentMode: PresentMode,
    alphaMode: AlphaMode,
    desiredMaximumFrameLatency: uint32,
    viewFormats: seq<TextureFormat>)

  datatype BufferUsage = Vertex | Index | UniformCopyDst

  /** A GPU buffer: its byte size is all the renderer reads of it. */
  datatype Buffer = Buffer(name: Option<string>, size: uint64, usage: BufferUsage)

  /** A buffer initialiser; the bytes themselves are represented by their count. */
  datatype BufferInitDescriptor = BufferInitDescriptor(
    name: Option<string>, contentsLen: sliceLen, usage: BufferUsage)

  /** wgpu's `COPY_BUFFER_ALIGNMENT`: buffers made from contents have sizes that are multiples of it. */
  const COPY_BUFFER_ALIGNMENT: nat := 4

  /**
   * The size `create_buffer_init` allocates for `len` bytes of contents: nothing
   * for empty contents, otherwise `len` rounded up to the copy alignment and at
   * least one alignment unit.
   */
  function PaddedSize(len: sliceLen): (n: uint64)
    ensures n % COPY_BUFFER_ALIGNMENT == 0
    ensures len <= n < len + COPY_BUFFER_ALIGNMENT
    ensures n == 0 <==> len == 0
  {
    if len == 0 then 0
    else
      var rounded := (len + COPY_BUFFER_ALIGNMENT - 1) / COPY_BUFFER_ALIGNMENT * COPY_BUFFER_ALIGNMENT;
      if rounded < COPY_BUFFER_ALIGNMENT then COPY_BUFFER_ALIGNMENT else rounded
  }

  /**
   * `device.create_buffer_init`: a buffer holding a copy of the contents, padded
   * to the copy alignment, with the initialiser's name and usage.
   */
  function CreateBufferInit(desc: BufferInitDescriptor): (b: Buffer)
    ensures b.name == desc.name && b.usage == desc.usage
    ensures b.size % COPY_BUFFER_ALIGNMENT == 0
    ensures desc.contentsLen <= b.size < desc.contentsLen + COPY_BUFFER_ALIGNMENT
    ensures b.size == 0 <==> desc.contentsLen == 0
  {
    Buffer(desc.name, PaddedSize(desc.contentsLen), desc.usage)
  }

  datatype VertexFormat = Float32 | Float32x2 | Float32x3 | Float32x4
  {
    /** Byte size of one attribute of this format. */
    function Size(): (bytes: nat)
      ensures bytes > 0 && bytes % 4 == 0
    {
      match this
      case Float32 => 4
      case Float32x2 => 8
      case Float32x3 => 12
      case Float32x4 => 16
    }
  }

  datatype VertexAttribute = VertexAttribute(format: VertexFormat, offset: nat, shaderLocation: uint32)

  datatype VertexStepMode = PerVertex | PerInstance

  datatype VertexBufferLayout = VertexBufferLayout(
    arrayStride: uint64, stepMode: VertexStepMode, attributes: seq<VertexAttribute>)

  datatype FrontFace = Ccw | Cw

  datatype Face = Front | Back

  datatype BlendState = Replace

  datatype PrimitiveTopology = TriangleList

  /** Where the shader text comes from; the text itself is opaque. */
  datatype ShaderSource = Wgsl(path: string)

  /** The description a render pipeline was assembled from. */
  datatype RenderPipeline = RenderPipeline(
    shader: ShaderSource,
    vertexEntry: Option<string>,
    fragmentEntry: Option<string>,
    vertexBuffers: seq<VertexBufferLayout>,
    bindGroupLayouts: nat,
    targetFormat: TextureFormat,
    blend: BlendState,
    topology: PrimitiveTopology,
    frontFace: FrontFace,
    cullMode: Option<Face>)

  /** The errors `get_current_texture` can report. */
  datatype SurfaceError = Timeout | Outdated | Lost | OutOfMemory | Other

  /** What acquiring the next surface texture yields this frame. */
  datatype Acquisition = Acquired | Failed(error: SurfaceError)

  datatype IndexFormat = Uint16 | Uint32

  /** The one draw call a frame's render pass records. */
  datatype Draw = Indexed(count: uint32, format: IndexFormat) | NonIndexed(count: uint32)

  /**
   * What a call to `render` did: returned Ok without acquiring a texture, returned
   * the acquisition error, panicked dividing a buffer size by a zero stride, or
   * encoded one draw, submitted and presented.
   */
  datatype RenderOutcome =
    | NoDraw
    | AcquireError(error: SurfaceError)
    | DivisionPanic
    | Presented(draw: Draw)
}
