/**
 * The device-independent half of the extended viewer's renderer: a pipeline
 * description becomes a pipeline resource, and a resource decides the one draw
 * a frame issues.
 */
module BrepviewPipeline {
  import opened Wrappers
  import opened Wgpu

  /** Shader module source and the names of its two entry points. */
  datatype ShaderInfo = ShaderInfo(
    shaderLabel: Option<string>,
    source: ShaderSource,
    vertexEntry: Option<string>,
    fragmentEntry: Option<string>)

  /**
   * A pipeline description. `indexBufferInit` is the stride of one index in bytes
   * together with the index contents, when there are any.
   */
  datatype PipelineInfo = PipelineInfo(
    vertexLayout: VertexBufferLayout,
    vertexBufferInit: BufferInitDescriptor,
    indexBufferInit: (uint32, Option<BufferInitDescriptor>),
    frontFace: FrontFace,
    cullMode: Option<Face>,
    shaderInfo: ShaderInfo)

  /** The built bundle: pipeline, vertex layout and buffer, optional index buffer and index stride. */
  datatype PipelineResource = PipelineResource(
    inner: RenderPipeline,
    vertexLayout: VertexBufferLayout,
    vertexBuffer: Buffer,
    indexBuffer: Option<Buffer>,
    indexStride: uint32)

  /** Building a pipeline cannot fail in this code; the type keeps the `Result` signature. */
  datatype PipelineError = ShaderCompileFailed

  /**
   * `create_pipeline`: the description's layout, index stride, winding and culling
   * are carried over as they are, an index buffer exists exactly when index
   * contents are supplied, and the single colour target takes the surface's format.
   */
  function CreatePipeline(config: SurfaceConfiguration, info: PipelineInfo): (r: Result<PipelineResource, PipelineError>)
    ensures r.Success?
    ensures r.value.indexBuffer.Some? <==> info.indexBufferInit.1.Some?
    ensures info.indexBufferInit.1.Some? ==>
      r.value.indexBuffer.value == CreateBufferInit(info.indexBufferInit.1.value)
    ensures r.value.vertexBuffer == CreateBufferInit(info.vertexBufferInit)
    ensures r.value.indexStride == info.indexBufferInit.0
    ensures r.value.vertexLayout == info.vertexLayout
    ensures r.value.inner.vertexBuffers == [info.vertexLayout]
    ensures r.value.inner.frontFace == info.frontFace && r.value.inner.cullMode == info.cullMode
    ensures r.value.inner.targetFormat == config.format
    ensures r.value.inner.topology == TriangleList && r.value.inner.blend == Replace
    ensures r.value.inner.bindGroupLayouts == 0
  {
    var shader := info.shaderInfo;
    var vertexBuffer := CreateBufferInit(info.vertexBufferInit);
    var indexBuffer := match info.indexBufferInit.1
      case Some(init) => Some(CreateBufferInit(init))
      case None => None;
    var pipeline := RenderPipeline(
      shader.source, shader.vertexEntry, shader.fragmentEntry, [info.vertexLayout], 0,
      config.format, Replace, TriangleList, info.frontFace, info.cullMode);
    Success(PipelineResource(pipeline, info.vertexLayout, vertexBuffer, indexBuffer, info.indexBufferInit.0))
  }

  /** The divisor the draw count needs is non-zero: otherwise `render` panics on division by zero. */
  predicate Drawable(p: PipelineResource) {
    match p.indexBuffer
    case Some(_) => p.indexStride > 0
    case None => AsU32(p.vertexLayout.arrayStride) > 0
  }

  /**
   * The draw a frame issues: with an index buffer, an indexed draw of as many
   * 16-bit indices as whole strides fit in the buffer; without, a plain draw of as
   * many vertices as whole strides fit in the vertex buffer. Sizes and the vertex
   * stride pass through `as u32` first.
   */
  function DrawFor(p: PipelineResource): (d: Draw)
    requires Drawable(p)
    ensures d.Indexed? <==> p.indexBuffer.Some?
    ensures d.Indexed? ==> d.format == Uint16
    ensures d.Indexed? ==> FitsExactly(d.count, p.indexStride, AsU32(p.indexBuffer.value.size))
    ensures d.NonIndexed? ==>
      FitsExactly(d.count, AsU32(p.vertexLayout.arrayStride), AsU32(p.vertexBuffer.size))
  {
    match p.indexBuffer
    case Some(idx) => Indexed(WholeStrides(AsU32(idx.size), p.indexStride), Uint16)
    case None => NonIndexed(WholeStrides(AsU32(p.vertexBuffer.size), AsU32(p.vertexLayout.arrayStride)))
  }

  /** `bytes / stride` on `u32`: the number of whole strides in `bytes`. */
  function WholeStrides(bytes: uint32, stride: uint32): (n: uint32)
    requires stride > 0
    ensures FitsExactly(n, stride, bytes)
  {
    FloorDivision(bytes, stride);
    bytes / stride
  }

  /** `count` is the number of whole `stride`-sized elements in `bytes` bytes. */
  ghost predicate FitsExactly(count: nat, stride: nat, bytes: nat) {
    count * stride <= bytes < (count + 1) * stride
  }

  lemma FloorDivision(bytes: nat, stride: nat)
    requires stride > 0
    ensures bytes / stride <= bytes
    ensures FitsExactly(bytes / stride, stride, bytes)
  {
    var q, m := bytes / stride, bytes % stride;
    assert bytes == q * stride + m;
    assert (q + 1) * stride == q * stride + stride;
    MulGrows(q, stride);
  }

  lemma MulGrows(q: nat, s: nat)
    requires s > 0
    ensures q <= q * s
  {
    var t: nat := s - 1;
    assert q * s == q * t + q;
  }

  /**
   * For buffers below 4 GiB the `as u32` casts lose nothing: an indexed draw covers
   * size / stride indices, and a stride-2 buffer of N bytes draws N / 2 of them.
   */
  lemma IndexedCountBelow4GiB(p: PipelineResource)
    requires p.indexBuffer.Some? && p.indexStride > 0 && p.indexBuffer.value.size < U32_LIMIT
    ensures DrawFor(p) == Indexed(p.indexBuffer.value.size / p.indexStride, Uint16)
  {
  }

  /** Without an index buffer, a small buffer draws size / stride vertices. */
  lemma NonIndexedCountBelow4GiB(p: PipelineResource)
    requires p.indexBuffer.None? && 0 < p.vertexLayout.arrayStride < U32_LIMIT
    requires p.vertexBuffer.size < U32_LIMIT
    ensures DrawFor(p) == NonIndexed(p.vertexBuffer.size / p.vertexLayout.arrayStride)
  {
  }

  /**
   * The draw a freshly built resource issues, stated on the description it was
   * built from. The buffers hold the contents padded to the copy alignment, so
   * index contents of N bytes and stride s draw PaddedSize(N) / s indices, and
   * without them V vertex bytes of stride S draw PaddedSize(V) / S vertices.
   */
  lemma DrawOfCreatedPipeline(config: SurfaceConfiguration, info: PipelineInfo)
    requires info.indexBufferInit.1.Some? ==>
      info.indexBufferInit.0 > 0 && PaddedSize(info.indexBufferInit.1.value.contentsLen) < U32_LIMIT
    requires info.indexBufferInit.1.None? ==>
      0 < info.vertexLayout.arrayStride < U32_LIMIT && PaddedSize(info.vertexBufferInit.contentsLen) < U32_LIMIT
    ensures Drawable(CreatePipeline(config, info).value)
    ensures var d := DrawFor(CreatePipeline(config, info).value);
      match info.indexBufferInit.1
      case Some(init) => d == Indexed(PaddedSize(init.contentsLen) / info.indexBufferInit.0, Uint16)
      case None => d == NonIndexed(PaddedSize(info.vertexBufferInit.contentsLen) / info.vertexLayout.arrayStride)
  {
    var p := CreatePipeline(config, info).value;
    if p.indexBuffer.Some? {
      IndexedCountBelow4GiB(p);
    } else {
      NonIndexedCountBelow4GiB(p);
    }
  }

  /**
   * Index contents whose length is a multiple of the copy alignment are not
   * padded, and then N bytes at stride s draw exactly N / s indices.
   */
  lemma AlignedIndexContentsDrawExactly(config: SurfaceConfiguration, info: PipelineInfo)
    requires info.indexBufferInit.1.Some? && info.indexBufferInit.0 > 0
    requires info.indexBufferInit.1.value.contentsLen % COPY_BUFFER_ALIGNMENT == 0
    requires info.indexBufferInit.1.value.contentsLen < U32_LIMIT
    ensures DrawFor(CreatePipeline(config, info).value)
      == Indexed(info.indexBufferInit.1.value.contentsLen / info.indexBufferInit.0, Uint16)
  {
    var len := info.indexBufferInit.1.value.contentsLen;
    assert PaddedSize(len) == len;
    DrawOfCreatedPipeline(config, info);
  }

  /**
   * Three 16-bit indices are 6 bytes, which the buffer pads to 8: the frame draws
   * 4 indices, one more than were supplied.
   */
  lemma SixIndexBytesDrawFour(config: SurfaceConfiguration, info: PipelineInfo)
    requires info.indexBufferInit.0 == 2
    requires info.indexBufferInit.1.Some? && info.indexBufferInit.1.value.contentsLen == 6
    ensures DrawFor(CreatePipeline(config, info).value) == Indexed(4, Uint16)
  {
    assert PaddedSize(6) == 8;
    DrawOfCreatedPipeline(config, info);
  }
}
