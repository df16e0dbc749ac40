/**
 * Surface configuration shared by the three renderer states: the choice of the
 * surface format, the initial configuration built from the window size, and the
 * rule by which a resize is applied.
 */
module Surface {
  import opened Wrappers
  import opened Wgpu
  import opened Winit

  /** `i` is the position of the first sRGB format of `formats`. */
  ghost predicate IsFirstSrgb(formats: seq<TextureFormat>, i: nat) {
    && i < |formats|
    && formats[i].IsSrgb()
    && forall j :: 0 <= j < i ==> !formats[j].IsSrgb()
  }

  ghost predicate NoSrgb(formats: seq<TextureFormat>) {
    forall j :: 0 <= j < |formats| ==> !formats[j].IsSrgb()
  }

  /** Position of the first sRGB format, the search `iter().find(is_srgb)` performs. */
  function FirstSrgbIndex(formats: seq<TextureFormat>): (r: Option<nat>)
    ensures r.Some? ==> IsFirstSrgb(formats, r.value)
    ensures r.None? ==> NoSrgb(formats)
  {
    if |formats| == 0 then None
    else if formats[0].IsSrgb() then Some(0)
    else
      match FirstSrgbIndex(formats[1..])
      case Some(i) =>
        assert forall j :: 1 <= j < i + 1 ==> formats[j] == formats[1..][j - 1];
        Some(i + 1)
      case None =>
        assert forall j :: 1 <= j < |formats| ==> formats[j] == formats[1..][j - 1];
        None
  }

  /**
   * The surface format: the first sRGB format, else the first format. The fallback
   * `formats[0]` is evaluated whether or not it is used, so an empty list panics;
   * None stands for that panic.
   */
  function SelectFormat(formats: seq<TextureFormat>): (r: Option<TextureFormat>)
    ensures r.None? <==> |formats| == 0
    ensures forall i: nat :: IsFirstSrgb(formats, i) ==> r == Some(formats[i])
    ensures |formats| > 0 && NoSrgb(formats) ==> r == Some(formats[0])
  {
    if |formats| == 0 then None
    else
      match FirstSrgbIndex(formats)
      case Some(i) => Some(formats[i])
      case None => Some(formats[0])
  }

  /** Whenever the adapter offers an sRGB format, an sRGB format is chosen. */
  lemma SrgbPreferred(formats: seq<TextureFormat>, k: nat)
    requires k < |formats| && formats[k].IsSrgb()
    ensures SelectFormat(formats).Some? && SelectFormat(formats).value.IsSrgb()
  {
    var i := FirstSrgbIndex(formats);
    assert !NoSrgb(formats);
    assert IsFirstSrgb(formats, i.value);
  }

  /**
   * The configuration built at start-up: usage render-attachment, the selected
   * format, the window's size as it is (no positivity check), the first present mode
   * and alpha mode, a frame latency of 2 and no view formats. None stands for the
   * panic of indexing an empty capability list.
   */
  function InitialConfig(caps: SurfaceCapabilities, size: PhysicalSize): (r: Option<SurfaceConfiguration>)
    ensures r.Some? <==> |caps.formats| > 0 && |caps.presentModes| > 0 && |caps.alphaModes| > 0
    ensures r.Some? ==>
      && r.value.width == size.width && r.value.height == size.height
      && Some(r.value.format) == SelectFormat(caps.formats)
      && r.value.presentMode == caps.presentModes[0]
      && r.value.alphaMode == caps.alphaModes[0]
      && r.value.usage == RenderAttachment
      && r.value.desiredMaximumFrameLatency == 2
      && r.value.viewFormats == []
  {
    match SelectFormat(caps.formats)
    case None => None
    case Some(format) =>
      if |caps.presentModes| == 0 || |caps.alphaModes| == 0 then None
      else Some(SurfaceConfiguration(
        RenderAttachment, format, size.width, size.height,
        caps.presentModes[0], caps.alphaModes[0], 2, []))
  }

  /** A size both of whose sides are positive: the only sizes a resize applies. */
  predicate Positive(size: PhysicalSize) {
    size.width > 0 && size.height > 0
  }

  /**
   * The configuration after a resize request: a size with a zero side leaves it as
   * it is; otherwise it takes the size, and nothing but the size changes.
   */
  function ApplyResize(c: SurfaceConfiguration, width: uint32, height: uint32): (r: SurfaceConfiguration)
    ensures r.(width := c.width, height := c.height) == c
    ensures width > 0 && height > 0 ==> r.width == width && r.height == height
    ensures width == 0 || height == 0 ==> r == c
  {
    if width > 0 && height > 0 then c.(width := width, height := height) else c
  }

  /** Applying the same resize twice is applying it once. */
  lemma ResizeIdempotent(c: SurfaceConfiguration, width: uint32, height: uint32)
    ensures ApplyResize(ApplyResize(c, width, height), width, height) == ApplyResize(c, width, height)
  {
  }

  /** The configuration after a series of resize requests, oldest first; only the size can change. */
  function ApplyResizes(c: SurfaceConfiguration, sizes: seq<PhysicalSize>): (r: SurfaceConfiguration)
    ensures r.(width := c.width, height := c.height) == c
    ensures (r.width, r.height) == (c.width, c.height) || exists i :: 0 <= i < |sizes| && Positive(sizes[i]) && sizes[i] == PhysicalSize(r.width, r.height)
  {
    if |sizes| == 0 then c
    else
      var last := sizes[|sizes| - 1];
      var before := ApplyResizes(c, sizes[..|sizes| - 1]);
      assert forall i :: 0 <= i < |sizes| - 1 ==> sizes[..|sizes| - 1][i] == sizes[i];
      ApplyResize(before, last.width, last.height)
  }

  /** `i` is the position of the most recent positive size in `sizes`. */
  ghost predicate IsLastPositive(sizes: seq<PhysicalSize>, i: nat) {
    && i < |sizes|
    && Positive(sizes[i])
    && forall j :: i < j < |sizes| ==> !Positive(sizes[j])
  }

  /** The most recent size with both sides positive, or None when no size is positive. */
  function LastPositive(sizes: seq<PhysicalSize>): (r: Option<PhysicalSize>)
    ensures r.None? ==> forall j :: 0 <= j < |sizes| ==> !Positive(sizes[j])
    ensures r.Some? ==> exists i: nat :: IsLastPositive(sizes, i) && sizes[i] == r.value
  {
    if |sizes| == 0 then None
    else
      var n := |sizes| - 1;
      var last := sizes[n];
      if last.width > 0 && last.height > 0 then
        assert IsLastPositive(sizes, n);
        Some(last)
      else
        var prefix := sizes[..n];
        assert forall j :: 0 <= j < n ==> prefix[j] == sizes[j];
        match LastPositive(prefix)
        case None => None
        case Some(s) =>
          assert exists i: nat :: IsLastPositive(sizes, i) && sizes[i] == s by {
            var i: nat :| IsLastPositive(prefix, i) && prefix[i] == s;
            assert IsLastPositive(sizes, i);
          }
          Some(s)
  }

  /**
   * After any series of resizes the surface has the most recent positive size, or
   * its original size when there was none; nothing but width and height changes.
   */
  lemma {:induction false} ResizesKeepLastPositive(c: SurfaceConfiguration, sizes: seq<PhysicalSize>)
    ensures ApplyResizes(c, sizes) == match LastPositive(sizes)
      case Some(s) => c.(width := s.width, height := s.height)
      case None => c
  {
    if |sizes| > 0 {
      ResizesKeepLastPositive(c, sizes[..|sizes| - 1]);
    }
  }

  /** A zero-sized resize between two valid ones does not survive: the last valid one wins. */
  lemma MinimiseBetweenResizes(c: SurfaceConfiguration)
    ensures var r := ApplyResizes(c, [PhysicalSize(800, 600), PhysicalSize(0, 0), PhysicalSize(1024, 768)]);
      r.width == 1024 && r.height == 768 && r == c.(width := 1024, height := 768)
  {
    var sizes := [PhysicalSize(800, 600), PhysicalSize(0, 0), PhysicalSize(1024, 768)];
    ResizesKeepLastPositive(c, sizes);
  }
}
