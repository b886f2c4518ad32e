/** The swapchain of source/dk_swapchain.cpp: the lookup of a presentable
    image format in the format table, the row pitch of a block-linear
    surface (whole 64-byte GOBs), the configuration of one window buffer per
    image that stops at the first failure, and the guards that keep a queue
    in the Error state from acquiring or presenting images.

    The native window is an `NWindow` object whose methods may fail; each call
    is recorded, with its outcome, in the ghost sequence `calls`. */
module Swapchain {
  import opened DkTypes
  import GpuError

  // ---------------------------------------------------------------------------
  // The format table (lines 19-38)
  // ---------------------------------------------------------------------------

  /** The DkImageFormat values the table names; every other format is `OtherFormat`. */
  datatype DkImageFormat =
    | R8_Unorm
    | RG8_Unorm
    | RGBA8_Unorm
    | RGBX8_Unorm_sRGB
    | RGBA8_Unorm_sRGB
    | RGBX8_Unorm
    | BGR565_Unorm
    | BGRA8_Unorm
    | BGRA8_Unorm_sRGB
    | OtherFormat(code: nat)

  /** The Android PIXEL_FORMAT values the table uses. */
  datatype AndroidFormat = PixelY8 | PixelY16 | PixelRGBA8888 | PixelRGBX8888 | PixelRGB565 | PixelBGRA8888

  /** The NvColorFormat values the table uses. Their 64-bit encodings come from
      the system headers and enter the model as a parameter (`nvCode`). */
  datatype NvColorFormat = ColorY8 | ColorU8V8 | ColorA8B8G8R8 | ColorX8B8G8R8 | ColorR5G6B5 | ColorA8R8G8B8

  datatype FormatEntry = FormatEntry(dkFmt: DkImageFormat, androidFmt: AndroidFormat, nvFmt: NvColorFormat)

  const FormatTable: seq<FormatEntry> := [
    FormatEntry(R8_Unorm,         PixelY8,       ColorY8),
    FormatEntry(RG8_Unorm,        PixelY16,      ColorU8V8),
    FormatEntry(RGBA8_Unorm,      PixelRGBA8888, ColorA8B8G8R8),
    FormatEntry(RGBX8_Unorm_sRGB, PixelRGBX8888, ColorX8B8G8R8),
    FormatEntry(RGBA8_Unorm_sRGB, PixelRGBA8888, ColorA8B8G8R8),
    FormatEntry(RGBX8_Unorm,      PixelRGBX8888, ColorX8B8G8R8),
    FormatEntry(BGR565_Unorm,     PixelRGB565,   ColorR5G6B5),
    FormatEntry(BGRA8_Unorm,      PixelBGRA8888, ColorA8R8G8B8),
    FormatEntry(BGRA8_Unorm_sRGB, PixelBGRA8888, ColorA8R8G8B8)
  ]

  /** The first entry of `table` for format `f`, if there is one. */
  function LookupFormat(table: seq<FormatEntry>, f: DkImageFormat): (r: Option<FormatEntry>)
    ensures r.Some? <==> exists i :: 0 <= i < |table| && table[i].dkFmt == f
    ensures r.Some? ==> r.value in table && r.value.dkFmt == f
  {
    if |table| == 0 then None
    else if table[0].dkFmt == f then Some(table[0])
    else
      var rest := LookupFormat(table[1..], f);
      assert forall i :: 1 <= i < |table| ==> table[i] == table[1..][i - 1];
      rest
  }

  /** No format appears twice in the table. */
  lemma FormatTableDistinct()
    ensures forall i, j :: 0 <= i < j < |FormatTable| ==> FormatTable[i].dkFmt != FormatTable[j].dkFmt
  {
  }

  /** So the entry found for a format is the only entry for it. */
  lemma {:induction false} LookupFindsTheEntry(table: seq<FormatEntry>, k: nat)
    requires k < |table|
    requires forall i, j :: 0 <= i < j < |table| ==> table[i].dkFmt != table[j].dkFmt
    ensures LookupFormat(table, table[k].dkFmt) == Some(table[k])
  {
    if k > 0 {
      assert table[0].dkFmt != table[k].dkFmt;
      assert table[1..][k - 1] == table[k];
      LookupFindsTheEntry(table[1..], k - 1);
    }
  }

  lemma EveryTableFormatIsFound(k: nat)
    requires k < |FormatTable|
    ensures LookupFormat(FormatTable, FormatTable[k].dkFmt) == Some(FormatTable[k])
  {
    FormatTableDistinct();
    LookupFindsTheEntry(FormatTable, k);
  }

  /** findFormat (lines 32-38): a linear search of a format table (the driver
      always searches FormatTable). */
  method FindFormat(table: seq<FormatEntry>, f: DkImageFormat) returns (r: Option<FormatEntry>)
    ensures r == LookupFormat(table, f)
  {
    var i := 0;
    while i < |table|
      invariant 0 <= i <= |table|
      invariant LookupFormat(table[i..], f) == LookupFormat(table, f)
    {
      if table[i].dkFmt == f {
        return Some(table[i]);
      }
      assert table[i..][1..] == table[i + 1..];
      i := i + 1;
    }
    return None;
  }

  // ---------------------------------------------------------------------------
  // Pitch arithmetic (lines 78-80)
  // ---------------------------------------------------------------------------

  const GobWidth: nat := 64

  /** `(nvFmt >> 3) & 0x1F`: the bytes-per-pixel field of an NvColorFormat code. */
  function BytesPerPixel(nvCode: u64): (r: u32)
    ensures r <= 31
  {
    (nvCode / 8) % 32
  }

  /** `(width * bpp + 63) & ~63` in 32-bit arithmetic: the row size in bytes,
      rounded up to whole GOBs. */
  function WidthAlignedBytes(width: u32, bpp: u32): (r: u32)
    ensures r % GobWidth == 0
  {
    AlignUp32(Wrap32(width * bpp), GobWidth)
  }

  /** `widthAlignedBytes / bpp`: the row stride in pixels. */
  function WidthAligned(widthAlignedBytes: u32, bpp: u32): (r: u32)
    requires bpp > 0
    ensures r * bpp <= widthAlignedBytes < (r + 1) * bpp
  {
    var r := widthAlignedBytes / bpp;
    assert (r + 1) * bpp == r * bpp + bpp;
    r
  }

  /** Without overflow the pitch is the least whole number of GOBs that holds a row. */
  lemma PitchIsLeastGobMultiple(width: u32, bpp: u32)
    requires width * bpp + GobWidth - 1 < Two32
    ensures width * bpp <= WidthAlignedBytes(width, bpp) < width * bpp + GobWidth
    ensures forall m: nat :: width * bpp <= m && m % GobWidth == 0 ==> WidthAlignedBytes(width, bpp) <= m
  {
    var row := width * bpp;
    assert Wrap32(row) == row;
    AlignUp32IsLeastMultiple(row, GobWidth);
  }

  /** ... and then the stride holds at least `width` pixels. */
  lemma StrideCoversWidth(width: u32, bpp: u32)
    requires bpp > 0 && width * bpp + GobWidth - 1 < Two32
    ensures width <= WidthAligned(WidthAlignedBytes(width, bpp), bpp)
  {
    PitchIsLeastGobMultiple(width, bpp);
    DivLowerBound(WidthAlignedBytes(width, bpp), width, bpp);
  }

  /** When the pixel size divides the GOB width, stride times pixel size is the pitch. */
  lemma StrideTimesPixelIsPitch(width: u32, bpp: u32)
    requires bpp > 0 && GobWidth % bpp == 0
    ensures var pitch := WidthAlignedBytes(width, bpp);
            WidthAligned(pitch, bpp) * bpp == pitch
  {
    var pitch := WidthAlignedBytes(width, bpp);
    MultipleOfDivisor(pitch, GobWidth, bpp);
    ExactQuotient(pitch, bpp);
  }

  // ---------------------------------------------------------------------------
  // The native window
  // ---------------------------------------------------------------------------

  /** The fields of a DkImage that the swapchain reads. */
  datatype DkImage = DkImage(
    width: u32,
    height: u32,
    format: DkImageFormat,
    tileH: nat,
    memBlockId: nat,
    layerSize: u32,
    memOffset: u32)

  /** The NvGraphicBuffer fields the swapchain fills in. */
  datatype GraphicBuffer = GraphicBuffer(
    magic: u32,
    pid: nat,
    numPlanes: nat,
    format: AndroidFormat,
    extFormat: AndroidFormat,
    width: u32,
    height: u32,
    colorFormat: NvColorFormat,
    blockHeightLog2: nat,
    nvmapId: nat,
    stride: u32,
    totalSize: u32,
    pitch: u32,
    planeSize: u32,
    planeOffset: u32)

  datatype WindowCall =
    | SetDimensions(width: u32, height: u32, ok: bool)
    | ConfigureBuffer(slot: int, buffer: GraphicBuffer, ok: bool)
    | SetTransformFlipV
    | DequeueBuffer(ok: bool, slot: int)
    | QueueBuffer(slot: int, ok: bool)

  /** An NWindow. Every call may fail; `calls` records each call in order. */
  class NWindow {
    ghost var calls: seq<WindowCall>

    constructor ()
      ensures calls == []
    {
      calls := [];
    }

    /** nwindowSetDimensions */
    method SetDimensions(width: u32, height: u32) returns (ok: bool)
      modifies this
      ensures calls == old(calls) + [WindowCall.SetDimensions(width, height, ok)]
    {
      ok := *;
      calls := calls + [WindowCall.SetDimensions(width, height, ok)];
    }

    /** nwindowConfigureBuffer */
    method ConfigureBuffer(slot: nat, buffer: GraphicBuffer) returns (ok: bool)
      modifies this
      ensures calls == old(calls) + [WindowCall.ConfigureBuffer(slot, buffer, ok)]
    {
      ok := *;
      calls := calls + [WindowCall.ConfigureBuffer(slot, buffer, ok)];
    }

    /** nwindowSetTransform(HAL_TRANSFORM_FLIP_V) */
    method SetTransformFlipV()
      modifies this
      ensures calls == old(calls) + [WindowCall.SetTransformFlipV]
    {
      calls := calls + [WindowCall.SetTransformFlipV];
    }

    /** nwindowDequeueBuffer */
    method DequeueBuffer() returns (ok: bool, slot: int)
      modifies this
      ensures calls == old(calls) + [WindowCall.DequeueBuffer(ok, slot)]
    {
      ok := *;
      slot := *;
      calls := calls + [WindowCall.DequeueBuffer(ok, slot)];
    }

    /** nwindowQueueBuffer */
    method QueueBuffer(slot: int) returns (ok: bool)
      modifies this
      ensures calls == old(calls) + [WindowCall.QueueBuffer(slot, ok)]
    {
      ok := *;
      calls := calls + [WindowCall.QueueBuffer(slot, ok)];
    }
  }

  // ---------------------------------------------------------------------------
  // Swapchain::initialize (lines 41-105)
  // ---------------------------------------------------------------------------

  /** The graphic buffer template of lines 61-75, built from the format entry
      and the first image. */
  function BufferTemplate(entry: FormatEntry, first: DkImage): (r: GraphicBuffer)
    ensures r.magic == 0xDAFF_CAFF && r.pid == 42 && r.numPlanes == 1
    ensures r.format == entry.androidFmt && r.extFormat == entry.androidFmt
    ensures r.colorFormat == entry.nvFmt
    ensures r.width == first.width && r.height == first.height && r.blockHeightLog2 == first.tileH
  {
    GraphicBuffer(0xDAFF_CAFF, 42, 1, entry.androidFmt, entry.androidFmt,
                  first.width, first.height, entry.nvFmt, first.tileH,
                  0, 0, 0, 0, 0, 0)
  }

  /** The buffer configured for one image (lines 88-93): the template with the
      image's memory and the shared stride and pitch. */
  function SlotBuffer(template: GraphicBuffer, img: DkImage, stride: u32, pitch: u32): (r: GraphicBuffer)
    ensures r.nvmapId == img.memBlockId && r.stride == stride && r.pitch == pitch
    ensures r.totalSize == img.layerSize && r.planeSize == img.layerSize && r.planeOffset == img.memOffset
  {
    template.(nvmapId := img.memBlockId, stride := stride, totalSize := img.layerSize,
              pitch := pitch, planeSize := img.layerSize, planeOffset := img.memOffset)
  }

  /** Every other field of a slot's buffer (format, dimensions, header) is the template's. */
  lemma SlotBufferKeepsTemplate(template: GraphicBuffer, img: DkImage, stride: u32, pitch: u32)
    ensures var r := SlotBuffer(template, img, stride, pitch);
            r.(nvmapId := template.nvmapId, stride := template.stride, totalSize := template.totalSize,
               pitch := template.pitch, planeSize := template.planeSize, planeOffset := template.planeOffset)
            == template
  {
  }

  /** The configure calls for slots `[0, k)`, the last one with outcome `lastOk`. */
  function ConfigureCalls(template: GraphicBuffer, imgs: seq<DkImage>, stride: u32, pitch: u32,
                          k: nat, lastOk: bool): (r: seq<WindowCall>)
    requires k <= |imgs|
    ensures |r| == k
  {
    if k == 0 then []
    else ConfigureCalls(template, imgs, stride, pitch, k - 1, true)
         + [WindowCall.ConfigureBuffer(k - 1, SlotBuffer(template, imgs[k - 1], stride, pitch), lastOk)]
  }

  /** The configure calls are in slot order, each for the matching image, and
      each succeeded except possibly the last. */
  lemma {:induction false} ConfigureCallsInSlotOrder(template: GraphicBuffer, imgs: seq<DkImage>, stride: u32,
                                                     pitch: u32, k: nat, lastOk: bool)
    requires k <= |imgs|
    ensures var r := ConfigureCalls(template, imgs, stride, pitch, k, lastOk);
            forall i :: 0 <= i < k ==>
              && r[i].ConfigureBuffer? && r[i].slot == i
              && r[i].buffer == SlotBuffer(template, imgs[i], stride, pitch)
              && (r[i].ok <==> i < k - 1 || lastOk)
  {
    if k > 0 {
      ConfigureCallsInSlotOrder(template, imgs, stride, pitch, k - 1, true);
    }
  }

  /** The window calls of a run of initialize that got past the format check:
      the dimensions, then `configured` buffers, then the flip on success. */
  function InitCalls(entry: FormatEntry, imgs: seq<DkImage>, nvCode: NvColorFormat -> u64,
                     configured: nat, success: bool, originLowerLeft: bool): (r: seq<WindowCall>)
    requires 1 <= |imgs| && configured <= |imgs|
    requires BytesPerPixel(nvCode(entry.nvFmt)) > 0
    ensures |r| >= 1 && r[0] == WindowCall.SetDimensions(imgs[0].width, imgs[0].height, success || configured > 0)
    ensures success && originLowerLeft ==> r[|r| - 1] == SetTransformFlipV
  {
    var bpp := BytesPerPixel(nvCode(entry.nvFmt));
    var pitch := WidthAlignedBytes(imgs[0].width, bpp);
    var stride := WidthAligned(pitch, bpp);
    if !success && configured == 0 then
      [WindowCall.SetDimensions(imgs[0].width, imgs[0].height, false)]
    else
      [WindowCall.SetDimensions(imgs[0].width, imgs[0].height, true)]
      + ConfigureCalls(BufferTemplate(entry, imgs[0]), imgs, stride, pitch, configured, success)
      + (if success && originLowerLeft then [SetTransformFlipV] else [])
  }

  lemma SeqAssoc<T>(a: seq<T>, b: seq<T>, c: seq<T>)
    ensures (a + b) + c == a + (b + c)
  {
  }

  lemma DropHead<T>(x: T, s: seq<T>)
    ensures ([x] + s)[1..] == s
  {
  }

  lemma SplitHead<T>(s: seq<T>)
    requires |s| >= 1
    ensures s == [s[0]] + s[1..]
  {
  }

  class Swapchain {
    var nwin: NWindow?
    var numImages: u32
    const images: array<Option<DkImage>>   // m_images, one slot per image
    ghost var configured: nat              // how many slots initialize has filled

    constructor (numImages: nat)
      ensures nwin == null && this.numImages == 0 && fresh(images) && images.Length == numImages
      ensures configured == 0 && forall i :: 0 <= i < images.Length ==> images[i] == None
    {
      nwin := null;
      this.numImages := 0;
      images := new Option<DkImage>[numImages](_ => None);
      configured := 0;
    }

    /** The loop of lines 82-96: slot i gets image i, then its window buffer is
        configured; the first failure ends the loop with Fail. */
    method ConfigureImages(window: NWindow, imgs: seq<DkImage>, n: u32,
                           template: GraphicBuffer, stride: u32, pitch: u32) returns (r: DkResult)
      requires |imgs| == n && images.Length == n
      modifies this`configured, window, images
      ensures r == Success || r == Fail
      ensures configured <= n && (r == Success ==> configured == n) && (r == Fail ==> configured >= 1)
      ensures window.calls == old(window.calls) + ConfigureCalls(template, imgs, stride, pitch, configured, r == Success)
      ensures forall i :: 0 <= i < n ==> images[i] == if i < configured then Some(imgs[i]) else old(images[i])
    {
      configured := 0;
      var i: nat := 0;
      while i < n
        invariant i <= n && configured == i
        invariant window.calls == old(window.calls) + ConfigureCalls(template, imgs, stride, pitch, i, true)
        invariant forall j :: 0 <= j < n ==> images[j] == if j < i then Some(imgs[j]) else old(images[j])
      {
        var img := imgs[i];
        images[i] := Some(img);
        configured := i + 1;
        var ok := window.ConfigureBuffer(i, SlotBuffer(template, img, stride, pitch));
        assert ConfigureCalls(template, imgs, stride, pitch, i + 1, ok)
               == ConfigureCalls(template, imgs, stride, pitch, i, true)
                  + [WindowCall.ConfigureBuffer(i, SlotBuffer(template, img, stride, pitch), ok)];
        if !ok {
          return Fail;
        }
        i := i + 1;
      }
      return Success;
    }

    /** Swapchain::initialize. `formats` is the table findFormat searches
        (FormatTable in the driver). A format missing from the table is
        BadState in debug builds; a release build dereferences the missing
        entry, so the caller must pass a format from the table. Any window
        failure is Fail, and the slots after a failed one are never
        configured. */
    method Initialize(window: NWindow, imgs: seq<DkImage>, n: u32, debug: bool, formats: seq<FormatEntry>,
                      nvCode: NvColorFormat -> u64, originLowerLeft: bool) returns (r: DkResult)
      requires 1 <= n && |imgs| == n && images.Length == n
      requires debug || LookupFormat(formats, imgs[0].format).Some?
      requires forall e :: e in formats ==> BytesPerPixel(nvCode(e.nvFmt)) > 0
      modifies this, window, images
      ensures nwin == window && numImages == n
      ensures r == Success || r == Fail || r == BadState
      ensures configured <= n && (r == Success ==> configured == n)
      ensures var entry := LookupFormat(formats, imgs[0].format);
              if entry.None? then
                r == BadState && configured == 0 && window.calls == old(window.calls)
              else
                && r != BadState
                && window.calls == old(window.calls)
                                   + InitCalls(entry.value, imgs, nvCode, configured, r == Success, originLowerLeft)
      // slot i holds image i exactly for the configured slots
      ensures forall i :: 0 <= i < n ==> images[i] == if i < configured then Some(imgs[i]) else old(images[i])
    {
      nwin := window;
      numImages := n;
      configured := 0;

      var first := imgs[0];
      var width := first.width;
      var height := first.height;
      var fmtData := FindFormat(formats, first.format);
      if fmtData.None? {
        return BadState;
      }
      var entry := fmtData.value;

      var dimsOk := window.SetDimensions(width, height);
      if !dimsOk {
        assert InitCalls(entry, imgs, nvCode, 0, false, originLowerLeft)
               == [WindowCall.SetDimensions(width, height, false)];
        return Fail;
      }

      r := ConfigureWindow(window, imgs, n, entry, nvCode, originLowerLeft);
      ghost var calls := InitCalls(entry, imgs, nvCode, configured, r == Success, originLowerLeft);
      SplitHead(calls);
      SeqAssoc(old(window.calls), [calls[0]], calls[1..]);
    }

    /** Lines 61-102, once the dimensions are set: the buffer template, the
        GOB-aligned pitch, one configured buffer per slot and, on success, the
        vertical flip for a lower-left origin. */
    method ConfigureWindow(window: NWindow, imgs: seq<DkImage>, n: u32, entry: FormatEntry,
                           nvCode: NvColorFormat -> u64, originLowerLeft: bool) returns (r: DkResult)
      requires 1 <= n && |imgs| == n && images.Length == n
      requires BytesPerPixel(nvCode(entry.nvFmt)) > 0
      modifies this`configured, window, images
      ensures r == Success || r == Fail
      ensures configured <= n && (r == Success ==> configured == n) && (r == Fail ==> configured >= 1)
      ensures window.calls == old(window.calls)
                              + InitCalls(entry, imgs, nvCode, configured, r == Success, originLowerLeft)[1..]
      ensures forall i :: 0 <= i < n ==> images[i] == if i < configured then Some(imgs[i]) else old(images[i])
    {
      var first := imgs[0];
      var template := BufferTemplate(entry, first);

      var bpp := BytesPerPixel(nvCode(entry.nvFmt));
      var widthAlignedBytes := WidthAlignedBytes(first.width, bpp);
      var widthAligned := WidthAligned(widthAlignedBytes, bpp);

      r := ConfigureImages(window, imgs, n, template, widthAligned, widthAlignedBytes);
      ghost var configureCalls := ConfigureCalls(template, imgs, widthAligned, widthAlignedBytes, configured, r == Success);
      ghost var flip: seq<WindowCall> := if r == Success && originLowerLeft then [SetTransformFlipV] else [];
      ghost var setDims := WindowCall.SetDimensions(first.width, first.height, true);
      assert InitCalls(entry, imgs, nvCode, configured, r == Success, originLowerLeft)
             == [setDims] + configureCalls + flip;
      SeqAssoc([setDims], configureCalls, flip);
      DropHead(setDims, configureCalls + flip);
      if r == Success && originLowerLeft {
        window.SetTransformFlipV();
      }
    }
  }

  // ---------------------------------------------------------------------------
  // Queue guards (lines 192-223)
  // ---------------------------------------------------------------------------

  /** dkQueueAcquireImage: a queue in the Error state raises Fail and the window
      is not asked for a buffer; a failed dequeue raises Fail. */
  method QueueAcquireImage(q: GpuError.Queue, sc: Swapchain) returns (slot: Option<int>, raised: Option<DkResult>)
    requires sc.nwin != null
    modifies sc.nwin
    ensures q.InErrorState() ==> slot.None? && raised == Some(Fail) && sc.nwin.calls == old(sc.nwin.calls)
    ensures !q.InErrorState() ==>
              && |sc.nwin.calls| == |old(sc.nwin.calls)| + 1
              && sc.nwin.calls[..|old(sc.nwin.calls)|] == old(sc.nwin.calls)
              && var call := sc.nwin.calls[|old(sc.nwin.calls)|];
                 && call.DequeueBuffer?
                 && (call.ok ==> slot == Some(call.slot) && raised.None?)
                 && (!call.ok ==> slot.None? && raised == Some(Fail))
  {
    if q.InErrorState() {
      return None, Some(Fail);
    }
    var ok, s := sc.nwin.DequeueBuffer();
    if !ok {
      return None, Some(Fail);
    }
    return Some(s), None;
  }

  /** dkQueuePresentImage: in debug builds a slot outside `[0, numImages)` raises
      BadInput; a queue in the Error state raises Fail; in both cases nothing is
      queued. A release build reads the slot's image, so the caller must pass a
      slot in range. */
  method QueuePresentImage(q: GpuError.Queue, sc: Swapchain, imageSlot: int, debug: bool)
      returns (raised: Option<DkResult>)
    requires sc.nwin != null
    requires debug || 0 <= imageSlot < sc.numImages
    modifies sc.nwin
    ensures var outOfBounds := imageSlot < 0 || imageSlot >= sc.numImages;
            if debug && outOfBounds then
              raised == Some(BadInput) && sc.nwin.calls == old(sc.nwin.calls)
            else if q.InErrorState() then
              raised == Some(Fail) && sc.nwin.calls == old(sc.nwin.calls)
            else
              && |sc.nwin.calls| == |old(sc.nwin.calls)| + 1
              && sc.nwin.calls[..|old(sc.nwin.calls)|] == old(sc.nwin.calls)
              && var call := sc.nwin.calls[|old(sc.nwin.calls)|];
                 && call.QueueBuffer? && call.slot == imageSlot
                 && (raised == if call.ok then None else Some(Fail))
  {
    if debug && (imageSlot < 0 || imageSlot >= sc.numImages) {
      return Some(BadInput);
    }
    if q.InErrorState() {
      return Some(Fail);
    }
    var ok := sc.nwin.QueueBuffer(imageSlot);
    if !ok {
      return Some(Fail);
    }
    return None;
  }
}
