/** `BitmapSource` (`wic::bitmap_source`): the checks `copy_pixels` makes on the caller's
    buffer before it forwards to `IWICBitmapSource::CopyPixels`, and `pixel_format_desc`.
    The foreign calls are inputs: the code and GUID `GetPixelFormat` returns, and the code
    `CopyPixels` returns. */
module BitmapSources {
  import opened Wrappers
  import opened Ints
  import opened Errors
  import opened WicTypes
  import opened PixelFormats

  const U32_MAX: nat := 0xFFFF_FFFF

  /** `pixel_format_desc`: the table description of the source's format, or `None` when
      the query fails or the table does not list the format. */
  function PixelFormatDesc(formatHr: HResult, guid: PixelFormatGuid): (d: Option<PixelFormatDescription>)
    ensures d.None? <==> IsFailure(formatHr) || Description(guid).None?
    ensures d.Some? ==> d == Description(guid)
  {
    match Map(formatHr, guid)
    case Ok(g) => Description(g)
    case Err(_) => None
  }

  /** The three assertions of `copy_pixels`, in `isize` arithmetic: the buffer's length is
      below `u32::MAX`, `height` rows of `stride` bytes fit in the buffer, and `stride`
      covers `width` pixels, rounded up with Rust's division. A rectangle with a negative
      width or height passes the last two. */
  predicate CopyChecks(rect: Recti, len: nat, stride: u32, bitsPerPixel: nat) {
    len < U32_MAX &&
    stride * Height(rect) <= len &&
    stride >= TruncDiv(Width(rect) * bitsPerPixel + 7, 8)
  }

  /** The arguments of `IWICBitmapSource::CopyPixels`. */
  datatype CopyPixelsArgs = CopyPixelsArgs(rect: Recti, stride: u32, bufferSize: u32)

  /** `unchecked_copy_pixels`: forward with the buffer's length cast to `u32`, and map the
      status. */
  function UncheckedCopyPixels(rect: Recti, len: nat, stride: u32, copyHr: HResult)
    : (r: (CopyPixelsArgs, Result<Status>))
    ensures r.0 == CopyPixelsArgs(rect, stride, len % TWO_32)
    ensures r.1 == MapStatus(copyHr)
  {
    (CopyPixelsArgs(rect, stride, len % TWO_32), MapStatus(copyHr))
  }

  /** `copy_pixels`: panic when the format has no description or the buffer fails a check;
      forward only after every check has passed. */
  function CopyPixels(rect: Recti, len: nat, stride: u32, formatHr: HResult,
                      guid: PixelFormatGuid, copyHr: HResult)
    : (r: Checked<(CopyPixelsArgs, Result<Status>)>)
    ensures r.Returns? <==>
      PixelFormatDesc(formatHr, guid).Some? &&
      CopyChecks(rect, len, stride, PixelFormatDesc(formatHr, guid).value.bitsPerPixel)
    ensures r.Returns? ==> r.value == UncheckedCopyPixels(rect, len, stride, copyHr)
  {
    var format := PixelFormatDesc(formatHr, guid);
    if format.None? then Panics
    else if !CopyChecks(rect, len, stride, format.value.bitsPerPixel) then Panics
    else Returns(UncheckedCopyPixels(rect, len, stride, copyHr))
  }

  /** For a rectangle the right way round, the checks mean what they promise: the buffer
      size sent is the exact length, the buffer holds every row, and each row of `stride`
      bytes holds every pixel. */
  lemma {:induction false} ChecksGuardBuffer(rect: Recti, len: nat, stride: u32, bitsPerPixel: nat)
    requires CopyChecks(rect, len, stride, bitsPerPixel)
    requires Width(rect) >= 0 && Height(rect) >= 0
    ensures len % TWO_32 == len
    ensures stride * Height(rect) <= len
    ensures stride * 8 >= Width(rect) * bitsPerPixel
  {
    var w: nat := Width(rect);
    assert TruncDiv(w * bitsPerPixel + 7, 8) == (w * bitsPerPixel + 7) / 8;
  }

  /** A rectangle with its edges swapped passes the stride check with any stride: for 32
      bits per pixel, a width of -1 asks for at least -3 bytes, rounded toward zero. */
  lemma {:induction false} SwappedRectPassesStrideCheck()
    ensures TruncDiv(Width(Recti(1, 0, 0, 1)) * 32 + 7, 8) == -3
    ensures CopyChecks(Recti(1, 0, 0, 1), 0, 0, 32)
  {
  }
}
