/** `MemoryBuilder` (`wic::bitmap::builder::memory`): a by-value builder for a bitmap made
    from a caller's pixel buffer. The factory the builder borrows is the target of the
    final foreign call and is not modelled; the call's code and the pointer it returns
    are inputs of `Build`. */
module MemoryBuilders {
  import opened Wrappers
  import opened Ints
  import opened Errors
  import opened WicTypes
  import opened PixelFormats
  import opened ComHelpers

  const U32_MAX: nat := 0xFFFF_FFFF

  /** The buffer and its stride, as `with_data` stores them. */
  datatype PixelData = PixelData(data: seq<u8>, stride: u32)

  datatype MemoryBuilder = MemoryBuilder(
    size: Option<Sizeu>,
    format: Option<PixelFormatGuid>,
    data: Option<PixelData>)

  /** `new`: nothing is set. */
  function New(): (b: MemoryBuilder)
    ensures b.size.None? && b.format.None? && b.data.None?
  {
    MemoryBuilder(None, None, None)
  }

  /** `with_size`: set the size, keep the rest. */
  function WithSize(b: MemoryBuilder, size: Sizeu): (r: MemoryBuilder)
    ensures r.size == Some(size) && r.format == b.format && r.data == b.data
  {
    b.(size := Some(size))
  }

  /** `with_format`: set the format, keep the rest. */
  function WithFormat(b: MemoryBuilder, format: PixelFormatGuid): (r: MemoryBuilder)
    ensures r.format == Some(format) && r.size == b.size && r.data == b.data
  {
    b.(format := Some(format))
  }

  /** The bytes one row of `width` pixels of `bitsPerPixel` bits needs, rounded up. */
  function RowBytes(width: nat, bitsPerPixel: nat): (n: nat)
    ensures n * 8 >= width * bitsPerPixel
    ensures n * 8 < width * bitsPerPixel + 8
  {
    (width * bitsPerPixel + 7) / 8
  }

  /** The three assertions of `with_data`: the buffer's length fits a `u32` below its
      maximum, the buffer holds `height` rows of `stride` bytes, and a row of `stride`
      bytes holds `width` pixels. */
  predicate BufferFits(len: nat, stride: nat, size: Sizeu, bitsPerPixel: nat) {
    len < U32_MAX &&
    len >= stride * size.height &&
    stride >= RowBytes(size.width, bitsPerPixel)
  }

  /** `with_data_unchecked`: store the buffer and stride, keep the rest. */
  function WithDataUnchecked(b: MemoryBuilder, data: seq<u8>, stride: u32): (r: MemoryBuilder)
    ensures r.data == Some(PixelData(data, stride)) && r.size == b.size && r.format == b.format
  {
    b.(data := Some(PixelData(data, stride)))
  }

  /** `with_data`: panic unless the size and a format with a table description were set
      earlier and the buffer passes the checks for them; then `with_data_unchecked`. */
  function WithData(b: MemoryBuilder, data: seq<u8>, stride: u32): (r: Checked<MemoryBuilder>)
    ensures r.Returns? <==>
      b.size.Some? && b.format.Some? && Description(b.format.value).Some? &&
      BufferFits(|data|, stride, b.size.value, Description(b.format.value).value.bitsPerPixel)
    ensures r.Returns? ==> r.value == WithDataUnchecked(b, data, stride)
  {
    if b.size.None? || b.format.None? then Panics
    else
      var desc := Description(b.format.value);
      if desc.None? then Panics
      else if !BufferFits(|data|, stride, b.size.value, desc.value.bitsPerPixel) then Panics
      else Returns(WithDataUnchecked(b, data, stride))
  }

  /** The arguments of `IWICImagingFactory::CreateBitmapFromMemory`. */
  datatype FromMemoryArgs = FromMemoryArgs(width: u32, height: u32, format: PixelFormatGuid,
                                           stride: u32, bufferSize: u32, data: seq<u8>)

  /** `build`: panic if the size, the format or the data is missing; otherwise create the
      bitmap from the stored values, with the buffer's length cast to `u32` as its size,
      and wrap the returned pointer only when the code `hr` is a success (`from_raw`
      panics on a null pointer). */
  function Build(b: MemoryBuilder, hr: HResult, ptr: nat)
    : (r: Checked<(FromMemoryArgs, Result<Wrapper>)>)
    ensures r.Panics? <==> b.size.None? || b.format.None? || b.data.None? ||
                           (Succeeded(hr) && ptr == NULL)
    ensures r.Returns? ==> r.value.0 == FromMemoryArgs(
      b.size.value.width, b.size.value.height, b.format.value,
      b.data.value.stride, |b.data.value.data| % TWO_32, b.data.value.data)
    ensures r.Returns? && IsFailure(hr) ==> r.value.1 == Err(Error(hr))
    ensures r.Returns? && Succeeded(hr) ==> ptr != NULL && r.value.1 == Ok(Wrapper(ptr))
  {
    if b.size.None? || b.format.None? || b.data.None? then Panics
    else
      var call := MapIf(hr, () => WrapCom(ptr));
      var args := FromMemoryArgs(b.size.value.width, b.size.value.height, b.format.value,
                                 b.data.value.stride, |b.data.value.data| % TWO_32,
                                 b.data.value.data);
      match call
      case Returns(result) => Returns((args, result))
      case Panics => Panics
  }

  /** `with_data` before the size or the format panics, whatever the buffer. */
  lemma {:induction false} DataNeedsSizeAndFormat(b: MemoryBuilder, data: seq<u8>, stride: u32)
    requires b.size.None? || b.format.None?
    ensures WithData(b, data, stride).Panics?
  {
  }

  /** The setters touch disjoint fields, so they commute. */
  lemma {:induction false} SettersCommute(b: MemoryBuilder, size: Sizeu, format: PixelFormatGuid,
                                          data: seq<u8>, stride: u32)
    ensures WithFormat(WithSize(b, size), format) == WithSize(WithFormat(b, format), size)
    ensures WithDataUnchecked(WithSize(b, size), data, stride) ==
            WithSize(WithDataUnchecked(b, data, stride), size)
    ensures WithDataUnchecked(WithFormat(b, format), data, stride) ==
            WithFormat(WithDataUnchecked(b, data, stride), format)
  {
  }

  /** The checked chain `new().with_size(s).with_format(f).with_data(d, st).build()`: when
      `with_data` accepts, `build` panics only on a null bitmap, sends the size, format and stride it was
      given, and sends the exact buffer length, which fits a `u32`; the buffer then holds
      every row the bitmap needs. */
  lemma {:induction false} CheckedChainBuilds(size: Sizeu, format: PixelFormatGuid, data: seq<u8>,
                                              stride: u32, hr: HResult, ptr: nat)
    requires WithData(WithFormat(WithSize(New(), size), format), data, stride).Returns?
    ensures var b := WithData(WithFormat(WithSize(New(), size), format), data, stride).value;
      (Build(b, hr, ptr).Returns? <==> IsFailure(hr) || ptr != NULL) &&
      (Build(b, hr, ptr).Returns? ==>
        Build(b, hr, ptr).value.0 == FromMemoryArgs(size.width, size.height, format, stride, |data|, data))
    ensures var bpp := Description(format).value.bitsPerPixel;
      |data| >= stride * size.height && stride * 8 >= size.width * bpp
  {
    var b := WithData(WithFormat(WithSize(New(), size), format), data, stride).value;
    assert b == MemoryBuilder(Some(size), Some(format), Some(PixelData(data, stride)));
    FitsMeansRows(|data|, stride, size, Description(format).value.bitsPerPixel);
  }

  /** A buffer that passes the checks holds every row, each row holds every pixel, and
      its length is exact as a `u32`. */
  lemma {:induction false} FitsMeansRows(len: nat, stride: nat, size: Sizeu, bitsPerPixel: nat)
    requires BufferFits(len, stride, size, bitsPerPixel)
    ensures len >= stride * size.height
    ensures stride * 8 >= size.width * bitsPerPixel
    ensures len % TWO_32 == len
  {
    assert stride * 8 >= RowBytes(size.width, bitsPerPixel) * 8;
  }
}
