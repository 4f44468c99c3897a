/** `EmptyBuilder` (`wic::bitmap::builder::empty`): a by-value builder for a new, blank
    bitmap of a given size and pixel format. The factory is not modelled. */
module EmptyBuilders {
  import opened Wrappers
  import opened Ints
  import opened Errors
  import opened WicTypes
  import opened PixelFormats
  import opened ComHelpers

  datatype EmptyBuilder = EmptyBuilder(
    size: Option<Sizeu>,
    format: Option<PixelFormatGuid>,
    cache: BitmapCreateCacheOption)

  /** `new`: no size, no format, and `NoCache`. */
  function New(): (b: EmptyBuilder)
    ensures b.size.None? && b.format.None? && b.cache == NoCache
  {
    EmptyBuilder(None, None, NoCache)
  }

  /** `with_size`: set the size, keep the rest. */
  function WithSize(b: EmptyBuilder, size: Sizeu): (r: EmptyBuilder)
    ensures r.size == Some(size) && r.format == b.format && r.cache == b.cache
  {
    b.(size := Some(size))
  }

  /** `with_format`: set the format, keep the rest. */
  function WithFormat(b: EmptyBuilder, format: PixelFormatGuid): (r: EmptyBuilder)
    ensures r.format == Some(format) && r.size == b.size && r.cache == b.cache
  {
    b.(format := Some(format))
  }

  /** `with_cache_option`: replace the cache option, keep the rest. */
  function WithCacheOption(b: EmptyBuilder, option: BitmapCreateCacheOption): (r: EmptyBuilder)
    ensures r.cache == option && r.size == b.size && r.format == b.format
  {
    b.(cache := option)
  }

  /** The arguments of `IWICImagingFactory::CreateBitmap`. */
  datatype CreateArgs = CreateArgs(width: u32, height: u32, format: PixelFormatGuid, option: u32)

  /** `build`: panic if the size or the format is missing; otherwise create the bitmap with
      the stored size, format and cache option, and wrap the returned pointer only when the
      code `hr` is a success, `from_raw` panicking on a null one. */
  function Build(b: EmptyBuilder, hr: HResult, ptr: nat): (r: Checked<(CreateArgs, Result<Wrapper>)>)
    ensures r.Panics? <==> b.size.None? || b.format.None? || (Succeeded(hr) && ptr == NULL)
    ensures r.Returns? ==>
      r.value.0 == CreateArgs(b.size.value.width, b.size.value.height, b.format.value, CacheValue(b.cache))
    ensures r.Returns? && IsFailure(hr) ==> r.value.1 == Err(Error(hr))
    ensures r.Returns? && Succeeded(hr) ==> ptr != NULL && r.value.1 == Ok(Wrapper(ptr))
  {
    if b.size.None? || b.format.None? then Panics
    else
      var args := CreateArgs(b.size.value.width, b.size.value.height, b.format.value, CacheValue(b.cache));
      match MapIf(hr, () => WrapCom(ptr))
      case Returns(result) => Returns((args, result))
      case Panics => Panics
  }

  /** A builder given a size and a format panics only on a null bitmap, in whichever
      order they were set and whatever else was set, and sends the last cache option set,
      `NoCache` if none. */
  lemma {:induction false} SizeAndFormatSuffice(size: Sizeu, format: PixelFormatGuid,
                                                option: BitmapCreateCacheOption,
                                                hr: HResult, ptr: nat)
    ensures var b := WithFormat(WithSize(New(), size), format);
      (Build(b, hr, ptr).Returns? <==> IsFailure(hr) || ptr != NULL) &&
      (Build(b, hr, ptr).Returns? ==> Build(b, hr, ptr).value.0 == CreateArgs(size.width, size.height, format, 0))
    ensures WithFormat(WithSize(New(), size), format) == WithSize(WithFormat(New(), format), size)
    ensures var b := WithCacheOption(WithFormat(WithSize(New(), size), format), option);
      (Build(b, hr, ptr).Returns? <==> IsFailure(hr) || ptr != NULL) &&
      (Build(b, hr, ptr).Returns? ==>
        Build(b, hr, ptr).value.0 == CreateArgs(size.width, size.height, format, CacheValue(option)))
  {
  }

  /** Without a size or a format, `build` panics. */
  lemma {:induction false} MissingFieldPanics(b: EmptyBuilder, hr: HResult, ptr: nat)
    requires b.size.None? || b.format.None?
    ensures Build(b, hr, ptr).Panics?
  {
  }
}
