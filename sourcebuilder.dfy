/** `SourceBuilder` (`wic::bitmap::builder::source`): a by-value builder for a bitmap
    copied from a bitmap source, either whole with a cache option or cut to a rectangle.
    The source is kept as its raw interface pointer; the factory is not modelled. */
module SourceBuilders {
  import opened Wrappers
  import opened Ints
  import opened Errors
  import opened WicTypes
  import opened ComHelpers

  datatype SourceBuilder = SourceBuilder(
    source: nat,
    cache: Option<BitmapCreateCacheOption>,
    rect: Option<Recti>)

  /** The assertion of `with_rect`: a rectangle starting at non-negative coordinates with
      a positive width and height. */
  predicate PositiveRect(r: Recti) {
    r.left >= 0 && r.top >= 0 && Width(r) > 0 && Height(r) > 0
  }

  /** What the builder's private fields can hold: only `with_rect` stores a rectangle. */
  predicate Reachable(b: SourceBuilder) {
    b.rect.Some? ==> PositiveRect(b.rect.value)
  }

  /** `new`: no cache option and no rectangle. */
  function New(source: nat): (b: SourceBuilder)
    ensures b.source == source && b.cache.None? && b.rect.None?
    ensures Reachable(b)
  {
    SourceBuilder(source, None, None)
  }

  /** `with_cache_option`: set the cache option, keep the rest. */
  function WithCacheOption(b: SourceBuilder, option: BitmapCreateCacheOption): (r: SourceBuilder)
    ensures r.cache == Some(option) && r.source == b.source && r.rect == b.rect
    ensures Reachable(b) ==> Reachable(r)
  {
    b.(cache := Some(option))
  }

  /** `with_rect`: panic unless the rectangle is positive, then store it. */
  function WithRect(b: SourceBuilder, rect: Recti): (r: Checked<SourceBuilder>)
    ensures r.Panics? <==> !PositiveRect(rect)
    ensures r.Returns? ==> r.value.rect == Some(rect) && r.value.source == b.source &&
                           r.value.cache == b.cache
    ensures r.Returns? && Reachable(b) ==> Reachable(r.value)
  {
    if PositiveRect(rect) then Returns(b.(rect := Some(rect))) else Panics
  }

  /** The two factory calls `build` can make. */
  datatype SourceCall =
    | FromSourceRect(source: nat, x: u32, y: u32, width: u32, height: u32)
    | FromSource(source: nat, option: u32)

  /** `build`: panic when both a cache option and a rectangle are set; with only a
      rectangle, copy that rectangle of the source; otherwise copy the whole source with
      the cache option, `NoCache` when none was set. The returned pointer is wrapped only
      when the code `hr` is a success, and `from_raw` panics on a null one. */
  function Build(b: SourceBuilder, hr: HResult, ptr: nat): (r: Checked<(SourceCall, Result<Wrapper>)>)
    requires Reachable(b)
    ensures r.Panics? <==> (b.cache.Some? && b.rect.Some?) || (Succeeded(hr) && ptr == NULL)
    ensures r.Returns? && b.rect.Some? ==>
      var rect := b.rect.value;
      r.value.0 == FromSourceRect(b.source, rect.left as u32, rect.top as u32,
                                  Width(rect) as u32, Height(rect) as u32)
    ensures r.Returns? && b.rect.None? && b.cache.Some? ==>
      r.value.0 == FromSource(b.source, CacheValue(b.cache.value))
    ensures r.Returns? && b.rect.None? && b.cache.None? ==>
      r.value.0 == FromSource(b.source, CacheValue(NoCache))
    ensures r.Returns? && IsFailure(hr) ==> r.value.1 == Err(Error(hr))
    ensures r.Returns? && Succeeded(hr) ==> ptr != NULL && r.value.1 == Ok(Wrapper(ptr))
  {
    var call :=
      match (b.cache, b.rect)
      case (Some(_), Some(_)) => Panics
      case (None, Some(rect)) =>
        Returns(FromSourceRect(b.source, rect.left as u32, rect.top as u32,
                               Width(rect) as u32, Height(rect) as u32))
      case (cache, None) =>
        var option := match cache case Some(o) => o case None => NoCache;
        Returns(FromSource(b.source, CacheValue(option)));
    match call
    case Panics => Panics
    case Returns(c) =>
      match MapIf(hr, () => WrapCom(ptr))
      case Returns(result) => Returns((c, result))
      case Panics => Panics
  }

  /** Setting both a cache option and a rectangle, in either order, makes `build` panic;
      setting only a rectangle copies exactly that rectangle, whenever a bitmap comes
      back. */
  lemma {:induction false} RectAndCacheExclusive(source: nat, rect: Recti,
                                                 option: BitmapCreateCacheOption,
                                                 hr: HResult, ptr: nat)
    requires PositiveRect(rect)
    ensures Build(WithRect(WithCacheOption(New(source), option), rect).value, hr, ptr).Panics?
    ensures Build(WithCacheOption(WithRect(New(source), rect).value, option), hr, ptr).Panics?
    ensures var only := WithRect(New(source), rect).value;
      (Build(only, hr, ptr).Returns? <==> IsFailure(hr) || ptr != NULL) &&
      (Build(only, hr, ptr).Returns? ==>
        Build(only, hr, ptr).value.0 == FromSourceRect(source, rect.left as u32, rect.top as u32,
                                                       Width(rect) as u32, Height(rect) as u32))
  {
  }
}
