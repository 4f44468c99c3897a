/** The plain values the WIC builders and bitmap sources pass around: `math2d`'s sizes and
    rectangles and `BitmapCreateCacheOption`. */
module WicTypes {
  import opened Ints

  /** `math2d::Sizeu`. */
  datatype Sizeu = Sizeu(width: u32, height: u32)

  /** `math2d::Recti`, by its four edges. */
  datatype Recti = Recti(left: i32, top: i32, right: i32, bottom: i32)

  /** `Recti::width` and `Recti::height`: the distance between opposite edges, negative
      when the edges are the wrong way round. */
  function Width(r: Recti): (w: int)
    ensures w > 0 <==> r.right > r.left
  {
    r.right - r.left
  }

  function Height(r: Recti): (h: int)
    ensures h > 0 <==> r.bottom > r.top
  {
    r.bottom - r.top
  }

  /** `BitmapCreateCacheOption`. */
  datatype BitmapCreateCacheOption = NoCache | CacheOnDemand | CacheOnLoad

  /** The option's `u32` value (`option as u32`). */
  function CacheValue(option: BitmapCreateCacheOption): (v: u32)
    ensures v <= 2
    ensures v == 0 <==> option == NoCache
  {
    match option
    case NoCache => 0
    case CacheOnDemand => 1
    case CacheOnLoad => 2
  }

  /** Different options are sent as different values. */
  lemma {:induction false} CacheValueInjective(a: BitmapCreateCacheOption, b: BitmapCreateCacheOption)
    requires CacheValue(a) == CacheValue(b)
    ensures a == b
  {
  }

  /** Rust's truncating `/` on signed integers (`isize`), which rounds toward zero where
      Dafny's rounds down. */
  function TruncDiv(a: int, d: nat): (q: int)
    requires d > 0
    ensures a >= 0 ==> q == a / d
    ensures a < 0 ==> q == -((-a) / d)
    ensures a >= 0 ==> q * d <= a < q * d + d
    ensures a < 0 ==> q * d - d < a <= q * d
  {
    if a >= 0 then a / d else -((-a) / d)
  }
}
