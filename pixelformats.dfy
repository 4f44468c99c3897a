/** Pixel-format descriptions (`wic::descriptions::pixel_format`): a static table pairing
    the native WIC pixel-format GUIDs with their layout, searched by GUID. A GUID is
    modelled by the name of its WIC constant; two GUIDs are equal exactly when their
    names are. */
module PixelFormats {
  import opened Wrappers
  import opened Ints

  /** A pixel-format GUID, by the name of its `GUID_WICPixelFormat...` constant. */
  datatype PixelFormatGuid = PixelFormatGuid(name: string)

  datatype BitsPerChannel = Uniform(bits: u16) | PerChannel(c0: u16, c1: u16, c2: u16, c3: u16)

  datatype StorageType = Unsigned | Float | Fixed

  /** The flags of `Category`; a category is the set of its flags, `NONE` the empty one. */
  datatype CategoryFlag = Rgb | Bgr | Grayscale | Alpha | Packed | Indexed | Premultiplied | Cmyk | NChannel
  type Category = set<CategoryFlag>

  /** The `dxgi::enums::Format` values the table uses. */
  datatype DxgiFormat =
    | Unknown | R8Unorm | R16Unorm | R16Float | R32Float | B5G6R5Unorm | B5G5R5A1Unorm
    | R10G10B10A2Unorm | R8G8B8A8Unorm | B8G8R8A8Unorm | R16G16B16A16Unorm
    | R16G16B16A16Float | R32G32B32A32Float

  datatype PixelFormatDescription = PixelFormatDescription(
    labelName: string,
    description: string,
    channelCount: u16,
    bitsPerChannel: BitsPerChannel,
    bitsPerPixel: u16,
    storageType: StorageType,
    category: Category,
    dxgiFormat: DxgiFormat)

  /** `define_desc`: a description whose channels all have `bpc` bits. */
  function DefineDesc(labelName: string, description: string, channelCount: u16, bpc: u16,
                      bitsPerPixel: u16, storageType: StorageType, category: Category,
                      dxgiFormat: DxgiFormat): (d: PixelFormatDescription)
    ensures d.bitsPerChannel == Uniform(bpc)
    ensures d.labelName == labelName && d.description == description && d.channelCount == channelCount
    ensures d.bitsPerPixel == bitsPerPixel && d.storageType == storageType
    ensures d.category == category && d.dxgiFormat == dxgiFormat
  {
    PixelFormatDescription(labelName, description, channelCount, Uniform(bpc), bitsPerPixel,
                           storageType, category, dxgiFormat)
  }

  /** `define_desc_p`: a description listing the bits of each of four channels. */
  function DefineDescP(labelName: string, description: string, channelCount: u16,
                       bpc0: u16, bpc1: u16, bpc2: u16, bpc3: u16, bitsPerPixel: u16,
                       storageType: StorageType, category: Category,
                       dxgiFormat: DxgiFormat): (d: PixelFormatDescription)
    ensures d.bitsPerChannel == PerChannel(bpc0, bpc1, bpc2, bpc3)
    ensures d.labelName == labelName && d.description == description && d.channelCount == channelCount
    ensures d.bitsPerPixel == bitsPerPixel && d.storageType == storageType
    ensures d.category == category && d.dxgiFormat == dxgiFormat
  {
    PixelFormatDescription(labelName, description, channelCount,
                           PerChannel(bpc0, bpc1, bpc2, bpc3), bitsPerPixel,
                           storageType, category, dxgiFormat)
  }

  /** Entries 1 to 15 of `NATIVE_PIXEL_FORMATS`. */
  const FORMATS_0: seq<(PixelFormatGuid, PixelFormatDescription)> := [
    (PixelFormatGuid("GUID_WICPixelFormatDontCare"),
     PixelFormatDescription("GUID_WICPixelFormatDontCare", "Format Unknown/Don't Care", 0, Uniform(0), 0, Unsigned, {}, Unknown)),
    (PixelFormatGuid("GUID_WICPixelFormat1bppIndexed"),
     PixelFormatDescription("GUID_WICPixelFormat1bppIndexed", "Palette Indexed 1bpp", 1, Uniform(1), 1, Unsigned, {Indexed}, Unknown)),
    (PixelFormatGuid("GUID_WICPixelFormat2bppIndexed"),
     PixelFormatDescription("GUID_WICPixelFormat2bppIndexed", "Palette Indexed 2bpp", 1, Uniform(2), 2, Unsigned, {Indexed}, Unknown)),
    (PixelFormatGuid("GUID_WICPixelFormat4bppIndexed"),
     PixelFormatDescription("GUID_WICPixelFormat4bppIndexed", "Palette Indexed 4bpp", 1, Uniform(4), 4, Unsigned, {Indexed}, Unknown)),
    (PixelFormatGuid("GUID_WICPixelFormat8bppIndexed"),
     PixelFormatDescription("GUID_WICPixelFormat8bppIndexed", "Palette Indexed 8bpp", 1, Uniform(8), 8, Unsigned, {Indexed}, Unknown)),
    (PixelFormatGuid("GUID_WICPixelFormat16bppBGR555"),
     PixelFormatDescription("GUID_WICPixelFormat16bppBGR555", "Packed 16bpp BGR 5,5,5", 3, Uniform(5), 16, Unsigned, {Packed, Bgr}, Unknown)),
    (PixelFormatGuid("GUID_WICPixelFormat16bppBGR565"),
     PixelFormatDescription("GUID_WICPixelFormat16bppBGR565", "Packed 16bpp BGR 5,6,5", 3, PerChannel(5, 6, 5, 0), 16, Unsigned, {Packed, Bgr}, B5G6R5Unorm)),
    (PixelFormatGuid("GUID_WICPixelFormat16bppBGRA5551"),
     PixelFormatDescription("GUID_WICPixelFormat16bppBGRA5551", "Packed 16bpp BGRA 5,5,5,1", 4, PerChannel(5, 5, 5, 1), 16, Unsigned, {Packed, Bgr, Alpha}, B5G5R5A1Unorm)),
    (PixelFormatGuid("GUID_WICPixelFormat32bppBGR101010"),
     PixelFormatDescription("GUID_WICPixelFormat32bppBGR101010", "Packed 32bpp BGR 10,10,10", 3, Uniform(10), 32, Unsigned, {Packed, Bgr}, Unknown)),
    (PixelFormatGuid("GUID_WICPixelFormat32bppRGBA1010102"),
     PixelFormatDescription("GUID_WICPixelFormat32bppRGBA1010102", "Packed 32bpp RGBA 10,10,10,2", 3, PerChannel(10, 10, 10, 2), 32, Unsigned, {Packed, Rgb, Alpha}, R10G10B10A2Unorm)),
    (PixelFormatGuid("GUID_WICPixelFormat32bppRGBA1010102XR"),
     PixelFormatDescription("GUID_WICPixelFormat32bppRGBA1010102XR", "Packed 32bpp RGBA 10,10,10,2 XR", 3, PerChannel(10, 10, 10, 2), 32, Unsigned, {Packed, Rgb, Alpha}, Unknown)),
    (PixelFormatGuid("GUID_WICPixelFormatBlackWhite"),
     PixelFormatDescription("GUID_WICPixelFormatBlackWhite", "Black and White 1bpp", 1, Uniform(1), 1, Unsigned, {Grayscale}, Unknown)),
    (PixelFormatGuid("GUID_WICPixelFormat2bppGray"),
     PixelFormatDescription("GUID_WICPixelFormat2bppGray", "Grayscale 2bpp", 1, Uniform(2), 2, Unsigned, {Grayscale}, Unknown)),
    (PixelFormatGuid("GUID_WICPixelFormat4bppGray"),
     PixelFormatDescription("GUID_WICPixelFormat4bppGray", "Grayscale 4bpp", 1, Uniform(4), 4, Unsigned, {Grayscale}, Unknown)),
    (PixelFormatGuid("GUID_WICPixelFormat8bppGray"),
     PixelFormatDescription("GUID_WICPixelFormat8bppGray", "Grayscale 8bpp", 1, Uniform(8), 8, Unsigned, {Grayscale}, R8Unorm))
  ]

  /** Entries 16 to 30 of `NATIVE_PIXEL_FORMATS`. */
  const FORMATS_1: seq<(PixelFormatGuid, PixelFormatDescription)> := [
    (PixelFormatGuid("GUID_WICPixelFormat16bppGray"),
     PixelFormatDescription("GUID_WICPixelFormat16bppGray", "Grayscale 16bpp", 1, Uniform(16), 16, Unsigned, {Grayscale}, R16Unorm)),
    (PixelFormatGuid("GUID_WICPixelFormat16bppGrayFixedPoint"),
     PixelFormatDescription("GUID_WICPixelFormat16bppGrayFixedPoint", "Grayscale 16bpp Fixed-Point", 1, Uniform(16), 16, Fixed, {Grayscale}, Unknown)),
    (PixelFormatGuid("GUID_WICPixelFormat16bppGrayHalf"),
     PixelFormatDescription("GUID_WICPixelFormat16bppGrayHalf", "Grayscale 16bpp Half-Float", 1, Uniform(16), 16, Float, {Grayscale}, R16Float)),
    (PixelFormatGuid("GUID_WICPixelFormat32bppGrayFloat"),
     PixelFormatDescription("GUID_WICPixelFormat32bppGrayFloat", "Grayscale 32bpp Float", 1, Uniform(32), 32, Float, {Grayscale}, R32Float)),
    (PixelFormatGuid("GUID_WICPixelFormat32bppGrayFixedPoint"),
     PixelFormatDescription("GUID_WICPixelFormat32bppGrayFixedPoint", "Grayscale 32bpp Fixed-Point", 1, Uniform(32), 32, Fixed, {Grayscale}, Unknown)),
    (PixelFormatGuid("GUID_WICPixelFormat24bppRGB"),
     PixelFormatDescription("GUID_WICPixelFormat24bppRGB", "RGB 24bpp", 3, Uniform(8), 24, Unsigned, {Rgb}, Unknown)),
    (PixelFormatGuid("GUID_WICPixelFormat24bppBGR"),
     PixelFormatDescription("GUID_WICPixelFormat24bppBGR", "BGR 24bpp", 3, Uniform(8), 24, Unsigned, {Bgr}, Unknown)),
    (PixelFormatGuid("GUID_WICPixelFormat32bppBGR"),
     PixelFormatDescription("GUID_WICPixelFormat32bppBGR", "BGR 32bpp", 3, Uniform(8), 32, Unsigned, {Bgr}, Unknown)),
    (PixelFormatGuid("GUID_WICPixelFormat32bppRGBA"),
     PixelFormatDescription("GUID_WICPixelFormat32bppRGBA", "RGBA 32bpp", 4, Uniform(8), 32, Unsigned, {Rgb, Alpha}, R8G8B8A8Unorm)),
    (PixelFormatGuid("GUID_WICPixelFormat32bppBGRA"),
     PixelFormatDescription("GUID_WICPixelFormat32bppBGRA", "BGRA 32bpp", 4, Uniform(8), 32, Unsigned, {Bgr, Alpha}, B8G8R8A8Unorm)),
    (PixelFormatGuid("GUID_WICPixelFormat32bppRGBE"),
     PixelFormatDescription("GUID_WICPixelFormat32bppRGBE", "RGB Packed Half-Float (Shared Exponent) 32bpp", 4, Uniform(8), 32, Float, {Rgb, Packed}, Unknown)),
    (PixelFormatGuid("GUID_WICPixelFormat32bppPRGBA"),
     PixelFormatDescription("GUID_WICPixelFormat32bppPRGBA", "RGBA 32bpp Premultiplied Alpha", 4, Uniform(8), 32, Unsigned, {Rgb, Alpha, Premultiplied}, R8G8B8A8Unorm)),
    (PixelFormatGuid("GUID_WICPixelFormat32bppPBGRA"),
     PixelFormatDescription("GUID_WICPixelFormat32bppPBGRA", "BGRA 32bpp Premultiplied Alpha", 4, Uniform(8), 32, Unsigned, {Bgr, Alpha, Premultiplied}, B8G8R8A8Unorm)),
    (PixelFormatGuid("GUID_WICPixelFormat48bppRGB"),
     PixelFormatDescription("GUID_WICPixelFormat48bppRGB", "RGB 48bpp", 3, Uniform(16), 48, Unsigned, {Rgb}, Unknown)),
    (PixelFormatGuid("GUID_WICPixelFormat48bppBGR"),
     PixelFormatDescription("GUID_WICPixelFormat48bppBGR", "BGR 48bpp", 3, Uniform(16), 48, Unsigned, {Bgr}, Unknown))
  ]

  /** Entries 31 to 45 of `NATIVE_PIXEL_FORMATS`. */
  const FORMATS_2: seq<(PixelFormatGuid, PixelFormatDescription)> := [
    (PixelFormatGuid("GUID_WICPixelFormat48bppRGBFixedPoint"),
     PixelFormatDescription("GUID_WICPixelFormat48bppRGBFixedPoint", "RGB 48bpp Fixed-Point", 3, Uniform(16), 48, Fixed, {Rgb}, Unknown)),
    (PixelFormatGuid("GUID_WICPixelFormat48bppBGRFixedPoint"),
     PixelFormatDescription("GUID_WICPixelFormat48bppBGRFixedPoint", "BGR 48bpp Fixed-Point", 3, Uniform(16), 48, Fixed, {Bgr}, Unknown)),
    (PixelFormatGuid("GUID_WICPixelFormat48bppRGBHalf"),
     PixelFormatDescription("GUID_WICPixelFormat48bppRGBHalf", "RGB 48bpp Half-Float", 3, Uniform(16), 48, Float, {Rgb}, Unknown)),
    (PixelFormatGuid("GUID_WICPixelFormat64bppRGBA"),
     PixelFormatDescription("GUID_WICPixelFormat64bppRGBA", "RGBA 64bpp", 4, Uniform(16), 64, Unsigned, {Rgb, Alpha}, R16G16B16A16Unorm)),
    (PixelFormatGuid("GUID_WICPixelFormat64bppBGRA"),
     PixelFormatDescription("GUID_WICPixelFormat64bppBGRA", "BGRA 64bpp", 4, Uniform(16), 64, Unsigned, {Bgr, Alpha}, R16G16B16A16Unorm)),
    (PixelFormatGuid("GUID_WICPixelFormat64bppPRGBA"),
     PixelFormatDescription("GUID_WICPixelFormat64bppPRGBA", "RGBA 64bpp Premultiplied Alpha", 4, Uniform(16), 64, Unsigned, {Rgb, Alpha, Premultiplied}, R16G16B16A16Unorm)),
    (PixelFormatGuid("GUID_WICPixelFormat64bppPBGRA"),
     PixelFormatDescription("GUID_WICPixelFormat64bppPBGRA", "BGRA 64bpp", 4, Uniform(16), 64, Unsigned, {Bgr, Alpha, Premultiplied}, Unknown)),
    (PixelFormatGuid("GUID_WICPixelFormat64bppRGBFixedPoint"),
     PixelFormatDescription("GUID_WICPixelFormat64bppRGBFixedPoint", "RGB 64bpp Fixed-Point", 3, Uniform(16), 64, Fixed, {Rgb}, Unknown)),
    (PixelFormatGuid("GUID_WICPixelFormat64bppRGBAFixedPoint"),
     PixelFormatDescription("GUID_WICPixelFormat64bppRGBAFixedPoint", "RGBA 64bpp Fixed-Point", 4, Uniform(16), 64, Fixed, {Rgb, Alpha}, Unknown)),
    (PixelFormatGuid("GUID_WICPixelFormat64bppBGRAFixedPoint"),
     PixelFormatDescription("GUID_WICPixelFormat64bppBGRAFixedPoint", "BGRA 64bpp Fixed-Point", 4, Uniform(16), 64, Fixed, {Bgr, Alpha}, Unknown)),
    (PixelFormatGuid("GUID_WICPixelFormat64bppRGBHalf"),
     PixelFormatDescription("GUID_WICPixelFormat64bppRGBHalf", "RGB 64bpp Half-Float", 3, Uniform(16), 64, Float, {Rgb}, Unknown)),
    (PixelFormatGuid("GUID_WICPixelFormat64bppRGBAHalf"),
     PixelFormatDescription("GUID_WICPixelFormat64bppRGBAHalf", "RGBA 64bpp Half-Float", 4, Uniform(16), 64, Float, {Rgb, Alpha}, R16G16B16A16Float)),
    (PixelFormatGuid("GUID_WICPixelFormat96bppRGBFixedPoint"),
     PixelFormatDescription("GUID_WICPixelFormat96bppRGBFixedPoint", "RGB 96bpp Fixed-Point", 3, Uniform(32), 96, Fixed, {Rgb}, Unknown)),
    (PixelFormatGuid("GUID_WICPixelFormat128bppRGBFloat"),
     PixelFormatDescription("GUID_WICPixelFormat128bppRGBFloat", "RGB 128bpp Float", 3, Uniform(32), 128, Float, {Rgb}, Unknown)),
    (PixelFormatGuid("GUID_WICPixelFormat128bppRGBAFloat"),
     PixelFormatDescription("GUID_WICPixelFormat128bppRGBAFloat", "RGBA 128bpp Float", 4, Uniform(32), 128, Float, {Rgb, Alpha}, R32G32B32A32Float))
  ]

  /** Entries 46 to 58 of `NATIVE_PIXEL_FORMATS`. */
  const FORMATS_3: seq<(PixelFormatGuid, PixelFormatDescription)> := [
    (PixelFormatGuid("GUID_WICPixelFormat128bppPRGBAFloat"),
     PixelFormatDescription("GUID_WICPixelFormat128bppPRGBAFloat", "RGBA 128bpp Float, Premultiplied Alpha", 4, Uniform(32), 128, Float, {Rgb, Alpha, Premultiplied}, R32G32B32A32Float)),
    (PixelFormatGuid("GUID_WICPixelFormat128bppRGBFixedPoint"),
     PixelFormatDescription("GUID_WICPixelFormat128bppRGBFixedPoint", "RGB 128bpp Fixed-Point", 3, Uniform(32), 128, Fixed, {Rgb}, Unknown)),
    (PixelFormatGuid("GUID_WICPixelFormat128bppRGBAFixedPoint"),
     PixelFormatDescription("GUID_WICPixelFormat128bppRGBAFixedPoint", "RGBA 128bpp Fixed-Point", 4, Uniform(32), 128, Fixed, {Rgb, Alpha}, Unknown)),
    (PixelFormatGuid("GUID_WICPixelFormat32bppRGB"),
     PixelFormatDescription("GUID_WICPixelFormat32bppRGB", "RGB 32bpp", 3, Uniform(8), 32, Unsigned, {Rgb}, Unknown)),
    (PixelFormatGuid("GUID_WICPixelFormat64bppRGB"),
     PixelFormatDescription("GUID_WICPixelFormat64bppRGB", "RGB 64bpp", 3, Uniform(16), 64, Unsigned, {Rgb}, Unknown)),
    (PixelFormatGuid("GUID_WICPixelFormat96bppRGBFloat"),
     PixelFormatDescription("GUID_WICPixelFormat96bppRGBFloat", "RGB 64bpp Float", 3, Uniform(32), 96, Float, {Rgb}, Unknown)),
    (PixelFormatGuid("GUID_WICPixelFormat64bppPRGBAHalf"),
     PixelFormatDescription("GUID_WICPixelFormat64bppPRGBAHalf", "RGBA 64bpp Float, Premultiplied Alpha", 4, Uniform(16), 64, Float, {Rgb, Alpha, Premultiplied}, R16G16B16A16Float)),
    (PixelFormatGuid("GUID_WICPixelFormat32bppCMYK"),
     PixelFormatDescription("GUID_WICPixelFormat32bppCMYK", "CMYK 32bpp", 4, Uniform(8), 32, Unsigned, {Cmyk}, Unknown)),
    (PixelFormatGuid("GUID_WICPixelFormat64bppCMYK"),
     PixelFormatDescription("GUID_WICPixelFormat64bppCMYK", "CMYK 64bpp", 4, Uniform(16), 64, Unsigned, {Cmyk}, Unknown)),
    (PixelFormatGuid("GUID_WICPixelFormat40bppCMYKAlpha"),
     PixelFormatDescription("GUID_WICPixelFormat40bppCMYKAlpha", "CMYKA 40bpp", 5, Uniform(8), 40, Unsigned, {Cmyk, Alpha}, Unknown)),
    (PixelFormatGuid("GUID_WICPixelFormat80bppCMYKAlpha"),
     PixelFormatDescription("GUID_WICPixelFormat80bppCMYKAlpha", "CMYKA 80bpp", 5, Uniform(16), 80, Unsigned, {Cmyk, Alpha}, Unknown)),
    (PixelFormatGuid("GUID_WICPixelFormat24bpp3Channels"),
     PixelFormatDescription("GUID_WICPixelFormat24bpp3Channels", "3-Channel 24bpp", 3, Uniform(8), 24, Unsigned, {NChannel}, Unknown)),
    (PixelFormatGuid("GUID_WICPixelFormat48bpp3Channels"),
     PixelFormatDescription("GUID_WICPixelFormat48bpp3Channels", "3-Channel 48bpp", 3, Uniform(16), 48, Unsigned, {NChannel}, Unknown))
  ]

  /** `NATIVE_PIXEL_FORMATS`, in the source's order. Each entry is the record its
      `define_desc` or `define_desc_p` call builds, written out. */
  const NATIVE_PIXEL_FORMATS: seq<(PixelFormatGuid, PixelFormatDescription)> :=
    FORMATS_0 + FORMATS_1 + FORMATS_2 + FORMATS_3

  /** The index of the first entry of `table` whose GUID is `guid`, or `|table|` when
      there is none. */
  function FindEntry(table: seq<(PixelFormatGuid, PixelFormatDescription)>, guid: PixelFormatGuid)
    : (i: nat)
    ensures i <= |table|
    ensures forall j | 0 <= j < i :: table[j].0 != guid
    ensures i < |table| ==> table[i].0 == guid
    ensures i == |table| <==> forall j | 0 <= j < |table| :: table[j].0 != guid
  {
    if |table| == 0 then 0
    else if table[0].0 == guid then 0
    else
      var i := 1 + FindEntry(table[1..], guid);
      assert forall j | 1 <= j < |table| :: table[j] == table[1..][j - 1];
      i
  }

  /** The first match is the only index holding `guid` with none before it. */
  lemma FindEntryUnique(table: seq<(PixelFormatGuid, PixelFormatDescription)>,
                        guid: PixelFormatGuid, i: nat)
    requires i < |table| && table[i].0 == guid
    requires forall j | 0 <= j < i :: table[j].0 != guid
    ensures FindEntry(table, guid) == i
  {
  }

  /** `PixelFormat::description` on a table: the description paired with the first GUID
      equal to `guid`, or `None` when the table does not list it. */
  function FirstMatch(table: seq<(PixelFormatGuid, PixelFormatDescription)>, guid: PixelFormatGuid)
    : (d: Option<PixelFormatDescription>)
    ensures d.None? <==> forall j | 0 <= j < |table| :: table[j].0 != guid
    ensures d.Some? ==> exists i | 0 <= i < |table| ::
      table[i].0 == guid && d.value == table[i].1 && forall j | 0 <= j < i :: table[j].0 != guid
  {
    var i := FindEntry(table, guid);
    if i < |table| then Some(table[i].1) else None
  }

  /** `PixelFormat::description`: the first match in `NATIVE_PIXEL_FORMATS`. */
  function Description(guid: PixelFormatGuid): Option<PixelFormatDescription> {
    FirstMatch(NATIVE_PIXEL_FORMATS, guid)
  }

  /** The bits the channels of `d` take: the channel count times the common width, or
      the sum of the four listed widths. */
  function ChannelBits(d: PixelFormatDescription): (n: nat)
    ensures d.bitsPerChannel.Uniform? ==> n == d.channelCount * d.bitsPerChannel.bits
    ensures d.bitsPerChannel.PerChannel? ==> n == d.bitsPerChannel.c0 + d.bitsPerChannel.c1 +
                                                  d.bitsPerChannel.c2 + d.bitsPerChannel.c3
  {
    match d.bitsPerChannel
    case Uniform(b) => d.channelCount * b
    case PerChannel(b0, b1, b2, b3) => b0 + b1 + b2 + b3
  }

  /** An entry names its own GUID in its label, and its channels fit in its pixel (the
      rest of the pixel being padding). */
  predicate Consistent(e: (PixelFormatGuid, PixelFormatDescription)) {
    e.1.labelName == e.0.name && ChannelBits(e.1) <= e.1.bitsPerPixel
  }

  lemma {:induction false} Formats0Consistent()
    ensures forall i | 0 <= i < |FORMATS_0| :: Consistent(FORMATS_0[i])
  {
  }

  lemma {:induction false} Formats1Consistent()
    ensures forall i | 0 <= i < |FORMATS_1| :: Consistent(FORMATS_1[i])
  {
  }

  lemma {:induction false} Formats2Consistent()
    ensures forall i | 0 <= i < |FORMATS_2| :: Consistent(FORMATS_2[i])
  {
  }

  lemma {:induction false} Formats3Consistent()
    ensures forall i | 0 <= i < |FORMATS_3| :: Consistent(FORMATS_3[i])
  {
  }

  /** Every entry of the table is consistent, so `description` finds, for a listed GUID,
      a description labelled with that GUID's name. */
  lemma {:induction false} TableConsistent()
    ensures forall i | 0 <= i < |NATIVE_PIXEL_FORMATS| :: Consistent(NATIVE_PIXEL_FORMATS[i])
    ensures forall g: PixelFormatGuid :: Description(g).Some? ==> Description(g).value.labelName == g.name
  {
    Formats0Consistent();
    Formats1Consistent();
    Formats2Consistent();
    Formats3Consistent();
    var t := NATIVE_PIXEL_FORMATS;
    var a, b, c := FORMATS_0, FORMATS_1, FORMATS_2;
    forall i | 0 <= i < |t| ensures Consistent(t[i]) {
      if i < |a| {
        assert t[i] == a[i];
      } else if i < |a| + |b| {
        assert t[i] == b[i - |a|];
      } else if i < |a| + |b| + |c| {
        assert t[i] == c[i - |a| - |b|];
      } else {
        assert t[i] == FORMATS_3[i - |a| - |b| - |c|];
      }
    }
  }

  const DONT_CARE: PixelFormatGuid := PixelFormatGuid("GUID_WICPixelFormatDontCare")
  const BGRA_32: PixelFormatGuid := PixelFormatGuid("GUID_WICPixelFormat32bppBGRA")

  /** The first entry: "don't care" has no channels, no bits and no category. */
  lemma {:induction false} DontCareDescription()
    ensures Description(DONT_CARE) == Some(DefineDesc("GUID_WICPixelFormatDontCare",
      "Format Unknown/Don't Care", 0, 0, 0, Unsigned, {}, Unknown))
    ensures var d := Description(DONT_CARE).value;
      d.channelCount == 0 && d.bitsPerChannel == Uniform(0) && d.bitsPerPixel == 0 &&
      d.category == {} && d.dxgiFormat == Unknown && d.storageType == Unsigned
  {
    assert NATIVE_PIXEL_FORMATS[0] == FORMATS_0[0];
    FindEntryUnique(NATIVE_PIXEL_FORMATS, DONT_CARE, 0);
  }

  /** 32bpp BGRA: four 8-bit channels in 32 bits, blue-green-red with alpha, stored as
      DXGI's B8G8R8A8_UNORM. */
  lemma {:induction false} Bgra32Description()
    ensures Description(BGRA_32) == Some(DefineDesc("GUID_WICPixelFormat32bppBGRA",
      "BGRA 32bpp", 4, 8, 32, Unsigned, {Bgr, Alpha}, B8G8R8A8Unorm))
    ensures var d := Description(BGRA_32).value;
      d.channelCount == 4 && d.bitsPerChannel == Uniform(8) && d.bitsPerPixel == 32 &&
      d.category == {Bgr, Alpha} && d.dxgiFormat == B8G8R8A8Unorm && d.storageType == Unsigned
  {
    var t := NATIVE_PIXEL_FORMATS;
    assert t[24] == FORMATS_1[9];
    forall j | 0 <= j < 24 ensures t[j].0 != BGRA_32 {
      if j < 15 {
        assert t[j] == FORMATS_0[j];
      } else {
        assert t[j] == FORMATS_1[j - 15];
      }
    }
    FindEntryUnique(t, BGRA_32, 24);
  }
}
