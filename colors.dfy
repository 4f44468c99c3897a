/** `Color` (`wic::descriptions::color`): an ARGB colour packed into a 32-bit value, alpha
    in bits 24-31, red in 16-23, green in 8-15 and blue in 0-7. The getters, setters and
    constructors work on `value` with shifts and masks, written here on `bv32`. */
module Colors {

  datatype Channel = Alpha | Red | Green | Blue

  /** The getters `a`, `r`, `g`, `b`: the value shifted down and truncated to its low
      byte (the cast `as u8`). */
  function Get(value: bv32, c: Channel): bv8
  {
    match c
    case Alpha => ((value >> 24) & 0xFF) as bv8
    case Red => ((value >> 16) & 0xFF) as bv8
    case Green => ((value >> 8) & 0xFF) as bv8
    case Blue => (value & 0xFF) as bv8
  }

  /** The setters `set_a`, `set_r`, `set_g`, `set_b`: clear the channel's byte with a
      mask, or in the new byte shifted into place. */
  function Set(value: bv32, c: Channel, v: bv8): bv32
  {
    match c
    case Alpha => (value & 0x00FF_FFFF) | ((v as bv32) << 24)
    case Red => (value & 0xFF00_FFFF) | ((v as bv32) << 16)
    case Green => (value & 0xFFFF_00FF) | ((v as bv32) << 8)
    case Blue => (value & 0xFFFF_FF00) | (v as bv32)
  }

  /** The four bytes of a colour, one per channel. */
  datatype Channels = Channels(r: bv8, g: bv8, b: bv8, a: bv8)
  {
    function Component(c: Channel): bv8
    {
      match c
      case Alpha => a
      case Red => r
      case Green => g
      case Blue => b
    }

    /** The bytes with channel `c` replaced by `v` and the other three kept. */
    function With(c: Channel, v: bv8): (w: Channels)
      ensures w.Component(c) == v
      ensures forall d: Channel :: d != c ==> w.Component(d) == Component(d)
    {
      match c
      case Alpha => this.(a := v)
      case Red => this.(r := v)
      case Green => this.(g := v)
      case Blue => this.(b := v)
    }
  }

  /** What the four getters return. */
  function Unpack(value: bv32): Channels
  {
    Channels(Get(value, Red), Get(value, Green), Get(value, Blue), Get(value, Alpha))
  }

  /** The layout `rgba` documents: a<<24 | r<<16 | g<<8 | b. */
  function Pack(r: bv8, g: bv8, b: bv8, a: bv8): bv32
  {
    ((a as bv32) << 24) | ((r as bv32) << 16) | ((g as bv32) << 8) | (b as bv32)
  }

  // One bit-level fact per lemma and pair of channels: what each getter reads after each
  // setter. The solver decides each on its own; the lemmas below combine them.

  lemma GetAlphaAfterSetAlpha(value: bv32, v: bv8) ensures Get(Set(value, Alpha, v), Alpha) == v {}
  lemma GetRedAfterSetAlpha(value: bv32, v: bv8) ensures Get(Set(value, Alpha, v), Red) == Get(value, Red) {}
  lemma GetGreenAfterSetAlpha(value: bv32, v: bv8) ensures Get(Set(value, Alpha, v), Green) == Get(value, Green) {}
  lemma GetBlueAfterSetAlpha(value: bv32, v: bv8) ensures Get(Set(value, Alpha, v), Blue) == Get(value, Blue) {}

  lemma GetAlphaAfterSetRed(value: bv32, v: bv8) ensures Get(Set(value, Red, v), Alpha) == Get(value, Alpha) {}
  lemma GetRedAfterSetRed(value: bv32, v: bv8) ensures Get(Set(value, Red, v), Red) == v {}
  lemma GetGreenAfterSetRed(value: bv32, v: bv8) ensures Get(Set(value, Red, v), Green) == Get(value, Green) {}
  lemma GetBlueAfterSetRed(value: bv32, v: bv8) ensures Get(Set(value, Red, v), Blue) == Get(value, Blue) {}

  lemma GetAlphaAfterSetGreen(value: bv32, v: bv8) ensures Get(Set(value, Green, v), Alpha) == Get(value, Alpha) {}
  lemma GetRedAfterSetGreen(value: bv32, v: bv8) ensures Get(Set(value, Green, v), Red) == Get(value, Red) {}
  lemma GetGreenAfterSetGreen(value: bv32, v: bv8) ensures Get(Set(value, Green, v), Green) == v {}
  lemma GetBlueAfterSetGreen(value: bv32, v: bv8) ensures Get(Set(value, Green, v), Blue) == Get(value, Blue) {}

  lemma GetAlphaAfterSetBlue(value: bv32, v: bv8) ensures Get(Set(value, Blue, v), Alpha) == Get(value, Alpha) {}
  lemma GetRedAfterSetBlue(value: bv32, v: bv8) ensures Get(Set(value, Blue, v), Red) == Get(value, Red) {}
  lemma GetGreenAfterSetBlue(value: bv32, v: bv8) ensures Get(Set(value, Blue, v), Green) == Get(value, Green) {}
  lemma GetBlueAfterSetBlue(value: bv32, v: bv8) ensures Get(Set(value, Blue, v), Blue) == v {}

  lemma GetAlphaOfPack(r: bv8, g: bv8, b: bv8, a: bv8) ensures Get(Pack(r, g, b, a), Alpha) == a {}
  lemma GetRedOfPack(r: bv8, g: bv8, b: bv8, a: bv8) ensures Get(Pack(r, g, b, a), Red) == r {}
  lemma GetGreenOfPack(r: bv8, g: bv8, b: bv8, a: bv8) ensures Get(Pack(r, g, b, a), Green) == g {}
  lemma GetBlueOfPack(r: bv8, g: bv8, b: bv8, a: bv8) ensures Get(Pack(r, g, b, a), Blue) == b {}

  /** A value is determined by what its four getters return. */
  lemma {:induction false} UnpackInjective(x: bv32, y: bv32)
    requires Unpack(x) == Unpack(y)
    ensures x == y
  {
    assert Get(x, Red) == Get(y, Red);
    assert Get(x, Green) == Get(y, Green);
    assert Get(x, Blue) == Get(y, Blue);
    assert Get(x, Alpha) == Get(y, Alpha);
  }

  /** The getters read back the bytes `Pack` puts together. */
  lemma {:induction false} UnpackPack(r: bv8, g: bv8, b: bv8, a: bv8)
    ensures Unpack(Pack(r, g, b, a)) == Channels(r, g, b, a)
  {
    GetAlphaOfPack(r, g, b, a);
    GetRedOfPack(r, g, b, a);
    GetGreenOfPack(r, g, b, a);
    GetBlueOfPack(r, g, b, a);
  }

  lemma {:induction false} UnpackAfterSetAlpha(value: bv32, v: bv8)
    ensures Unpack(Set(value, Alpha, v)) == Unpack(value).(a := v)
  {
    GetRedAfterSetAlpha(value, v);
    GetGreenAfterSetAlpha(value, v);
    GetBlueAfterSetAlpha(value, v);
    GetAlphaAfterSetAlpha(value, v);
  }

  lemma {:induction false} UnpackAfterSetRed(value: bv32, v: bv8)
    ensures Unpack(Set(value, Red, v)) == Unpack(value).(r := v)
  {
    GetRedAfterSetRed(value, v);
    GetGreenAfterSetRed(value, v);
    GetBlueAfterSetRed(value, v);
    GetAlphaAfterSetRed(value, v);
  }

  lemma {:induction false} UnpackAfterSetGreen(value: bv32, v: bv8)
    ensures Unpack(Set(value, Green, v)) == Unpack(value).(g := v)
  {
    GetRedAfterSetGreen(value, v);
    GetGreenAfterSetGreen(value, v);
    GetBlueAfterSetGreen(value, v);
    GetAlphaAfterSetGreen(value, v);
  }

  lemma {:induction false} UnpackAfterSetBlue(value: bv32, v: bv8)
    ensures Unpack(Set(value, Blue, v)) == Unpack(value).(b := v)
  {
    GetRedAfterSetBlue(value, v);
    GetGreenAfterSetBlue(value, v);
    GetBlueAfterSetBlue(value, v);
    GetAlphaAfterSetBlue(value, v);
  }

  lemma {:induction false} CommuteAlphaRed(value: bv32, v: bv8, w: bv8)
    ensures Set(Set(value, Alpha, v), Red, w) == Set(Set(value, Red, w), Alpha, v)
  {
    UnpackAfterSetAlpha(value, v);
    UnpackAfterSetRed(value, w);
    UnpackAfterSetRed(Set(value, Alpha, v), w);
    UnpackAfterSetAlpha(Set(value, Red, w), v);
    UnpackInjective(Set(Set(value, Alpha, v), Red, w), Set(Set(value, Red, w), Alpha, v));
  }

  lemma {:induction false} CommuteAlphaGreen(value: bv32, v: bv8, w: bv8)
    ensures Set(Set(value, Alpha, v), Green, w) == Set(Set(value, Green, w), Alpha, v)
  {
    UnpackAfterSetAlpha(value, v);
    UnpackAfterSetGreen(value, w);
    UnpackAfterSetGreen(Set(value, Alpha, v), w);
    UnpackAfterSetAlpha(Set(value, Green, w), v);
    UnpackInjective(Set(Set(value, Alpha, v), Green, w), Set(Set(value, Green, w), Alpha, v));
  }

  lemma {:induction false} CommuteAlphaBlue(value: bv32, v: bv8, w: bv8)
    ensures Set(Set(value, Alpha, v), Blue, w) == Set(Set(value, Blue, w), Alpha, v)
  {
    UnpackAfterSetAlpha(value, v);
    UnpackAfterSetBlue(value, w);
    UnpackAfterSetBlue(Set(value, Alpha, v), w);
    UnpackAfterSetAlpha(Set(value, Blue, w), v);
    UnpackInjective(Set(Set(value, Alpha, v), Blue, w), Set(Set(value, Blue, w), Alpha, v));
  }

  lemma {:induction false} CommuteRedGreen(value: bv32, v: bv8, w: bv8)
    ensures Set(Set(value, Red, v), Green, w) == Set(Set(value, Green, w), Red, v)
  {
    UnpackAfterSetRed(value, v);
    UnpackAfterSetGreen(value, w);
    UnpackAfterSetGreen(Set(value, Red, v), w);
    UnpackAfterSetRed(Set(value, Green, w), v);
    UnpackInjective(Set(Set(value, Red, v), Green, w), Set(Set(value, Green, w), Red, v));
  }

  lemma {:induction false} CommuteRedBlue(value: bv32, v: bv8, w: bv8)
    ensures Set(Set(value, Red, v), Blue, w) == Set(Set(value, Blue, w), Red, v)
  {
    UnpackAfterSetRed(value, v);
    UnpackAfterSetBlue(value, w);
    UnpackAfterSetBlue(Set(value, Red, v), w);
    UnpackAfterSetRed(Set(value, Blue, w), v);
    UnpackInjective(Set(Set(value, Red, v), Blue, w), Set(Set(value, Blue, w), Red, v));
  }

  lemma {:induction false} CommuteGreenBlue(value: bv32, v: bv8, w: bv8)
    ensures Set(Set(value, Green, v), Blue, w) == Set(Set(value, Blue, w), Green, v)
  {
    UnpackAfterSetGreen(value, v);
    UnpackAfterSetBlue(value, w);
    UnpackAfterSetBlue(Set(value, Green, v), w);
    UnpackAfterSetGreen(Set(value, Blue, w), v);
    UnpackInjective(Set(Set(value, Green, v), Blue, w), Set(Set(value, Blue, w), Green, v));
  }

  lemma {:induction false} TwiceAlpha(value: bv32, v: bv8, w: bv8)
    ensures Set(Set(value, Alpha, v), Alpha, w) == Set(value, Alpha, w)
  {
    UnpackAfterSetAlpha(value, v);
    UnpackAfterSetAlpha(value, w);
    UnpackAfterSetAlpha(Set(value, Alpha, v), w);
    UnpackInjective(Set(Set(value, Alpha, v), Alpha, w), Set(value, Alpha, w));
  }

  lemma {:induction false} TwiceRed(value: bv32, v: bv8, w: bv8)
    ensures Set(Set(value, Red, v), Red, w) == Set(value, Red, w)
  {
    UnpackAfterSetRed(value, v);
    UnpackAfterSetRed(value, w);
    UnpackAfterSetRed(Set(value, Red, v), w);
    UnpackInjective(Set(Set(value, Red, v), Red, w), Set(value, Red, w));
  }

  lemma {:induction false} TwiceGreen(value: bv32, v: bv8, w: bv8)
    ensures Set(Set(value, Green, v), Green, w) == Set(value, Green, w)
  {
    UnpackAfterSetGreen(value, v);
    UnpackAfterSetGreen(value, w);
    UnpackAfterSetGreen(Set(value, Green, v), w);
    UnpackInjective(Set(Set(value, Green, v), Green, w), Set(value, Green, w));
  }

  lemma {:induction false} TwiceBlue(value: bv32, v: bv8, w: bv8)
    ensures Set(Set(value, Blue, v), Blue, w) == Set(value, Blue, w)
  {
    UnpackAfterSetBlue(value, v);
    UnpackAfterSetBlue(value, w);
    UnpackAfterSetBlue(Set(value, Blue, v), w);
    UnpackInjective(Set(Set(value, Blue, v), Blue, w), Set(value, Blue, w));
  }

  /** After setting a channel, its getter returns the value set and the other three
      getters return what they did before. */
  lemma {:induction false} GetAfterSet(value: bv32, c: Channel, d: Channel, v: bv8)
    ensures Get(Set(value, c, v), d) == if c == d then v else Get(value, d)
  {
    match c {
      case Alpha =>
        match d {
          case Alpha => GetAlphaAfterSetAlpha(value, v);
          case Red => GetRedAfterSetAlpha(value, v);
          case Green => GetGreenAfterSetAlpha(value, v);
          case Blue => GetBlueAfterSetAlpha(value, v);
        }
      case Red =>
        match d {
          case Alpha => GetAlphaAfterSetRed(value, v);
          case Red => GetRedAfterSetRed(value, v);
          case Green => GetGreenAfterSetRed(value, v);
          case Blue => GetBlueAfterSetRed(value, v);
        }
      case Green =>
        match d {
          case Alpha => GetAlphaAfterSetGreen(value, v);
          case Red => GetRedAfterSetGreen(value, v);
          case Green => GetGreenAfterSetGreen(value, v);
          case Blue => GetBlueAfterSetGreen(value, v);
        }
      case Blue =>
        match d {
          case Alpha => GetAlphaAfterSetBlue(value, v);
          case Red => GetRedAfterSetBlue(value, v);
          case Green => GetGreenAfterSetBlue(value, v);
          case Blue => GetBlueAfterSetBlue(value, v);
        }
    }
  }

  /** The same, for all four getters at once: a setter replaces one byte. */
  lemma {:induction false} UnpackAfterSet(value: bv32, c: Channel, v: bv8)
    ensures Unpack(Set(value, c, v)) == Unpack(value).With(c, v)
  {
    match c
    case Alpha => UnpackAfterSetAlpha(value, v);
    case Red => UnpackAfterSetRed(value, v);
    case Green => UnpackAfterSetGreen(value, v);
    case Blue => UnpackAfterSetBlue(value, v);
  }

  /** Setters on different channels commute. */
  lemma {:induction false} SetsCommute(value: bv32, c: Channel, d: Channel, v: bv8, w: bv8)
    requires c != d
    ensures Set(Set(value, c, v), d, w) == Set(Set(value, d, w), c, v)
  {
    match c {
      case Alpha =>
        match d {
          case Alpha =>
          case Red => CommuteAlphaRed(value, v, w);
          case Green => CommuteAlphaGreen(value, v, w);
          case Blue => CommuteAlphaBlue(value, v, w);
        }
      case Red =>
        match d {
          case Alpha => CommuteAlphaRed(value, w, v);
          case Red =>
          case Green => CommuteRedGreen(value, v, w);
          case Blue => CommuteRedBlue(value, v, w);
        }
      case Green =>
        match d {
          case Alpha => CommuteAlphaGreen(value, w, v);
          case Red => CommuteRedGreen(value, w, v);
          case Green =>
          case Blue => CommuteGreenBlue(value, v, w);
        }
      case Blue =>
        match d {
          case Alpha => CommuteAlphaBlue(value, w, v);
          case Red => CommuteRedBlue(value, w, v);
          case Green => CommuteGreenBlue(value, w, v);
          case Blue =>
        }
    }
  }

  /** Setting a channel twice keeps only the last value. */
  lemma {:induction false} SetTwiceKeepsLast(value: bv32, c: Channel, v: bv8, w: bv8)
    ensures Set(Set(value, c, v), c, w) == Set(value, c, w)
  {
    match c
    case Alpha => TwiceAlpha(value, v, w);
    case Red => TwiceRed(value, v, w);
    case Green => TwiceGreen(value, v, w);
    case Blue => TwiceBlue(value, v, w);
  }

  /** `rgba` builds from 0 through `with_r`, `with_g`, `with_b` and `with_a`; the result is
      the documented layout, and the getters return the four inputs. */
  lemma {:induction false} RgbaPacks(r: bv8, g: bv8, b: bv8, a: bv8)
    ensures Set(Set(Set(Set(0, Red, r), Green, g), Blue, b), Alpha, a) == Pack(r, g, b, a)
    ensures Unpack(Pack(r, g, b, a)) == Channels(r, g, b, a)
  {
    var v1 := Set(0, Red, r);
    var v2 := Set(v1, Green, g);
    var v3 := Set(v2, Blue, b);
    var v4 := Set(v3, Alpha, a);
    assert Unpack(0) == Channels(0, 0, 0, 0);
    UnpackAfterSetRed(0, r);
    UnpackAfterSetGreen(v1, g);
    UnpackAfterSetBlue(v2, b);
    UnpackAfterSetAlpha(v3, a);
    UnpackPack(r, g, b, a);
    UnpackInjective(v4, Pack(r, g, b, a));
  }
}

/** The `Color` object: the setters update its value in place, the `with_*` methods work
    on a copy. */
module ColorObjects {
  import opened Colors

  class Color {
    var value: bv32

    constructor (value: bv32)
      ensures this.value == value
    {
      this.value := value;
    }

    /** What `r`, `g`, `b` and `a` return. */
    function Bytes(): Channels reads this { Unpack(value) }

    /** `set_r`: red becomes `v`; the other channels keep their bytes. */
    method SetR(v: bv8)
      modifies this
      ensures value == Set(old(value), Red, v)
      ensures Bytes() == old(Bytes()).(r := v)
    {
      value := (value & 0xFF00_FFFF) | ((v as bv32) << 16);
      UnpackAfterSetRed(old(value), v);
    }

    /** `set_g`: green becomes `v`; the other channels keep their bytes. */
    method SetG(v: bv8)
      modifies this
      ensures value == Set(old(value), Green, v)
      ensures Bytes() == old(Bytes()).(g := v)
    {
      value := (value & 0xFFFF_00FF) | ((v as bv32) << 8);
      UnpackAfterSetGreen(old(value), v);
    }

    /** `set_b`: blue becomes `v`; the other channels keep their bytes. */
    method SetB(v: bv8)
      modifies this
      ensures value == Set(old(value), Blue, v)
      ensures Bytes() == old(Bytes()).(b := v)
    {
      value := (value & 0xFFFF_FF00) | (v as bv32);
      UnpackAfterSetBlue(old(value), v);
    }

    /** `set_a`: alpha becomes `v`; the other channels keep their bytes. */
    method SetA(v: bv8)
      modifies this
      ensures value == Set(old(value), Alpha, v)
      ensures Bytes() == old(Bytes()).(a := v)
    {
      value := (value & 0x00FF_FFFF) | ((v as bv32) << 24);
      UnpackAfterSetAlpha(old(value), v);
    }

    /** `with_r`: `set_r` on a copy; this colour is unchanged. */
    method WithR(v: bv8) returns (c: Color)
      ensures fresh(c) && c.value == Set(value, Red, v)
    {
      c := new Color(value);
      c.SetR(v);
    }

    /** `with_g`: `set_g` on a copy; this colour is unchanged. */
    method WithG(v: bv8) returns (c: Color)
      ensures fresh(c) && c.value == Set(value, Green, v)
    {
      c := new Color(value);
      c.SetG(v);
    }

    /** `with_b`: `set_b` on a copy; this colour is unchanged. */
    method WithB(v: bv8) returns (c: Color)
      ensures fresh(c) && c.value == Set(value, Blue, v)
    {
      c := new Color(value);
      c.SetB(v);
    }

    /** `with_a`: `set_a` on a copy; this colour is unchanged. */
    method WithA(v: bv8) returns (c: Color)
      ensures fresh(c) && c.value == Set(value, Alpha, v)
    {
      c := new Color(value);
      c.SetA(v);
    }

    /** `rgba`: a colour in the documented layout whose getters return the inputs. */
    static method Rgba(r: bv8, g: bv8, b: bv8, a: bv8) returns (c: Color)
      ensures fresh(c) && c.value == Pack(r, g, b, a)
      ensures c.Bytes() == Channels(r, g, b, a)
    {
      var zero := new Color(0);
      var c1 := zero.WithR(r);
      var c2 := c1.WithG(g);
      var c3 := c2.WithB(b);
      c := c3.WithA(a);
      RgbaPacks(r, g, b, a);
    }

    /** `rgb`: `rgba` with alpha 255, fully opaque. */
    static method Rgb(r: bv8, g: bv8, b: bv8) returns (c: Color)
      ensures fresh(c) && c.value == Pack(r, g, b, 255)
      ensures c.Bytes() == Channels(r, g, b, 255)
    {
      c := Rgba(r, g, b, 255);
    }
  }
}
