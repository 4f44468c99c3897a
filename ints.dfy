/** Rust's fixed-width integers and the two's-complement reinterpretation (`as`) between
    a signed value and its bit pattern. */
module Ints {

  const TWO_8: nat := 0x100
  const TWO_16: nat := 0x1_0000
  const TWO_32: nat := 0x1_0000_0000
  const TWO_64: nat := 0x1_0000_0000_0000_0000

  type u8 = x: int | 0 <= x < 0x100
  type u16 = x: int | 0 <= x < 0x1_0000
  type u32 = x: int | 0 <= x < 0x1_0000_0000
  type u64 = x: int | 0 <= x < 0x1_0000_0000_0000_0000
  type i8 = x: int | -0x80 <= x < 0x80
  type i16 = x: int | -0x8000 <= x < 0x8000
  type i32 = x: int | -0x8000_0000 <= x < 0x8000_0000
  type i64 = x: int | -0x8000_0000_0000_0000 <= x < 0x8000_0000_0000_0000

  /** The eight integer types a property-bag value can be decoded to. */
  datatype IntKind = I8 | U8 | I16 | U16 | I32 | U32 | I64 | U64

  predicate IsSigned(k: IntKind) {
    k == I8 || k == I16 || k == I32 || k == I64
  }

  /** 2 to the power of the width in bits. */
  function Modulus(k: IntKind): nat {
    match k
    case I8 | U8 => TWO_8
    case I16 | U16 => TWO_16
    case I32 | U32 => TWO_32
    case I64 | U64 => TWO_64
  }

  predicate InRange(k: IntKind, x: int) {
    if IsSigned(k) then -(Modulus(k) / 2) <= x < Modulus(k) / 2 else 0 <= x < Modulus(k)
  }

  /** The bit pattern of `x`, read as an unsigned number (Rust's `x as uN`). */
  function Encode(k: IntKind, x: int): (bits: nat)
    requires InRange(k, x)
    ensures bits < Modulus(k)
    ensures x >= 0 ==> bits == x
    ensures x < 0 ==> bits == x + Modulus(k)
  {
    if x < 0 then x + Modulus(k) else x
  }

  /** The value of type `k` whose bit pattern is `bits` (Rust's `bits as iN` / `as uN`). */
  function Decode(k: IntKind, bits: nat): (x: int)
    requires bits < Modulus(k)
    ensures InRange(k, x)
    ensures Encode(k, x) == bits
  {
    if IsSigned(k) && bits >= Modulus(k) / 2 then bits - Modulus(k) else bits
  }

  lemma DecodeEncode(k: IntKind, x: int)
    requires InRange(k, x)
    ensures Decode(k, Encode(k, x)) == x
  {
  }

  /** Rust's `x as u64` for an `i64` and `p as i64` for a `u64`: they undo each other. */
  function I64AsU64(x: i64): u64 { Encode(I64, x) }
  function U64AsI64(p: u64): i64 { Decode(I64, p) }

  lemma {:induction false} ReinterpretRoundTrip(x: i64, p: u64)
    ensures U64AsI64(I64AsU64(x)) == x
    ensures I64AsU64(U64AsI64(p)) == p
  {
    DecodeEncode(I64, x);
  }

  /** Reading a field of kind `k` from an 8-byte little-endian union word: its low bytes. */
  function ReadLow(k: IntKind, word: u64): (x: int)
    ensures InRange(k, x)
  {
    Decode(k, word % Modulus(k))
  }

  /** A zeroed word with a field of kind `k` written reads back that field. */
  lemma ReadLowOfEncoded(k: IntKind, x: int)
    requires InRange(k, x)
    ensures Encode(k, x) < TWO_64
    ensures ReadLow(k, Encode(k, x)) == x
  {
    DecodeEncode(k, x);
    SmallModIsSelf(Encode(k, x), Modulus(k));
  }

  lemma SmallModIsSelf(a: nat, m: nat)
    requires a < m
    ensures a % m == a
  {
  }
}
