/** `VARIANT` (`dcommon::idltypes::variant`): a tag, three reserved words and an 8-byte
    data union. The union is held as one little-endian 64-bit word; an integer field is
    its low bytes, a pointer field the whole word. */
module Variants {
  import opened Ints
  import opened VarTypes

  datatype Variant = Variant(vartype: VarType, reserved1: u16, reserved2: u16, reserved3: u16, data: u64)

  /** The tag each integer constructor writes. */
  function DirectTag(k: IntKind): (t: VarType)
  {
    match k
    case I8 => VarTypes.I1
    case U8 => UI1
    case I16 => VarTypes.I2
    case U16 => UI2
    case I32 => VarTypes.I4
    case U32 => UI4
    case I64 => VarTypes.I8
    case U64 => UI8
  }

  /** The integer constructors: zero the whole value, set the tag, write the field of
      kind `k` (`c_val`, `b_val`, `i_val`, `ui_val`, `l_val`, `ul_val`, `ll_val`,
      `ull_val`). Bytes above the field stay 0 and the field reads back as `x`. */
  function New(k: IntKind, x: int): (v: Variant)
    requires InRange(k, x)
    ensures v.vartype == DirectTag(k)
    ensures v.reserved1 == 0 && v.reserved2 == 0 && v.reserved3 == 0
    ensures v.data < Modulus(k)
    ensures ReadLow(k, v.data) == x
  {
    ReadLowOfEncoded(k, x);
    Variant(DirectTag(k), 0, 0, 0, Encode(k, x))
  }

  function NewI8(val: i8): Variant { New(Ints.I8, val) }
  function NewU8(val: u8): Variant { New(U8, val) }
  function NewI16(val: i16): Variant { New(I16, val) }
  function NewU16(val: u16): Variant { New(U16, val) }
  function NewI32(val: i32): Variant { New(I32, val) }
  function NewU32(val: u32): Variant { New(U32, val) }
  function NewI64(val: i64): Variant { New(I64, val) }
  function NewU64(val: u64): Variant { New(U64, val) }

  /** The constructors' tags are I1, UI1, I2, UI2, I4, UI4, I8 and UI8, pairwise
      distinct, so the tag tells which field is active. */
  lemma {:induction false} DirectTagsDistinct(k1: IntKind, k2: IntKind)
    ensures DirectTag(k1) == DirectTag(k2) <==> k1 == k2
  {
  }

  /** No constructor sets a container bit. */
  lemma {:induction false} DirectTagsHaveNoContainer(k: IntKind)
    ensures Container(DirectTag(k)) == EMPTY
    ensures Primitive(DirectTag(k)) == DirectTag(k)
    ensures DirectTag(k) in SCALARS
  {
    AutomationScalarsBelowContainerBits();
    ScalarSplits(DirectTag(k));
  }
}
