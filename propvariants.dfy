/** `PROPVARIANT` (`dcommon::idltypes::propvariant`): the same layout as a `VARIANT`;
    its 64-bit fields are named `h_val` and `uh_val`. */
module PropVariants {
  import opened Ints
  import opened VarTypes
  import Variants

  datatype PropVariant = PropVariant(vartype: VarType, reserved1: u16, reserved2: u16, reserved3: u16, data: u64)

  /** The integer constructors of `PropVariant`: zeroed, tagged as for `Variant`, with the
      field of kind `k` written (`h_val` and `uh_val` for the 64-bit kinds). */
  function New(k: IntKind, x: int): (v: PropVariant)
    requires InRange(k, x)
    ensures v.vartype == Variants.DirectTag(k)
    ensures v.reserved1 == 0 && v.reserved2 == 0 && v.reserved3 == 0
    ensures v.data < Modulus(k)
    ensures ReadLow(k, v.data) == x
  {
    ReadLowOfEncoded(k, x);
    PropVariant(Variants.DirectTag(k), 0, 0, 0, Encode(k, x))
  }

  function NewI8(val: i8): PropVariant { New(Ints.I8, val) }
  function NewU8(val: u8): PropVariant { New(U8, val) }
  function NewI16(val: i16): PropVariant { New(I16, val) }
  function NewU16(val: u16): PropVariant { New(U16, val) }
  function NewI32(val: i32): PropVariant { New(I32, val) }
  function NewU32(val: u32): PropVariant { New(U32, val) }
  function NewI64(val: i64): PropVariant { New(I64, val) }
  function NewU64(val: u64): PropVariant { New(U64, val) }

  /** Two constructed values have the same tag only when built for the same kind, and
      then they are equal exactly when their values are. */
  lemma {:induction false} ConstructorsInjective(k1: IntKind, x1: int, k2: IntKind, x2: int)
    requires InRange(k1, x1) && InRange(k2, x2)
    ensures New(k1, x1).vartype == New(k2, x2).vartype <==> k1 == k2
    ensures k1 == k2 ==> (New(k1, x1) == New(k2, x2) <==> x1 == x2)
  {
    Variants.DirectTagsDistinct(k1, k2);
  }
}
