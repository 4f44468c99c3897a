/** `VARTYPE` (`dcommon::idltypes::vartype`): the 16-bit VARENUM tag of a variant, split
    into a primitive type in bits 0-11 and container flags VECTOR, ARRAY, BYREF and
    RESERVED in bits 12-15 (section 2.2.7 of [MS-OAUT]). */
module VarTypes {

  datatype VarType = VarType(bits: bv16)

  const EMPTY: VarType := VarType(0)
  const NULL: VarType := VarType(1)
  const I2: VarType := VarType(2)
  const I4: VarType := VarType(3)
  const R4: VarType := VarType(4)
  const R8: VarType := VarType(5)
  const CY: VarType := VarType(6)
  const DATE: VarType := VarType(7)
  const BSTR: VarType := VarType(8)
  const DISPATCH: VarType := VarType(9)
  const ERROR: VarType := VarType(10)
  const BOOL: VarType := VarType(11)
  const VARIANT: VarType := VarType(12)
  const UNKNOWN: VarType := VarType(13)
  const DECIMAL: VarType := VarType(14)
  const I1: VarType := VarType(16)
  const UI1: VarType := VarType(17)
  const UI2: VarType := VarType(18)
  const UI4: VarType := VarType(19)
  const I8: VarType := VarType(20)
  const UI8: VarType := VarType(21)
  const INT: VarType := VarType(22)
  const UINT: VarType := VarType(23)
  const VOID: VarType := VarType(24)
  const HRESULT: VarType := VarType(25)
  const PTR: VarType := VarType(26)
  const SAFEARRAY: VarType := VarType(27)
  const CARRAY: VarType := VarType(28)
  const USERDEFINED: VarType := VarType(29)
  const LPSTR: VarType := VarType(30)
  const LPWSTR: VarType := VarType(31)
  const RECORD: VarType := VarType(36)
  const INT_PTR: VarType := VarType(37)
  const UINT_PTR: VarType := VarType(38)
  const FILETIME: VarType := VarType(64)
  const BLOB: VarType := VarType(65)
  const STREAM: VarType := VarType(66)
  const STORAGE: VarType := VarType(67)
  const STREAMED_OBJECT: VarType := VarType(68)
  const STORED_OBJECT: VarType := VarType(69)
  const BLOB_OBJECT: VarType := VarType(70)
  const CF: VarType := VarType(71)
  const CLSID: VarType := VarType(72)
  const VERSIONED_STREAM: VarType := VarType(73)
  const BSTR_BLOB: VarType := VarType(0xFFF)
  const VECTOR: VarType := VarType(0x1000)
  const ARRAY: VarType := VarType(0x2000)
  const BYREF: VarType := VarType(0x4000)
  const RESERVED: VarType := VarType(0x8000)
  const ILLEGAL: VarType := VarType(0xFFFF)
  const ILLEGALMASKED: VarType := VarType(0xFFF)
  const TYPEMASK: VarType := VarType(0xFFF)

  /** The scalar type constants of OLE Automation, and those used only in property sets;
      all lie below the container bits. */
  const AUTOMATION_SCALARS: set<VarType> := {
    EMPTY, NULL, I2, I4, R4, R8, CY, DATE, BSTR, DISPATCH, ERROR, BOOL, VARIANT, UNKNOWN,
    DECIMAL, I1, UI1, UI2, UI4, I8, UI8, INT, UINT, VOID, HRESULT, PTR, SAFEARRAY, CARRAY,
    USERDEFINED, LPSTR, LPWSTR, RECORD, INT_PTR, UINT_PTR
  }
  const PROPERTY_SCALARS: set<VarType> := {
    FILETIME, BLOB, STREAM, STORAGE, STREAMED_OBJECT, STORED_OBJECT, BLOB_OBJECT, CF, CLSID,
    VERSIONED_STREAM, BSTR_BLOB
  }
  const SCALARS: set<VarType> := AUTOMATION_SCALARS + PROPERTY_SCALARS

  // The operator impls act on the 16-bit payload.
  function Or(a: VarType, b: VarType): VarType { VarType(a.bits | b.bits) }
  function And(a: VarType, b: VarType): VarType { VarType(a.bits & b.bits) }
  function Xor(a: VarType, b: VarType): VarType { VarType(a.bits ^ b.bits) }
  function Not(a: VarType): VarType { VarType(!a.bits) }

  /** `primitive_type`: the tag with its container flags cleared, so it agrees with the
      tag on bits 0-11 and has bits 12-15 clear. */
  function Primitive(v: VarType): (p: VarType)
    ensures p.bits & 0xF000 == 0
    ensures (p.bits ^ v.bits) & 0x0FFF == 0
  {
    And(v, TYPEMASK)
  }

  /** `container_type`: the tag with its primitive type cleared, so it agrees with the tag
      on bits 12-15 and has bits 0-11 clear. */
  function Container(v: VarType): (c: VarType)
    ensures c.bits & 0x0FFF == 0
    ensures (c.bits ^ v.bits) & 0xF000 == 0
  {
    And(v, Not(TYPEMASK))
  }

  /** A tag is its primitive type and its container flags put together, and the two
      parts share no bit. */
  lemma {:induction false} SplitRecombines(v: VarType)
    ensures Or(Primitive(v), Container(v)) == v
    ensures And(Primitive(v), Container(v)) == EMPTY
  {
  }

  /** Both projections are idempotent, and each erases what the other keeps. */
  lemma ProjectionsIdempotent(v: VarType)
    ensures Primitive(Primitive(v)) == Primitive(v)
    ensures Container(Container(v)) == Container(v)
    ensures Primitive(Container(v)) == EMPTY
    ensures Container(Primitive(v)) == EMPTY
  {
  }

  /** Flagging a primitive type as by-reference: the container is BYREF and the primitive
      type is the one flagged. */
  lemma ByRefSplits(t: VarType)
    requires t.bits < 0x1000
    ensures Container(Or(BYREF, t)) == BYREF
    ensures Primitive(Or(BYREF, t)) == t
  {
  }

  /** A tag below 0x1000 is its own primitive type and has container EMPTY. */
  lemma ScalarSplits(t: VarType)
    requires t.bits < 0x1000
    ensures Container(t) == EMPTY
    ensures Primitive(t) == t
  {
  }

  /** Every scalar constant lies below the container bits. */
  lemma AutomationScalarsBelowContainerBits()
    ensures forall t | t in AUTOMATION_SCALARS :: t.bits < 0x1000
  {
  }

  lemma PropertyScalarsBelowContainerBits()
    ensures forall t | t in PROPERTY_SCALARS :: t.bits < 0x1000
  {
  }

  /** Every scalar constant has container EMPTY and is its own primitive type. */
  lemma {:induction false} ScalarConstantsHaveNoContainer()
    ensures forall t | t in SCALARS :: Container(t) == EMPTY && Primitive(t) == t
  {
    AutomationScalarsBelowContainerBits();
    PropertyScalarsBelowContainerBits();
    forall t | t in SCALARS
      ensures Container(t) == EMPTY && Primitive(t) == t
    {
      ScalarSplits(t);
    }
  }

  /** Putting container flags `c` and a primitive type `p` together gives a tag that
      splits back into `c` and `p`. */
  lemma JoinSplits(c: VarType, p: VarType)
    requires c.bits & 0x0FFF == 0 && p.bits & 0xF000 == 0
    ensures Container(Or(c, p)) == c
    ensures Primitive(Or(c, p)) == p
  {
  }

  /** A tag has container `c` and primitive type `p` exactly when it is `c | p`. */
  lemma {:induction false} SplitDetermines(v: VarType, c: VarType, p: VarType)
    requires c.bits & 0x0FFF == 0 && p.bits & 0xF000 == 0
    ensures Container(v) == c && Primitive(v) == p <==> v == Or(c, p)
  {
    JoinSplits(c, p);
    SplitRecombines(v);
    assert Or(c, p) == Or(p, c);
  }

  /** `!!v == v`, and the complement of the type mask is exactly the container bits. */
  lemma NotInvolutive(v: VarType)
    ensures Not(Not(v)) == v
    ensures Not(TYPEMASK).bits == 0xF000
  {
  }

  /** De Morgan's law for the operator impls. */
  lemma NotOfOr(a: VarType, b: VarType)
    ensures Not(Or(a, b)) == And(Not(a), Not(b))
  {
  }

  /** Xor marks the bits where the operands differ, so it is EMPTY exactly when the
      tags are equal. */
  lemma XorDiffers(a: VarType, b: VarType)
    ensures Xor(a, b) == And(Or(a, b), Not(And(a, b)))
    ensures Xor(a, b) == EMPTY <==> a == b
  {
    XorEmptyMeansEqual(a, b);
  }

  /** Only equal tags xor to EMPTY. */
  lemma {:induction false} XorEmptyMeansEqual(a: VarType, b: VarType)
    ensures a != b ==> Xor(a, b) != EMPTY
  {
    if a != b {
      assert a.bits != b.bits;
      XorOfDistinctNonzero(a.bits, b.bits);
    }
  }

  /** On the payload, distinct operands xor to a nonzero value. */
  lemma XorOfDistinctNonzero(x: bv16, y: bv16)
    requires x != y
    ensures x ^ y != 0
  {
  }

  /** `Not` is xor with all sixteen bits, ILLEGAL. */
  lemma NotIsXorIllegal(a: VarType)
    ensures Not(a) == Xor(a, ILLEGAL)
  {
  }
}
