/** `PropertyType` (`dcommon::ocidl::property_bag2::proptype`): reading an integer out of
    a `Variant` read from a property bag. Each integer type declares the tags it accepts
    (`VARTYPES`); `from_variant` splits the tag into container and primitive type, reads
    the union field for a direct tag or the pointee for a by-reference tag, and panics on
    every other tag. */
module PropertyTypes {
  import opened Wrappers
  import opened Ints
  import opened VarTypes
  import opened Variants

  /** The caller's memory: the bit pattern stored at each address, as an unsigned
      number; a pointee of kind `k` is its low bytes. */
  type Memory = nat -> nat

  /** `*p` for a pointer field of kind `k` holding address `addr`. */
  function Deref(k: IntKind, addr: nat, mem: Memory): (x: int)
    ensures InRange(k, x)
  {
    Decode(k, mem(addr) % Modulus(k))
  }

  /** The primitive types `from_variant` of kind `k` accepts, directly or by reference. */
  function Primitives(k: IntKind): seq<VarType>
  {
    match k
    case I8 => [VarTypes.I1]
    case U8 => [UI1]
    case I16 => [VarTypes.I2]
    case U16 => [UI2]
    case I32 => [VarTypes.I4, INT]
    case U32 => [UI4, UINT]
    case I64 => [VarTypes.I8]
    case U64 => [UI8]
  }

  /** `VARTYPES`: the declared tags of each integer type. */
  function DeclaredVarTypes(k: IntKind): seq<VarType>
  {
    match k
    case I8 => [VarTypes.I1, Or(BYREF, VarTypes.I1)]
    case U8 => [UI1, Or(BYREF, UI1)]
    case I16 => [VarTypes.I2, Or(BYREF, VarTypes.I2)]
    case U16 => [UI2, Or(BYREF, UI2)]
    case I32 => [VarTypes.I4, INT, Or(BYREF, VarTypes.I4), Or(BYREF, INT)]
    case U32 => [UI4, UINT, Or(BYREF, UI4), Or(BYREF, UINT)]
    case I64 => [VarTypes.I8, Or(BYREF, VarTypes.I8)]
    case U64 => [UI8, Or(BYREF, UI8)]
  }

  /** `from_variant` for the integer type of kind `k`: the match on
      (container, primitive) of each impl. INT and UINT are read through `int_val` and
      `uint_val`, the same low four bytes as `l_val` and `ul_val`. */
  function FromVariant(k: IntKind, v: Variant, mem: Memory): (r: Checked<int>)
    ensures r.Returns? ==> InRange(k, r.value)
    ensures r.Returns? ==> Primitive(v.vartype) in Primitives(k)
    ensures r.Returns? ==> Container(v.vartype) == EMPTY || Container(v.vartype) == BYREF
  {
    var c, p := Container(v.vartype), Primitive(v.vartype);
    match k
    case I8 =>
      if c == EMPTY && p == VarTypes.I1 then Returns(ReadLow(k, v.data))        // c_val
      else if c == BYREF && p == VarTypes.I1 then Returns(Deref(k, v.data, mem)) // *pc_val
      else Panics
    case U8 =>
      if c == EMPTY && p == UI1 then Returns(ReadLow(k, v.data))                 // b_val
      else if c == BYREF && p == UI1 then Returns(Deref(k, v.data, mem))         // *pb_val
      else Panics
    case I16 =>
      if c == EMPTY && p == VarTypes.I2 then Returns(ReadLow(k, v.data))        // i_val
      else if c == BYREF && p == VarTypes.I2 then Returns(Deref(k, v.data, mem)) // *pi_val
      else Panics
    case U16 =>
      if c == EMPTY && p == UI2 then Returns(ReadLow(k, v.data))                 // ui_val
      else if c == BYREF && p == UI2 then Returns(Deref(k, v.data, mem))         // *pui_val
      else Panics
    case I32 =>
      if c == EMPTY && p == VarTypes.I4 then Returns(ReadLow(k, v.data))        // l_val
      else if c == EMPTY && p == INT then Returns(ReadLow(k, v.data))           // int_val
      else if c == BYREF && p == VarTypes.I4 then Returns(Deref(k, v.data, mem)) // *pl_val
      else if c == BYREF && p == INT then Returns(Deref(k, v.data, mem))         // *pint_val
      else Panics
    case U32 =>
      if c == EMPTY && p == UI4 then Returns(ReadLow(k, v.data))                 // ul_val
      else if c == EMPTY && p == UINT then Returns(ReadLow(k, v.data))           // uint_val
      else if c == BYREF && p == UI4 then Returns(Deref(k, v.data, mem))         // *pul_val
      else if c == BYREF && p == UINT then Returns(Deref(k, v.data, mem))        // *puint_val
      else Panics
    case I64 =>
      if c == EMPTY && p == VarTypes.I8 then Returns(ReadLow(k, v.data))        // ll_val
      else if c == BYREF && p == VarTypes.I8 then Returns(Deref(k, v.data, mem)) // *pll_val
      else Panics
    case U64 =>
      if c == EMPTY && p == UI8 then Returns(ReadLow(k, v.data))                 // ull_val
      else if c == BYREF && p == UI8 then Returns(Deref(k, v.data, mem))         // *pull_val
      else Panics
  }

  /** The match accepts a tag exactly when it is one of the accepted primitive types,
      with container EMPTY or BYREF; a direct tag reads the union field and a
      by-reference tag reads the pointee. */
  lemma {:induction false} FromVariantCases(k: IntKind, v: Variant, mem: Memory)
    ensures FromVariant(k, v, mem).Returns? <==>
      Primitive(v.vartype) in Primitives(k) && (Container(v.vartype) == EMPTY || Container(v.vartype) == BYREF)
    ensures Container(v.vartype) == EMPTY && Primitive(v.vartype) in Primitives(k) ==>
      FromVariant(k, v, mem) == Returns(ReadLow(k, v.data))
    ensures Container(v.vartype) == BYREF && Primitive(v.vartype) in Primitives(k) ==>
      FromVariant(k, v, mem) == Returns(Deref(k, v.data, mem))
  {
  }

  /** The accepted primitive types are scalars, below the container bits. */
  lemma {:induction false} PrimitivesAreScalars(k: IntKind)
    ensures forall p | p in Primitives(k) :: p.bits & 0xF000 == 0
  {
  }

  /** One primitive of a type, as `PrimitivesAreScalars` states for all of them. */
  lemma PrimitiveIsScalar(k: IntKind, p: VarType)
    requires p in Primitives(k)
    ensures p.bits & 0xF000 == 0
  {
    PrimitivesAreScalars(k);
  }

  /** `VARTYPES` lists exactly the accepted primitive types, each directly and by
      reference. */
  lemma {:induction false} DeclaredAreJoins(k: IntKind, t: VarType)
    ensures t in DeclaredVarTypes(k) <==>
      exists p | p in Primitives(k) :: t == p || t == Or(BYREF, p)
  {
    PrimitivesAreScalars(k);
    if t in DeclaredVarTypes(k) {
      var p :| p in Primitives(k) && (t == p || t == Or(BYREF, p));
    }
  }

  /** Every tag listed in `VARTYPES` is accepted, and no other tag is: `from_variant`
      returns exactly on the declared tags and panics on all others. */
  lemma {:induction false} AcceptsExactlyDeclared(k: IntKind, v: Variant, mem: Memory)
    ensures FromVariant(k, v, mem).Returns? <==> v.vartype in DeclaredVarTypes(k)
  {
    FromVariantCases(k, v, mem);
    AcceptedTagsAreDeclared(k, v.vartype);
  }

  /** A tag with an accepted primitive type and container EMPTY or BYREF is a declared
      tag, and every declared tag is one. */
  lemma {:induction false} AcceptedTagsAreDeclared(k: IntKind, t: VarType)
    ensures Primitive(t) in Primitives(k) && (Container(t) == EMPTY || Container(t) == BYREF)
            <==> t in DeclaredVarTypes(k)
  {
    if Primitive(t) in Primitives(k) && (Container(t) == EMPTY || Container(t) == BYREF) {
      AcceptedIsDeclared(k, t);
    }
    if t in DeclaredVarTypes(k) {
      DeclaredIsAccepted(k, t);
    }
  }

  /** The accepted tags are among the declared ones. */
  lemma AcceptedIsDeclared(k: IntKind, t: VarType)
    requires Primitive(t) in Primitives(k) && (Container(t) == EMPTY || Container(t) == BYREF)
    ensures t in DeclaredVarTypes(k)
  {
    JoinOfSplit(t);
    DeclaredAreJoins(k, t);
  }

  /** The declared tags are among the accepted ones. */
  lemma DeclaredIsAccepted(k: IntKind, t: VarType)
    requires t in DeclaredVarTypes(k)
    ensures Primitive(t) in Primitives(k) && (Container(t) == EMPTY || Container(t) == BYREF)
  {
    DeclaredAreJoins(k, t);
    var p :| p in Primitives(k) && (t == p || t == Or(BYREF, p));
    PrimitivesAreScalars(k);
    ContainerOfJoin(t, p);
    PrimitiveOfJoin(t, p);
  }

  /** A tag with container EMPTY or BYREF is its primitive type, directly or by
      reference. */
  lemma JoinOfSplit(t: VarType)
    requires Container(t) == EMPTY || Container(t) == BYREF
    ensures t == Primitive(t) || t == Or(BYREF, Primitive(t))
  {
    var p := Primitive(t);
    if Container(t) == EMPTY {
      SplitDetermines(t, EMPTY, p);
      OrEmpty(p);
    } else {
      SplitDetermines(t, BYREF, p);
    }
  }

  lemma OrEmpty(p: VarType)
    ensures Or(EMPTY, p) == p
  {
  }

  /** A direct or by-reference tag of a primitive type has container EMPTY or BYREF. */
  lemma ContainerOfJoin(t: VarType, p: VarType)
    requires p.bits & 0xF000 == 0
    requires t == p || t == Or(BYREF, p)
    ensures Container(t) == EMPTY || Container(t) == BYREF
  {
    if t == p {
      OrEmpty(p);
      SplitDetermines(t, EMPTY, p);
    } else {
      SplitDetermines(t, BYREF, p);
    }
  }

  /** The declared tag sets of different integer types are disjoint, so a tag decodes to
      at most one integer type. */
  lemma {:induction false} DeclaredDisjoint(k1: IntKind, k2: IntKind, t: VarType)
    requires k1 != k2
    ensures !(t in DeclaredVarTypes(k1) && t in DeclaredVarTypes(k2))
  {
    if t in DeclaredVarTypes(k1) && t in DeclaredVarTypes(k2) {
      DeclaredAreJoins(k1, t);
      DeclaredAreJoins(k2, t);
      var p1 :| p1 in Primitives(k1) && (t == p1 || t == Or(BYREF, p1));
      var p2 :| p2 in Primitives(k2) && (t == p2 || t == Or(BYREF, p2));
      PrimitiveIsScalar(k1, p1);
      PrimitiveIsScalar(k2, p2);
      JoinsShareOnePrimitive(t, p1, p2);
      PrimitivesDisjoint(k1, k2, p1);
    }
  }

  /** A tag is the join (direct or by reference) of at most one primitive type. */
  lemma JoinsShareOnePrimitive(t: VarType, p1: VarType, p2: VarType)
    requires p1.bits & 0xF000 == 0 && p2.bits & 0xF000 == 0
    requires t == p1 || t == Or(BYREF, p1)
    requires t == p2 || t == Or(BYREF, p2)
    ensures p1 == p2
  {
    PrimitiveOfJoin(t, p1);
    PrimitiveOfJoin(t, p2);
  }

  /** A direct or by-reference tag of primitive type `p` has primitive type `p`. */
  lemma PrimitiveOfJoin(t: VarType, p: VarType)
    requires p.bits & 0xF000 == 0
    requires t == p || t == Or(BYREF, p)
    ensures Primitive(t) == p
  {
  }

  lemma {:induction false} PrimitivesDisjoint(k1: IntKind, k2: IntKind, p: VarType)
    requires k1 != k2
    ensures !(p in Primitives(k1) && p in Primitives(k2))
  {
  }

  /** `i32` accepts exactly I4, INT, BYREF|I4 and BYREF|INT, and `u32` exactly UI4, UINT,
      BYREF|UI4 and BYREF|UINT; I2 and VECTOR|I4 make `i32::from_variant` panic. */
  lemma {:induction false} ThirtyTwoBitTags(v: Variant, mem: Memory)
    ensures FromVariant(I32, v, mem).Returns? <==>
      v.vartype in {VarTypes.I4, INT, VarType(0x4003), VarType(0x4016)}
    ensures FromVariant(U32, v, mem).Returns? <==>
      v.vartype in {UI4, UINT, VarType(0x4013), VarType(0x4017)}
    ensures v.vartype == VarTypes.I2 || v.vartype == Or(VECTOR, VarTypes.I4) ==>
      FromVariant(I32, v, mem) == Panics
  {
    AcceptsExactlyDeclared(I32, v, mem);
    AcceptsExactlyDeclared(U32, v, mem);
    assert DeclaredVarTypes(I32) == [VarTypes.I4, INT, VarType(0x4003), VarType(0x4016)];
    assert DeclaredVarTypes(U32) == [UI4, UINT, VarType(0x4013), VarType(0x4017)];
  }

  /** `i8::from_variant`: tag I1 gives `c_val`, tag BYREF|I1 gives `*pc_val`, and the
      tags I2 and VECTOR|I1 panic. */
  lemma {:induction false} ByteTags(v: Variant, mem: Memory)
    ensures v.vartype == VarTypes.I1 ==> FromVariant(Ints.I8, v, mem) == Returns(ReadLow(Ints.I8, v.data))
    ensures v.vartype == Or(BYREF, VarTypes.I1) ==>
      FromVariant(Ints.I8, v, mem) == Returns(Deref(Ints.I8, v.data, mem))
    ensures v.vartype == VarTypes.I2 || v.vartype == Or(VECTOR, VarTypes.I1) ==>
      FromVariant(Ints.I8, v, mem) == Panics
  {
    FromVariantCases(Ints.I8, v, mem);
    ScalarSplits(VarTypes.I1);
    JoinSplits(BYREF, VarTypes.I1);
    ScalarSplits(VarTypes.I2);
    JoinSplits(VECTOR, VarTypes.I1);
  }

  /** Round trip: decoding the value built by the constructor for kind `k` gives back
      the value, whatever memory holds, and reads the field the constructor wrote. */
  lemma {:induction false} RoundTrip(k: IntKind, x: int, mem: Memory)
    requires InRange(k, x)
    ensures FromVariant(k, New(k, x), mem) == Returns(x)
  {
    DirectTagsHaveNoContainer(k);
    FromVariantCases(k, New(k, x), mem);
  }
}
