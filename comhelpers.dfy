/** The COM pointer helpers (`dcommon::helpers::com`). A raw interface pointer is an
    address, 0 being null; a `ComWrapper` owns one non-null pointer, and a wrapper that is
    `repr(transparent)` over its pointer has the pointer's size. */
module ComHelpers {
  import opened Wrappers
  import opened OutParams

  /** A non-null address. */
  type Address = x: nat | x > 0 witness 1

  /** The null pointer. */
  const NULL: nat := 0

  /** A `ComWrapper` built by `from_raw`: it holds the pointer it was given. */
  datatype Wrapper = Wrapper(raw: Address)

  /** `wrap_com`: panic on null, otherwise wrap the pointer. */
  function WrapCom(ptr: nat): (r: Checked<Wrapper>)
    ensures r.Panics? <==> ptr == NULL
    ensures r.Returns? ==> r.value.raw == ptr
  {
    if ptr == NULL then Panics else Returns(Wrapper(ptr))
  }

  /** `wrap_opt_com`: `None` for null, otherwise the wrapped pointer; never panics. */
  function WrapOptCom(ptr: nat): (r: Option<Wrapper>)
    ensures r.None? <==> ptr == NULL
    ensures r.Some? ==> r.value.raw == ptr
  {
    if ptr != NULL then Some(Wrapper(ptr)) else None
  }

  /** `unwrap_opt_com`: the wrapper's raw pointer, or null for `None`. */
  function UnwrapOptCom(com: Option<Wrapper>): (p: nat)
    ensures p == NULL <==> com.None?
    ensures com.Some? ==> p == com.value.raw
  {
    match com
    case Some(w) => w.raw
    case None => NULL
  }

  /** `unwrap_opt_com` undoes `wrap_opt_com` for every pointer, null included, and
      `wrap_opt_com` undoes `unwrap_opt_com` for every optional wrapper. */
  lemma {:induction false} OptComRoundTrip(p: nat, com: Option<Wrapper>)
    ensures UnwrapOptCom(WrapOptCom(p)) == p
    ensures WrapOptCom(UnwrapOptCom(com)) == com
  {
  }

  /** Where `wrap_com` returns, it agrees with `wrap_opt_com`; it panics exactly where
      `wrap_opt_com` gives `None`. */
  lemma {:induction false} WrapComAgreesWithOpt(p: nat)
    ensures WrapCom(p).Returns? <==> WrapOptCom(p).Some?
    ensures WrapCom(p).Returns? ==> WrapCom(p).value == WrapOptCom(p).value
  {
  }

  /** `wrap_ref_to_raw_com`: view a pointer slot as a wrapper. It asserts that the wrapper
      has the size of a pointer, then that the pointer is not null; the view holds the
      same pointer. */
  function WrapRefToRawCom(ptr: nat, wrapperSize: nat, pointerSize: nat): (r: Checked<Wrapper>)
    ensures r.Panics? <==> wrapperSize != pointerSize || ptr == NULL
    ensures r.Returns? ==> r.value.raw == ptr
  {
    if wrapperSize != pointerSize then Panics
    else if ptr == NULL then Panics
    else Returns(Wrapper(ptr))
  }

  /** `wrap_ref_to_raw_mut_com`: the same checks on a mutable slot; the result is the slot
      itself seen as a wrapper, so a write through it is a write to the slot. */
  function WrapRefToRawMutCom(slot: Cell<nat>, wrapperSize: nat, pointerSize: nat)
    : (r: Checked<Cell<nat>>)
    reads slot
    ensures r.Panics? <==> wrapperSize != pointerSize || slot.value == NULL
    ensures r.Returns? ==> r.value == slot
  {
    if wrapperSize != pointerSize then Panics
    else if slot.value == NULL then Panics
    else Returns(slot)
  }

  /** `wrap_opt_ref_to_raw_com`: the size assertion, then `None` for a null pointer
      instead of a panic. */
  function WrapOptRefToRawCom(ptr: nat, wrapperSize: nat, pointerSize: nat)
    : (r: Checked<Option<Wrapper>>)
    ensures r.Panics? <==> wrapperSize != pointerSize
    ensures r.Returns? ==> r.value == WrapOptCom(ptr)
  {
    if wrapperSize != pointerSize then Panics
    else if ptr == NULL then Returns(None)
    else Returns(Some(Wrapper(ptr)))
  }

  /** A size-correct slot gives a view with the non-optional helper exactly when it gives
      `Some` with the optional one, and the same view. */
  lemma {:induction false} RefViewsAgree(ptr: nat, size: nat)
    ensures WrapRefToRawCom(ptr, size, size).Returns? <==>
            WrapOptRefToRawCom(ptr, size, size) != Returns(None)
    ensures WrapRefToRawCom(ptr, size, size).Returns? ==>
            WrapOptRefToRawCom(ptr, size, size) == Returns(Some(WrapRefToRawCom(ptr, size, size).value))
  {
  }

  /** `deref_com_wrapper`: view a wrapper as a wrapper of a base interface. It asserts the
      two wrapper types have the same size; the view holds the same pointer, so no new
      handle (and no new reference) comes into being. */
  function DerefComWrapper(wrapper: Wrapper, fromSize: nat, toSize: nat): (r: Checked<Wrapper>)
    ensures r.Panics? <==> fromSize != toSize
    ensures r.Returns? ==> r.value.raw == wrapper.raw
  {
    if toSize != fromSize then Panics else Returns(wrapper)
  }

  /** `deref_com_wrapper_mut`: the same check; the view is the wrapper's own storage. */
  function DerefComWrapperMut(wrapper: Cell<Address>, fromSize: nat, toSize: nat)
    : (r: Checked<Cell<Address>>)
    ensures r.Panics? <==> fromSize != toSize
    ensures r.Returns? ==> r.value == wrapper
  {
    if toSize != fromSize then Panics else Returns(wrapper)
  }
}
