/** `EnumString` (`dcommon::objidl::enum_string`): the caller's side of `IEnumString`.
    The foreign `Next` is an input: the code `hr` it returns, the count `fetched` it writes,
    and `filled`, the contents of the slot buffer after it returns. */
module EnumStrings {
  import opened Wrappers
  import opened Ints
  import opened Errors
  import opened EnumStringCustom
  import opened ComHelpers

  const U32_MAX: nat := 0xFFFF_FFFF

  /** How many slots `iter_mut().take(fetched)` visits in a buffer of `len` slots. */
  function Taken(len: nat, fetched: nat): (n: nat)
    ensures n <= len && n <= fetched && (n == len || n == fetched)
  {
    if fetched < len then fetched else len
  }

  /** `next_elems(strings)`: assert the buffer is shorter than `u32::MAX`, let the foreign
      `Next` fill it, and on a failure code clear the first `fetched` slots (`take` stops
      at the end of the buffer) before mapping the code; any success code, S_FALSE
      included, gives `Ok(fetched)`. */
  method NextElems(strings: array<Option<OleStr>>, hr: HResult, fetched: u32,
                   filled: seq<Option<OleStr>>) returns (r: Checked<Result<nat>>)
    requires |filled| == strings.Length
    modifies strings
    ensures r.Panics? <==> strings.Length >= U32_MAX
    ensures r.Panics? ==> strings[..] == old(strings[..])
    ensures r.Returns? ==> r.value == Map(hr, fetched as nat)
    ensures r.Returns? && Succeeded(hr) ==> strings[..] == filled
    ensures r.Returns? && IsFailure(hr) ==>
      var cleared := Taken(|filled|, fetched);
      (forall i | 0 <= i < cleared :: strings[i] == None) &&
      strings[cleared..] == filled[cleared..]
  {
    if strings.Length >= U32_MAX {
      return Panics;
    }
    forall i | 0 <= i < strings.Length {
      strings[i] := filled[i];
    }
    if IsFailure(hr) {
      var n := Taken(strings.Length, fetched);
      var i := 0;
      while i < n
        invariant 0 <= i <= n
        invariant forall j | 0 <= j < i :: strings[j] == None
        invariant strings[i..] == filled[i..]
      {
        strings[i] := None;
        i := i + 1;
      }
    }
    r := Returns(Map(hr, fetched as nat));
  }

  /** `next_elem`: `next_elems` on a one-slot buffer; 0 fetched is `None`, 1 is the
      string the slot received, any other count panics. */
  method NextElem(hr: HResult, fetched: u32, slot: Option<OleStr>)
    returns (r: Checked<Result<Option<OleStr>>>)
    ensures IsFailure(hr) ==> r == Returns(Err(Error(hr)))
    ensures Succeeded(hr) && fetched == 0 ==> r == Returns(Ok(None))
    ensures Succeeded(hr) && fetched == 1 ==> r == Returns(Ok(slot))
    ensures Succeeded(hr) && fetched > 1 ==> r == Panics
  {
    var buf := new Option<OleStr>[1](_ => None);
    var n := NextElems(buf, hr, fetched, [slot]);
    match n
    case Panics =>
      r := Panics;
    case Returns(Err(e)) =>
      r := Returns(Err(e));
    case Returns(Ok(count)) =>
      if count == 0 {
        r := Returns(Ok(None));
      } else if count == 1 {
        r := Returns(Ok(buf[0]));
      } else {
        r := Panics;
      }
  }

  /** `Iterator::next`: `next_elem` with an error read as the end of the iteration. */
  method IteratorNext(hr: HResult, fetched: u32, slot: Option<OleStr>)
    returns (r: Checked<Option<OleStr>>)
    ensures IsFailure(hr) ==> r == Returns(None)
    ensures Succeeded(hr) && fetched == 0 ==> r == Returns(None)
    ensures Succeeded(hr) && fetched == 1 ==> r == Returns(slot)
    ensures Succeeded(hr) && fetched > 1 ==> r == Panics
    ensures r.Returns? && r.value.Some? ==> Succeeded(hr) && fetched == 1
  {
    var e := NextElem(hr, fetched, slot);
    match e
    case Panics =>
      r := Panics;
    case Returns(Err(_)) =>
      r := Returns(None);
    case Returns(Ok(s)) =>
      r := Returns(s);
  }

  /** `skip(count)`: the foreign `Skip` receives the count; its code is mapped with the
      status kept, so S_FALSE (fewer strings left than skipped) stays apart from S_OK. */
  function Skip(count: u32, hr: HResult): (r: (u32, Result<Status>))
    ensures r.0 == count
    ensures r.1.Ok? <==> Succeeded(hr)
    ensures r.1.Ok? ==> r.1.value.code == hr
    ensures r.1.Err? ==> r.1.error.code == hr
  {
    (count, MapStatus(hr))
  }

  /** `reset`: the foreign `Reset`'s code, mapped with the status kept. */
  function Reset(hr: HResult): (r: Result<Status>)
    ensures r.Ok? <==> Succeeded(hr)
    ensures r.Ok? ==> r.value.code == hr
    ensures r.Err? ==> r.error.code == hr
  {
    MapStatus(hr)
  }

  /** `try_clone`: the foreign `Clone` writes a pointer `ptr` into a slot that starts
      null; on a failure code the pointer is ignored, on success it is wrapped, and a
      null pointer then panics in `from_raw`. */
  function TryClone(hr: HResult, ptr: nat): (r: Checked<Result<Wrapper>>)
    ensures IsFailure(hr) ==> r == Returns(Err(Error(hr)))
    ensures Succeeded(hr) ==> (r.Panics? <==> ptr == NULL)
    ensures Succeeded(hr) && ptr != NULL ==> r == Returns(Ok(Wrapper(ptr)))
  {
    MapIf(hr, () => WrapCom(ptr))
  }

  /** Whatever the foreign call writes, a failing `Clone` gives the same answer, so the
      pointer is read only on success. */
  lemma {:induction false} FailedCloneIgnoresPointer(hr: HResult, p: nat, q: nat)
    requires IsFailure(hr)
    ensures TryClone(hr, p) == TryClone(hr, q)
  {
  }
}
