/** `CustomEnumString` (`dcommon::objidl::enum_string::custom`): an `IEnumString` served
    from a Rust iterator of strings. The iterator is fused, so it is modelled by the
    sequence of strings it has still to yield; `original` is the copy taken at creation
    that `reset` restores, and `hasCloneFn` says whether the clone function is present. */
module EnumStringCustom {
  import opened Wrappers
  import opened Ints
  import opened Errors

  /** The string an `LPOLESTR` handed to the caller points at. */
  type OleStr = seq<u16>

  /** How many strings a request for `ce` takes from `remaining`: all that are asked for,
      or all that are left when fewer are. */
  function Fetched(remaining: seq<OleStr>, ce: nat): (tot: nat)
    ensures tot <= ce && tot <= |remaining|
    ensures tot == ce || tot == |remaining|
  {
    if |remaining| < ce then |remaining| else ce
  }

  /** `next`'s result code: S_FALSE when fewer strings than asked for came back. */
  function NextStatus(ce: nat, tot: nat): HResult {
    if tot < ce then S_FALSE else S_OK
  }

  /** `next` answers S_FALSE exactly when fewer than `ce` strings were left, and S_OK
      otherwise; asking for none answers S_OK. */
  lemma {:induction false} NextStatusMeaning(remaining: seq<OleStr>, ce: nat)
    ensures NextStatus(ce, Fetched(remaining, ce)) == S_FALSE <==> |remaining| < ce
    ensures NextStatus(ce, Fetched(remaining, ce)) == S_OK <==> |remaining| >= ce
    ensures NextStatus(0, Fetched(remaining, 0)) == S_OK
  {
  }

  /** Two requests in a row deliver, in order, the strings one request for the sum would,
      and leave the same strings behind: the enumerator neither loses nor repeats one. */
  lemma {:induction false} NextThenNext(items: seq<OleStr>, a: nat, b: nat)
    ensures var t1 := Fetched(items, a);
      var rest := items[t1..];
      var t2 := Fetched(rest, b);
      items[..t1] + rest[..t2] == items[..Fetched(items, a + b)] &&
      rest[t2..] == items[Fetched(items, a + b)..]
  {
    var t1 := Fetched(items, a);
    var rest := items[t1..];
    var t2 := Fetched(rest, b);
    assert t1 + t2 == Fetched(items, a + b);
    assert items[..t1] + rest[..t2] == items[..t1 + t2] by {
      assert forall i | 0 <= i < t1 + t2 :: (items[..t1] + rest[..t2])[i] == items[i];
    }
  }

  /** Fused: once a request comes back short, nothing is left, and every later request
      fetches nothing and answers S_FALSE unless it asks for nothing. */
  lemma {:induction false} ShortNextExhausts(items: seq<OleStr>, ce: nat, later: nat)
    requires NextStatus(ce, Fetched(items, ce)) == S_FALSE
    ensures items[Fetched(items, ce)..] == []
    ensures Fetched([], later) == 0
    ensures later > 0 ==> NextStatus(later, Fetched([], later)) == S_FALSE
  {
    NextStatusMeaning(items, ce);
  }

  class CustomEnumString {
    var iter: seq<OleStr>
    var original: Option<seq<OleStr>>
    var hasCloneFn: bool

    /** Both constructors and `clone` set the original copy exactly when they set the
        clone function. */
    ghost predicate Valid()
      reads this
    {
      original.Some? == hasCloneFn
    }

    /** `create`: fuse the iterator, keep a clone of it as the original, and install the
        iterator's `clone` as the clone function. */
    constructor Create(items: seq<OleStr>)
      ensures iter == items && original == Some(items) && hasCloneFn && Valid()
    {
      iter := items;
      original := Some(items);
      hasCloneFn := true;
    }

    /** `create_without_clone`: no original copy and no clone function. */
    constructor CreateWithoutClone(items: seq<OleStr>)
      ensures iter == items && original == None && !hasCloneFn && Valid()
    {
      iter := items;
      original := None;
      hasCloneFn := false;
    }

    /** `create_raw`, as `clone` calls it. */
    constructor CreateRaw(items: seq<OleStr>, orig: Option<seq<OleStr>>, cloneFn: bool)
      ensures iter == items && original == orig && hasCloneFn == cloneFn
    {
      iter := items;
      original := orig;
      hasCloneFn := cloneFn;
    }

    /** `next(ce, out, pce)`: move up to `ce` strings, in order, into `out[0..tot]`, leave
        the slots from `tot` on alone, and return `tot` (written to `*pce`) with S_FALSE
        when `tot < ce`. The caller provides `ce` slots. */
    method Next(ce: u32, out: array<OleStr>) returns (hr: HResult, pce: u32)
      requires out.Length >= ce
      modifies this, out
      ensures pce == Fetched(old(iter), ce)
      ensures out[..pce] == old(iter)[..pce]
      ensures out[pce..] == old(out[pce..])
      ensures iter == old(iter)[pce..]
      ensures hr == NextStatus(ce, pce)
      ensures hr == S_FALSE <==> |old(iter)| < ce
      ensures original == old(original) && hasCloneFn == old(hasCloneFn)
    {
      var tot: u32 := 0;
      var i: u32 := 0;
      while i < ce
        invariant i <= ce && i <= |old(iter)| && tot == i
        invariant iter == old(iter)[i..]
        invariant out[..i] == old(iter)[..i]
        invariant forall j | i <= j < out.Length :: out[j] == old(out[j])
        invariant original == old(original) && hasCloneFn == old(hasCloneFn)
      {
        if |iter| == 0 {
          break;
        }
        out[i] := iter[0];
        iter := iter[1..];
        tot := tot + 1;
        i := i + 1;
      }
      pce := tot;
      hr := if tot < ce then S_FALSE else S_OK;
      NextStatusMeaning(old(iter), ce);
    }

    /** `clone`: E_NOTIMPL without a clone function; otherwise a new enumerator with the
        same remaining strings, the same original and the clone function, written to
        `*other`, and S_OK. The source is not changed. */
    method Clone() returns (hr: HResult, other: Option<CustomEnumString>)
      requires Valid()
      ensures hr == E_NOTIMPL <==> !hasCloneFn
      ensures hr == S_OK <==> hasCloneFn
      ensures hr != S_OK ==> other.None?
      ensures hr == S_OK ==> other.Some? && fresh(other.value) && other.value.Valid()
      ensures hr == S_OK ==> other.Some? && other.value.iter == iter &&
                             other.value.original == original && other.value.hasCloneFn
    {
      if !hasCloneFn {
        return E_NOTIMPL, None;
      }
      var c := new CustomEnumString.CreateRaw(iter, original, true);
      return S_OK, Some(c);
    }

    /** `reset`: E_NOTIMPL, changing nothing, without an original or a clone function;
        otherwise the remaining strings become the original ones again, and S_OK. */
    method Reset() returns (hr: HResult)
      modifies this
      ensures hr == S_OK <==> original.Some? && hasCloneFn
      ensures hr != S_OK ==> hr == E_NOTIMPL && iter == old(iter)
      ensures hr == S_OK ==> iter == original.value
      ensures original == old(original) && hasCloneFn == old(hasCloneFn)
    {
      match original
      case None =>
        return E_NOTIMPL;
      case Some(orig) =>
        if !hasCloneFn {
          return E_NOTIMPL;
        }
        iter := orig;
        return S_OK;
    }

    /** `skip(count)`: advance `count` times; past the end the fused iterator stays
        empty. Always S_OK. */
    method Skip(count: u32) returns (hr: HResult)
      modifies this
      ensures iter == old(iter)[Fetched(old(iter), count)..]
      ensures hr == S_OK
      ensures original == old(original) && hasCloneFn == old(hasCloneFn)
    {
      var k: u32 := 0;
      while k < count
        invariant k <= count
        invariant iter == old(iter)[Fetched(old(iter), k)..]
        invariant original == old(original) && hasCloneFn == old(hasCloneFn)
      {
        if |iter| > 0 {
          iter := iter[1..];
        }
        k := k + 1;
      }
      hr := S_OK;
    }
  }

  /** A `create`d enumerator can always go back to the start: whatever `next` and `skip`
      took, `reset` restores every string and answers S_OK. */
  method CreateConsumeReset(items: seq<OleStr>, ce: u32, n: u32, out: array<OleStr>)
    returns (hr: HResult, e: CustomEnumString)
    requires out.Length >= ce
    modifies out
    ensures fresh(e) && hr == S_OK && e.iter == items
  {
    e := new CustomEnumString.Create(items);
    var _, _ := e.Next(ce, out);
    var _ := e.Skip(n);
    hr := e.Reset();
  }

  /** A `create_without_clone`d enumerator can neither reset nor clone. */
  method WithoutCloneRefuses(items: seq<OleStr>) returns (reset: HResult, clone: HResult)
    ensures reset == E_NOTIMPL && clone == E_NOTIMPL
  {
    var e := new CustomEnumString.CreateWithoutClone(items);
    reset := e.Reset();
    var other;
    clone, other := e.Clone();
  }
}
