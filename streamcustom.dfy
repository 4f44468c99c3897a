/** `CustomStream` (`dcommon::objidl::stream::custom`): an `IStream` served by a Rust
    `Stream`. The host stream is not modelled: each call takes the host's answer as a
    function of the arguments the adapter hands it. Every method runs under a panic guard
    that turns a panic into E_FAIL. */
module StreamCustom {
  import opened Wrappers
  import opened Ints
  import opened Errors
  import opened OutParams
  import opened ComHelpers
  import Streams
  import SequentialStreamCustom

  /** The size of a `Stream` wrapper and of a raw pointer; `Stream` is transparent over
      its pointer. */
  const POINTER_SIZE: nat := 8
  const STREAM_SIZE: nat := 8

  /** The origin decoding of `seek`: SET reads the amount as `u64`, CUR and END keep it,
      any other origin panics. */
  function DecodeSeek(moveAmount: i64, origin: u32): (r: Checked<Streams.SeekFrom>)
    ensures r.Panics? <==> origin > Streams.STREAM_SEEK_END
    ensures origin == Streams.STREAM_SEEK_SET ==> r == Returns(Streams.Start(I64AsU64(moveAmount)))
    ensures origin == Streams.STREAM_SEEK_CUR ==> r == Returns(Streams.Current(moveAmount))
    ensures origin == Streams.STREAM_SEEK_END ==> r == Returns(Streams.End(moveAmount))
  {
    if origin == Streams.STREAM_SEEK_SET then Returns(Streams.Start(I64AsU64(moveAmount)))
    else if origin == Streams.STREAM_SEEK_CUR then Returns(Streams.Current(moveAmount))
    else if origin == Streams.STREAM_SEEK_END then Returns(Streams.End(moveAmount))
    else Panics
  }

  /** The decoding undoes the caller's encoding for every position, and the encoding
      undoes the decoding for every argument pair that decodes. */
  lemma {:induction false} SeekCodecRoundTrip(pos: Streams.SeekFrom, moveAmount: i64, origin: u32)
    ensures var a := Streams.EncodeSeek(pos); DecodeSeek(a.moveAmount, a.origin) == Returns(pos)
    ensures DecodeSeek(moveAmount, origin).Returns? ==>
      Streams.EncodeSeek(DecodeSeek(moveAmount, origin).value) == Streams.SeekArgs(moveAmount, origin)
  {
    ReinterpretRoundTrip(moveAmount, 0);
    match pos
    case Start(p) =>
      ReinterpretRoundTrip(0, p);
    case Current(_) =>
    case End(_) =>
  }

  /** The status passthrough of `commit`, `copy_to`, `lock_region`, `revert`, `set_size`,
      `stat` and `unlock_region`: a status code when it is a success, an error code when
      it is a failure; a code of the wrong polarity fails its assertion, and that panic,
      like a panic of the host, ends as E_FAIL. */
  function Passthrough(host: Checked<Result<Status>>): (hr: HResult)
    ensures Succeeded(hr) <==> host.Returns? && host.value.Ok? && Succeeded(host.value.value.code)
    ensures Succeeded(hr) ==> host == Returns(Ok(Status(hr)))
    ensures IsFailure(hr) && hr != E_FAIL ==> host == Returns(Err(Error(hr)))
    ensures host.Returns? && host.value.Err? && IsFailure(host.value.error.code) ==>
      hr == host.value.error.code
  {
    match host
    case Panics => E_FAIL
    case Returns(Ok(Status(status))) =>
      if Succeeded(status) then status else E_FAIL
    case Returns(Err(Error(error))) =>
      if !Succeeded(error) then error else E_FAIL
  }

  /** A caller mapping the code with `map_status` gets back the host's answer whenever that
      answer has the right polarity; a host panic reads as `Err(E_FAIL)`. */
  lemma {:induction false} PassthroughThenMapStatus(host: Checked<Result<Status>>)
    requires host.Returns? && host.value.Ok? ==> Succeeded(host.value.value.code)
    requires host.Returns? && host.value.Err? ==> IsFailure(host.value.error.code)
    ensures host.Returns? ==> MapStatus(Passthrough(host)) == host.value
    ensures host.Panics? ==> MapStatus(Passthrough(host)) == Err(Error(E_FAIL))
  {
    match host
    case Panics =>
      assert IsFailure(E_FAIL);
    case Returns(Ok(s)) =>
    case Returns(Err(e)) =>
  }

  /** `read`: the sequential-stream transfer, shared with `CustomSequentialStream`. */
  method Read(cb: u32, pcbRead: Cell<u32>, host: nat -> Checked<Result<u32>>)
    returns (hr: HResult)
    modifies pcbRead
    ensures SequentialStreamCustom.Transfer(hr, pcbRead.value) ==
            SequentialStreamCustom.TransferOf(host(cb as nat))
  {
    hr := SequentialStreamCustom.Exchange(cb, pcbRead, host);
  }

  /** `write`: the sequential-stream transfer, shared with `CustomSequentialStream`. */
  method Write(cb: u32, pcbWritten: Cell<u32>, host: nat -> Checked<Result<u32>>)
    returns (hr: HResult)
    modifies pcbWritten
    ensures SequentialStreamCustom.Transfer(hr, pcbWritten.value) ==
            SequentialStreamCustom.TransferOf(host(cb as nat))
  {
    hr := SequentialStreamCustom.Exchange(cb, pcbWritten, host);
  }

  /** `clone(ppstm)`: null `*ppstm` first; on `Ok` store the new stream's pointer and
      return S_OK, on `Err(e)` return e's code with `*ppstm` still null. */
  method Clone(ppstm: Cell<nat>, host: Checked<Result<Address>>) returns (hr: HResult)
    modifies ppstm
    ensures host.Panics? ==> hr == E_FAIL && ppstm.value == NULL
    ensures host.Returns? && host.value.Err? ==> hr == host.value.error.code && ppstm.value == NULL
    ensures host.Returns? && host.value.Ok? ==> hr == S_OK && ppstm.value == host.value.value
    ensures ppstm.value != NULL ==> hr == S_OK
  {
    ppstm.value := NULL;
    match host
    case Panics =>
      hr := E_FAIL;
    case Returns(Err(e)) =>
      hr := e.code;
    case Returns(Ok(stream)) =>
      ppstm.value := stream;
      hr := S_OK;
  }

  /** `commit(flags)`: the flags reach the host unchanged. */
  function Commit(flags: u32, host: u32 -> Checked<Result<Status>>): (hr: HResult)
    ensures hr == Passthrough(host(flags))
  {
    Passthrough(host(flags))
  }

  /** `lock_region(offset, cb, locktype)`: the three arguments reach the host unchanged. */
  function LockRegion(offset: u64, cb: u64, lockType: u32,
                      host: (u64, u64, u32) -> Checked<Result<Status>>): (hr: HResult)
    ensures hr == Passthrough(host(offset, cb, lockType))
  {
    Passthrough(host(offset, cb, lockType))
  }

  /** `revert`. */
  function Revert(host: Checked<Result<Status>>): (hr: HResult)
    ensures hr == Passthrough(host)
  {
    Passthrough(host)
  }

  /** `set_size(newsize)`: the size reaches the host unchanged. */
  function SetSize(newSize: u64, host: u64 -> Checked<Result<Status>>): (hr: HResult)
    ensures hr == Passthrough(host(newSize))
  {
    Passthrough(host(newSize))
  }

  /** `stat(pstat, statflag)`: the host fills the caller's record in place and receives
      the flags unchanged. */
  function Stat(statFlag: u32, host: u32 -> Checked<Result<Status>>): (hr: HResult)
    ensures hr == Passthrough(host(statFlag))
  {
    Passthrough(host(statFlag))
  }

  /** `unlock_region(offset, cb, locktype)`: the three arguments reach the host unchanged. */
  function UnlockRegion(offset: u64, cb: u64, lockType: u32,
                        host: (u64, u64, u32) -> Checked<Result<Status>>): (hr: HResult)
    ensures hr == Passthrough(host(offset, cb, lockType))
  {
    Passthrough(host(offset, cb, lockType))
  }

  /** `seek(moveamt, origin, newpos)`: decode the origin (an unknown one panics), seek the
      host, and on `Ok(pos)` store pos through `newpos` when it is not null and return
      S_OK; on `Err(e)` return e's code. `*newpos` is written nowhere else. */
  method Seek(moveAmount: i64, origin: u32, newpos: Option<Cell<u64>>,
              host: Streams.SeekFrom -> Checked<Result<u64>>) returns (hr: HResult)
    modifies if newpos.Some? then {newpos.value} else {}
    ensures DecodeSeek(moveAmount, origin).Panics? ==> hr == E_FAIL
    ensures var d := DecodeSeek(moveAmount, origin);
      d.Returns? && host(d.value).Returns? && host(d.value).value.Ok? ==>
        hr == S_OK && (newpos.Some? ==> newpos.value.value == host(d.value).value.value)
    ensures var d := DecodeSeek(moveAmount, origin);
      d.Returns? && host(d.value).Returns? && host(d.value).value.Err? ==>
        hr == host(d.value).value.error.code
    ensures var d := DecodeSeek(moveAmount, origin);
      d.Returns? && host(d.value).Panics? ==> hr == E_FAIL
    ensures newpos.Some? && hr != S_OK ==> newpos.value.value == old(newpos.value.value)
    ensures var d := DecodeSeek(moveAmount, origin);
      newpos.Some? && !(d.Returns? && host(d.value).Returns? && host(d.value).value.Ok?) ==>
        newpos.value.value == old(newpos.value.value)
  {
    var seek := DecodeSeek(moveAmount, origin);
    if seek.Panics? {
      return E_FAIL;
    }
    var answer := host(seek.value);
    match answer
    case Panics =>
      hr := E_FAIL;
    case Returns(Err(e)) =>
      hr := e.code;
      if newpos.Some? && hr == S_OK {
        // An error carrying code 0 reads as S_OK, with `*newpos` not written.
        assert newpos.value.value == old(newpos.value.value);
      }
    case Returns(Ok(pos)) =>
      if newpos.Some? {
        newpos.value.value := pos;
      }
      hr := S_OK;
  }

  /** What the host's `copy_to` answers with: its result and the counts it stored in the
      two locals it was lent. */
  datatype CopyAnswer = CopyAnswer(result: Result<Status>, read: u64, written: u64)

  /** `copy_to` as written: zero both counters, view `other` as a `Stream` (which panics on
      null), let the host copy `cb` bytes, store both counts whatever the result, then pass
      the status through. Both counters are dereferenced unconditionally, so the code is
      defined only when neither is null. */
  method CopyToAsWritten(other: nat, cb: u64, pcbread: Cell<u64>, pcbwritten: Cell<u64>,
                         host: (Wrapper, u64) -> Checked<CopyAnswer>) returns (hr: HResult)
    modifies pcbread, pcbwritten
    ensures other == NULL ==> hr == E_FAIL && pcbread.value == 0 && pcbwritten.value == 0
    ensures other != NULL ==> CopyOutcome(host(Wrapper(other), cb), Some(pcbread), Some(pcbwritten), hr)
  {
    pcbread.value := 0;
    pcbwritten.value := 0;
    var slot := new Cell<nat>(other);
    var view := WrapRefToRawMutCom(slot, STREAM_SIZE, POINTER_SIZE);
    if view.Panics? {
      return E_FAIL;
    }
    var answer := host(Wrapper(view.value.value), cb);
    if answer.Panics? {
      return E_FAIL;
    }
    pcbread.value := answer.value.read;
    pcbwritten.value := answer.value.written;
    hr := Passthrough(Returns(answer.value.result));
  }

  /** The caller in this crate hands `IStream::CopyTo` a null counter whenever it is not
      given one, which the as-written adapter would write through. */
  lemma {:induction false} CallerPassesNullCounter(other: Wrapper, count: u64, hr: HResult)
    ensures Streams.CopyTo(other, count, None, None, hr).0.dest == other.raw
    ensures Streams.CopyTo(other, count, None, None, hr).0.readCounter == NULL
    ensures Streams.CopyTo(other, count, None, None, hr).0.writtenCounter == NULL
  {
  }

  /** `copy_to` with null counters allowed, as `IStream::CopyTo` permits: the same steps,
      with each store made only through a counter that is present. */
  method CopyTo(other: nat, cb: u64, pcbread: Option<Cell<u64>>, pcbwritten: Option<Cell<u64>>,
                host: (Wrapper, u64) -> Checked<CopyAnswer>) returns (hr: HResult)
    modifies if pcbread.Some? then {pcbread.value} else {}
    modifies if pcbwritten.Some? then {pcbwritten.value} else {}
    ensures other == NULL ==> hr == E_FAIL
    ensures other == NULL && pcbread.Some? ==> pcbread.value.value == 0
    ensures other == NULL && pcbwritten.Some? ==> pcbwritten.value.value == 0
    ensures other != NULL ==> CopyOutcome(host(Wrapper(other), cb), pcbread, pcbwritten, hr)
  {
    if pcbread.Some? {
      pcbread.value.value := 0;
    }
    if pcbwritten.Some? {
      pcbwritten.value.value := 0;
    }
    var slot := new Cell<nat>(other);
    var view := WrapRefToRawMutCom(slot, STREAM_SIZE, POINTER_SIZE);
    if view.Panics? {
      return E_FAIL;
    }
    var answer := host(Wrapper(view.value.value), cb);
    if answer.Panics? {
      hr := E_FAIL;
    } else {
      if pcbread.Some? {
        pcbread.value.value := answer.value.read;
      }
      if pcbwritten.Some? {
        pcbwritten.value.value := answer.value.written;
      }
      hr := Passthrough(Returns(answer.value.result));
    }
  }

  /** The count `*pcbread` ends with: the written count when both counters are one
      location, since that store comes last. */
  function StoredRead(a: CopyAnswer, pcbread: Option<Cell<u64>>, pcbwritten: Option<Cell<u64>>)
    : (n: u64)
    ensures pcbread.Some? && pcbwritten.Some? && pcbread.value == pcbwritten.value ==> n == a.written
    ensures pcbread.None? || pcbwritten.None? || pcbread.value != pcbwritten.value ==> n == a.read
  {
    if pcbread.Some? && pcbwritten.Some? && pcbwritten.value == pcbread.value then a.written else a.read
  }

  /** The state `copy_to` leaves for the host's answer: a host panic leaves the counters
      at 0 and gives E_FAIL; otherwise each present counter holds the host's count (the
      written count, stored last, when both are one location) and the code is the
      passthrough of the host's result. */
  ghost predicate CopyOutcome(answer: Checked<CopyAnswer>, pcbread: Option<Cell<u64>>,
                              pcbwritten: Option<Cell<u64>>, hr: HResult)
    reads if pcbread.Some? then {pcbread.value} else {}
    reads if pcbwritten.Some? then {pcbwritten.value} else {}
  {
    match answer
    case Panics =>
      hr == E_FAIL && (pcbread.Some? ==> pcbread.value.value == 0) &&
      (pcbwritten.Some? ==> pcbwritten.value.value == 0)
    case Returns(a) =>
      hr == Passthrough(Returns(a.result)) &&
      (pcbread.Some? ==> pcbread.value.value == StoredRead(a, pcbread, pcbwritten)) &&
      (pcbwritten.Some? ==> pcbwritten.value.value == a.written)
  }
}
