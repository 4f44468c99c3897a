/** `CustomSequentialStream` (`dcommon::objidl::sequential_stream::custom`): an
    `ISequentialStream` served by a Rust `SequentialStream`. The host stream is not modelled:
    each call takes the host's answer as a function of the byte count it is handed. */
module SequentialStreamCustom {
  import opened Wrappers
  import opened Ints
  import opened Errors
  import opened OutParams

  /** What a transfer leaves behind: the returned code and the count written to the
      out-parameter. */
  datatype Transfer = Transfer(hr: HResult, count: u32)

  /** The outcome of one `read` or `write` for the host's answer: `Ok(n)` reports n bytes
      and S_OK; `Err(e)` reports 0 bytes and e's code; a host panic is caught and reported
      as E_FAIL with 0 bytes. */
  function TransferOf(host: Checked<Result<u32>>): (t: Transfer)
    ensures host.Returns? && host.value.Ok? ==> t == Transfer(S_OK, host.value.value)
    ensures host.Returns? && host.value.Err? ==> t == Transfer(host.value.error.code, 0)
    ensures host.Panics? ==> t == Transfer(E_FAIL, 0)
    ensures t.count != 0 ==> t.hr == S_OK
  {
    match host
    case Panics => Transfer(E_FAIL, 0)
    case Returns(Ok(n)) => Transfer(S_OK, n)
    case Returns(Err(e)) => Transfer(e.code, 0)
  }

  /** A caller that maps the returned code and count with `Error::map` gets back what the
      host answered, provided the host's errors carry failure codes; the outcome of a host
      panic reads as `Err(E_FAIL)`. */
  lemma {:induction false} TransferThenMap(host: Checked<Result<u32>>)
    requires host.Returns? && host.value.Err? ==> IsFailure(host.value.error.code)
    ensures var t := TransferOf(host);
      host.Returns? ==> Map(t.hr, t.count) == host.value
    ensures var t := TransferOf(host);
      host.Panics? ==> Map(t.hr, t.count) == Err(Error(E_FAIL))
  {
    match host
    case Panics =>
      assert IsFailure(E_FAIL);
    case Returns(Ok(n)) =>
      assert Succeeded(S_OK);
    case Returns(Err(e)) =>
  }

  /** The shared body of `read` and `write`: zero `*count`, hand the host `cb` bytes, and on
      `Ok(n)` store n and return S_OK, otherwise return the error's code (or E_FAIL when
      the host panics) with `*count` left at 0. */
  method Exchange(cb: u32, count: Cell<u32>, host: nat -> Checked<Result<u32>>)
    returns (hr: HResult)
    modifies count
    ensures Transfer(hr, count.value) == TransferOf(host(cb as nat))
  {
    count.value := 0;
    var answer := host(cb as nat);
    match answer
    case Panics =>
      hr := E_FAIL;
    case Returns(Ok(n)) =>
      count.value := n;
      hr := S_OK;
    case Returns(Err(e)) =>
      hr := e.code;
  }

  /** `read(pv, cb, pcbRead)`: the host reads into a slice of exactly `cb` bytes. */
  method Read(cb: u32, pcbRead: Cell<u32>, host: nat -> Checked<Result<u32>>)
    returns (hr: HResult)
    modifies pcbRead
    ensures Transfer(hr, pcbRead.value) == TransferOf(host(cb as nat))
  {
    hr := Exchange(cb, pcbRead, host);
  }

  /** `write(pv, cb, pcbWritten)`: the host writes from a slice of exactly `cb` bytes. */
  method Write(cb: u32, pcbWritten: Cell<u32>, host: nat -> Checked<Result<u32>>)
    returns (hr: HResult)
    modifies pcbWritten
    ensures Transfer(hr, pcbWritten.value) == TransferOf(host(cb as nat))
  {
    hr := Exchange(cb, pcbWritten, host);
  }
}
