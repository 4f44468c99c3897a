/** `Stream` (`dcommon::objidl::stream`): the caller's side of `IStream`. Each operation
    builds the arguments of one foreign call and maps the code that call returns; the
    foreign call is an input, given as its result code and out-values. */
module Streams {
  import opened Wrappers
  import opened Ints
  import opened Errors
  import opened IoErrors
  import opened ComHelpers

  /** `std::io::SeekFrom`. */
  datatype SeekFrom = Start(offset: u64) | Current(delta: i64) | End(delta: i64)

  // The platform's `STREAM_SEEK` origins.
  const STREAM_SEEK_SET: u32 := 0
  const STREAM_SEEK_CUR: u32 := 1
  const STREAM_SEEK_END: u32 := 2

  /** `CommitFlags::DEFAULT`. */
  const COMMIT_DEFAULT: u32 := 0

  /** The move amount and origin `IStream::Seek` receives. */
  datatype SeekArgs = SeekArgs(moveAmount: i64, origin: u32)

  /** `std::io::Result<T>`. */
  datatype IoResult<+T> = IoOk(value: T) | IoErr(error: IoError)

  /** `seek`'s encoding of the origin: `Start(p)` sends `p as i64` from SET, `Current` and
      `End` send their offset unchanged from CUR and END. */
  function EncodeSeek(pos: SeekFrom): (args: SeekArgs)
    ensures pos.Start? ==> args == SeekArgs(U64AsI64(pos.offset), STREAM_SEEK_SET)
    ensures pos.Current? ==> args == SeekArgs(pos.delta, STREAM_SEEK_CUR)
    ensures pos.End? ==> args == SeekArgs(pos.delta, STREAM_SEEK_END)
    ensures pos.Start? ==> I64AsU64(args.moveAmount) == pos.offset
  {
    match pos
    case Start(p) =>
      ReinterpretRoundTrip(0, p);
      SeekArgs(U64AsI64(p), STREAM_SEEK_SET)
    case Current(p) => SeekArgs(p, STREAM_SEEK_CUR)
    case End(p) => SeekArgs(p, STREAM_SEEK_END)
  }

  /** Different positions are sent as different arguments. */
  lemma {:induction false} EncodeSeekInjective(p: SeekFrom, q: SeekFrom)
    requires EncodeSeek(p) == EncodeSeek(q)
    ensures p == q
  {
    if p.Start? && q.Start? {
      ReinterpretRoundTrip(0, p.offset);
      ReinterpretRoundTrip(0, q.offset);
    }
  }

  /** `Stream::seek`: the arguments sent for `pos`, and `Ok(new position)` exactly when
      the call's code `hr` is a success. */
  function Seek(pos: SeekFrom, hr: HResult, newPos: u64): (r: (SeekArgs, Result<u64>))
    ensures r.0 == EncodeSeek(pos)
    ensures r.1.Ok? <==> Succeeded(hr)
    ensures r.1.Ok? ==> r.1.value == newPos
    ensures r.1.Err? ==> r.1.error == Error(hr)
  {
    (EncodeSeek(pos), Map(hr, newPos))
  }

  /** A failure reported through `std::io`, with `.map_err(|e| e.into())`: the
      `From<Error> for io::Error` conversion as written. */
  function ToIo<T>(r: Result<T>): (io: IoResult<T>)
    ensures r.Ok? <==> io.IoOk?
    ensures r.Ok? ==> io.value == r.value
    ensures r.Err? ==> io.error == IoFromError(r.error)
  {
    match r
    case Ok(v) => IoOk(v)
    case Err(e) => IoErr(IoFromError(e))
  }

  /** `io::Seek::seek`: `Stream::seek` with the error converted. */
  function IoSeek(pos: SeekFrom, hr: HResult, newPos: u64): (r: (SeekArgs, IoResult<u64>))
    ensures r.0 == EncodeSeek(pos)
    ensures r.1.IoOk? <==> Succeeded(hr)
    ensures r.1.IoOk? ==> r.1.value == newPos
    ensures r.1.IoErr? ==> r.1.error == IoFromError(Error(hr))
    ensures r.1.IoErr? ==> ErrorFromIo(r.1.error) == Error(hr)
  {
    IoRoundTrip(Error(hr));
    var s := Seek(pos, hr, newPos);
    (s.0, ToIo(s.1))
  }

  const U32_MAX: nat := 0xFFFF_FFFF

  /** `io::Read::read`, through the sequential stream's `read`: assert the buffer's length
      fits a `u32`, ask for that many bytes, and report the count read on success. */
  function IoRead(bufLen: nat, hr: HResult, read: u32): (r: Checked<(u32, IoResult<nat>)>)
    ensures r.Panics? <==> bufLen > U32_MAX
    ensures r.Returns? ==> r.value.0 == bufLen
    ensures r.Returns? ==> (r.value.1.IoOk? <==> Succeeded(hr))
    ensures r.Returns? && r.value.1.IoOk? ==> r.value.1.value == read
    ensures r.Returns? && r.value.1.IoErr? ==> r.value.1.error == IoFromError(Error(hr))
    ensures r.Returns? && r.value.1.IoErr? ==> ErrorFromIo(r.value.1.error) == Error(hr)
  {
    IoRoundTrip(Error(hr));
    if bufLen > U32_MAX then Panics
    else Returns((bufLen, ToIo(Map(hr, read as nat))))
  }

  /** `io::Write::write`, through the sequential stream's `write`: offer at most
      `u32::MAX` bytes of the buffer (never panicking on a longer one), and report the
      count written on success. */
  function IoWrite(bufLen: nat, hr: HResult, written: u32): (r: (u32, IoResult<nat>))
    ensures r.0 as nat <= bufLen && r.0 as nat <= U32_MAX
    ensures r.0 as nat == bufLen || r.0 as nat == U32_MAX
    ensures r.1.IoOk? <==> Succeeded(hr)
    ensures r.1.IoOk? ==> r.1.value == written
    ensures r.1.IoErr? ==> r.1.error == IoFromError(Error(hr))
    ensures r.1.IoErr? ==> ErrorFromIo(r.1.error) == Error(hr)
  {
    IoRoundTrip(Error(hr));
    var len: u32 := if bufLen < U32_MAX then bufLen else U32_MAX;
    (len, ToIo(Map(hr, written as nat)))
  }

  /** `io::Write::flush`: `commit` with `CommitFlags::DEFAULT` (0), whose status is
      dropped, so S_OK and S_FALSE both flush successfully. */
  function Flush(hr: HResult): (r: (u32, IoResult<()>))
    ensures r.0 == COMMIT_DEFAULT && r.0 == 0
    ensures r.1.IoOk? <==> Succeeded(hr)
    ensures r.1.IoErr? ==> r.1.error == IoFromError(Error(hr))
    ensures r.1.IoErr? ==> ErrorFromIo(r.1.error) == Error(hr)
  {
    IoRoundTrip(Error(hr));
    var status := MapStatus(hr);
    var dropped: Result<()> := if status.Ok? then Ok(()) else Err(status.error);
    (COMMIT_DEFAULT, ToIo(dropped))
  }

  /** The destination stream, the count and the counter pointers `copy_to` hands to
      `IStream::CopyTo`. */
  datatype CopyToArgs = CopyToArgs(dest: nat, count: u64, readCounter: nat, writtenCounter: nat)

  /** The pointer for an optional counter: null for `None`, the address of the counter a
      `&mut u64` refers to otherwise. */
  function CounterPointer(counter: Option<Address>): (p: nat)
    ensures p == NULL <==> counter.None?
    ensures counter.Some? ==> p == counter.value
  {
    match counter
    case None => NULL
    case Some(a) => a
  }

  /** `Stream::copy_to`: the destination's raw pointer, the count and the two counter
      pointers sent, and the mapped status. */
  function CopyTo(other: Wrapper, count: u64, cbRead: Option<Address>, cbWritten: Option<Address>,
                  hr: HResult): (r: (CopyToArgs, Result<Status>))
    ensures r.0.dest == other.raw && r.0.dest != NULL
    ensures r.0.count == count
    ensures r.0.readCounter == NULL <==> cbRead.None?
    ensures r.0.writtenCounter == NULL <==> cbWritten.None?
    ensures r.1 == Ok(Status(hr)) || r.1 == Err(Error(hr))
    ensures r.1.Ok? <==> Succeeded(hr)
  {
    (CopyToArgs(other.raw, count, CounterPointer(cbRead), CounterPointer(cbWritten)), MapStatus(hr))
  }

  /** The two 64-bit values and the lock type the region calls send. */
  datatype RegionArgs = RegionArgs(offset: u64, count: u64, lockType: u32)

  /** `set_size`: the new size, sent unchanged; the code mapped with the status kept. */
  function SetSize(newSize: u64, hr: HResult): (r: (u64, Result<Status>))
    ensures r.0 == newSize
    ensures r.1.Ok? <==> Succeeded(hr)
    ensures r.1 == Ok(Status(hr)) || r.1 == Err(Error(hr))
  {
    (newSize, MapStatus(hr))
  }

  /** `commit`: the raw flag bits; the code mapped with the status kept. */
  function Commit(flags: u32, hr: HResult): (r: (u32, Result<Status>))
    ensures r.0 == flags
    ensures r.1.Ok? <==> Succeeded(hr)
    ensures r.1 == Ok(Status(hr)) || r.1 == Err(Error(hr))
  {
    (flags, MapStatus(hr))
  }

  /** `revert`: no arguments; the code mapped with the status kept. */
  function Revert(hr: HResult): (r: Result<Status>)
    ensures r.Ok? <==> Succeeded(hr)
    ensures r == Ok(Status(hr)) || r == Err(Error(hr))
  {
    MapStatus(hr)
  }

  /** `lock_region`: offset and count reinterpreted as `ULARGE_INTEGER`, which keeps the
      64-bit value, and the raw lock type; the code mapped with the status kept. */
  function LockRegion(offset: u64, count: u64, lockType: u32, hr: HResult)
    : (r: (RegionArgs, Result<Status>))
    ensures r.0.offset == offset && r.0.count == count && r.0.lockType == lockType
    ensures r.1.Ok? <==> Succeeded(hr)
    ensures r.1 == Ok(Status(hr)) || r.1 == Err(Error(hr))
  {
    (RegionArgs(offset, count, lockType), MapStatus(hr))
  }

  /** `unlock_region`: the same arguments and mapping as `lock_region`. */
  function UnlockRegion(offset: u64, count: u64, lockType: u32, hr: HResult)
    : (r: (RegionArgs, Result<Status>))
    ensures r == LockRegion(offset, count, lockType, hr)
  {
    (RegionArgs(offset, count, lockType), MapStatus(hr))
  }

  /** `stat`: the statistics record the call fills in (`filled`, of any type) is returned
      on success and dropped on failure; the raw flag bits are sent. */
  function Stat<S>(flags: u32, hr: HResult, filled: S): (r: (u32, Result<S>))
    ensures r.0 == flags
    ensures r.1.Ok? <==> Succeeded(hr)
    ensures r.1.Ok? ==> r.1.value == filled
    ensures r.1.Err? ==> r.1.error == Error(hr)
  {
    match MapIf(hr, () => Returns(filled))
    case Returns(res) => (flags, res)
    case Panics => (flags, Err(Error(hr)))
  }

  /** `try_clone`: the pointer the call writes into a null slot is wrapped on success, and
      `from_raw` panics on a null one. */
  function TryClone(hr: HResult, ptr: nat): (r: Checked<Result<Wrapper>>)
    ensures IsFailure(hr) ==> r == Returns(Err(Error(hr)))
    ensures Succeeded(hr) ==> (r.Panics? <==> ptr == NULL)
    ensures Succeeded(hr) && ptr != NULL ==> r == Returns(Ok(Wrapper(ptr)))
  {
    MapIf(hr, () => WrapCom(ptr))
  }

  /** The sizes `Deref` and `DerefMut` compare: both wrappers are one pointer. */
  const STREAM_WRAPPER_SIZE: nat := 8
  const SEQUENTIAL_STREAM_WRAPPER_SIZE: nat := 8

  /** `Deref for Stream`: the stream seen as a sequential stream holds the same pointer
      and never panics, since the two wrappers have the same size. */
  function AsSequential(stream: Wrapper): (r: Checked<Wrapper>)
    ensures r == Returns(stream)
  {
    DerefComWrapper(stream, STREAM_WRAPPER_SIZE, SEQUENTIAL_STREAM_WRAPPER_SIZE)
  }

  /** The code-only calls keep S_FALSE apart from S_OK, where `flush` merges them. */
  lemma {:induction false} StatusKeptExceptByFlush()
    ensures Commit(COMMIT_DEFAULT, S_FALSE).1 == Ok(Status(S_FALSE))
    ensures Commit(COMMIT_DEFAULT, S_OK).1 == Ok(Status(S_OK))
    ensures Flush(S_FALSE).1 == Flush(S_OK).1 == IoOk(())
  {
  }
}
