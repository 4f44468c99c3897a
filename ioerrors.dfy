/** The conversions between this crate's `Error` and `std::io::Error` (`dcommon::error`),
    which the stream adapters use to report failures through `std::io`. */
module IoErrors {
  import opened Errors
  import Win32

  /** A selection of `std::io::ErrorKind`; the others behave like these in the model. */
  datatype ErrorKind = NotFound | PermissionDenied | InvalidInput | InvalidData | UnexpectedEof | Other

  /** What a custom `std::io::Error` carries: this crate's `Error`, or an error of some other type. */
  datatype IoPayload = HResultError(error: Error) | ForeignPayload

  /** `std::io::Error`: a raw OS error number, a bare kind, or a kind with a boxed payload. */
  datatype IoError = Os(osCode: bv32) | Simple(kind: ErrorKind) | Custom(kind: ErrorKind, payload: IoPayload)

  /** `From<std::io::Error> for Error`: a raw OS error goes through `HRESULT_FROM_WIN32`,
      otherwise a wrapped `Error` is recovered by downcast, otherwise the code is E_FAIL. */
  function ErrorFromIo(err: IoError): (e: Error)
    ensures err.Os? ==> e == Error(HResultFromWin32Macro(err.osCode))
    ensures err.Custom? && err.payload.HResultError? ==> e == err.payload.error
    ensures err.Simple? || (err.Custom? && err.payload.ForeignPayload?) ==> e.code == E_FAIL
  {
    match err
    case Os(n) => Error(HResultFromWin32Macro(n))
    case Custom(_, HResultError(inner)) => inner
    case _ => Error(E_FAIL)
  }

  /** `From<Error> for std::io::Error`, as written: a success code becomes raw OS error 0,
      a code passing the facility test becomes the raw OS error of its low 16 bits, and
      any other code is wrapped as `ErrorKind::Other`. */
  function IoFromError(error: Error): (io: IoError)
    ensures Succeeded(error.code) ==> io == Os(0)
    ensures IsFailure(error.code) ==> io == Custom(Other, HResultError(error))
  {
    var err := error.code;
    if err & ERROR_BIT == 0 then Os(0)
    else if err & CATMASK == WIN32_BITS then Os(err & ERRMASK)
    else Custom(Other, HResultError(error))
  }

  /** The facility test of `IoFromError` never holds: the mask clears bit 31, while the
      value compared against has it set. */
  lemma {:induction false} Win32BranchDead(error: Error)
    ensures error.code & CATMASK != WIN32_BITS
  {
    assert WIN32_BITS & 0x8000_0000 != 0;
    assert (error.code & CATMASK) & 0x8000_0000 == 0;
  }

  /** Every failure code survives `Error` -> `io::Error` -> `Error`; a success code comes
      back as code 0. */
  lemma {:induction false} IoRoundTrip(e: Error)
    ensures IsFailure(e.code) ==> ErrorFromIo(IoFromError(e)) == e
    ensures Succeeded(e.code) ==> ErrorFromIo(IoFromError(e)) == Error(S_OK)
  {
  }

  /** The crate's round-trip test: FAIL, WIN32_FILE_NOT_FOUND, D2D_WRONG_STATE and
      WIC_PROPERTYSIZE come back unchanged. */
  lemma {:induction false} RoundTripTestCases()
    ensures ErrorFromIo(IoFromError(Error(E_FAIL))) == Error(E_FAIL)
    ensures ErrorFromIo(IoFromError(Win32.WIN32_FILE_NOT_FOUND)) == Win32.WIN32_FILE_NOT_FOUND
    ensures ErrorFromIo(IoFromError(Error(D2DERR_WRONG_STATE))) == Error(D2DERR_WRONG_STATE)
    ensures ErrorFromIo(IoFromError(Error(WINCODEC_ERR_PROPERTYSIZE))) == Error(WINCODEC_ERR_PROPERTYSIZE)
  {
    IoRoundTrip(Error(E_FAIL));
    Win32.Win32CodesFail(Win32.ERROR_FILE_NOT_FOUND);
    IoRoundTrip(Win32.WIN32_FILE_NOT_FOUND);
    IoRoundTrip(Error(D2DERR_WRONG_STATE));
    IoRoundTrip(Error(WINCODEC_ERR_PROPERTYSIZE));
  }

  /** The facility test as evidently intended: the mask keeps bit 31, so codes of
      facility WIN32 become raw OS errors. */
  function IoFromErrorIntended(error: Error): (io: IoError)
    ensures Succeeded(error.code) ==> io == Os(0)
    ensures IsFailure(error.code) && error.code & 0xFFFF_0000 == WIN32_BITS ==> io == Os(error.code & ERRMASK)
    ensures IsFailure(error.code) && error.code & 0xFFFF_0000 != WIN32_BITS ==>
      io == Custom(Other, HResultError(error))
  {
    var err := error.code;
    if err & ERROR_BIT == 0 then Os(0)
    else if err & (ERROR_BIT | CATMASK) == WIN32_BITS then Os(err & ERRMASK)
    else Custom(Other, HResultError(error))
  }

  /** With the intended test every failure code still round-trips through `io::Error`,
      except 0x80070000 (facility WIN32, code 0): it becomes raw OS error 0, which
      `HRESULT_FROM_WIN32` maps to S_OK. */
  lemma {:induction false} IntendedIoRoundTrip(e: Error)
    ensures IsFailure(e.code) && e.code != 0x8007_0000 ==> ErrorFromIo(IoFromErrorIntended(e)) == e
    ensures e.code == 0x8007_0000 ==> ErrorFromIo(IoFromErrorIntended(e)) == Error(S_OK)
  {
    if e.code == 0x8007_0000 {
      ZeroWin32CodeBecomesOk(e);
    } else if IsFailure(e.code) && e.code & 0xFFFF_0000 == WIN32_BITS {
      Win32CodeRoundTrip(e);
    } else if IsFailure(e.code) {
      OtherCodeRoundTrip(e);
    }
  }

  /** A failure code of any other facility travels inside the custom payload. */
  lemma OtherCodeRoundTrip(e: Error)
    requires IsFailure(e.code) && e.code & 0xFFFF_0000 != WIN32_BITS
    ensures ErrorFromIo(IoFromErrorIntended(e)) == e
  {
  }

  /** Facility WIN32 with code 0 comes back as raw OS error 0, that is S_OK. */
  lemma ZeroWin32CodeBecomesOk(e: Error)
    requires e.code == 0x8007_0000
    ensures ErrorFromIo(IoFromErrorIntended(e)) == Error(S_OK)
  {
    assert IoFromErrorIntended(e) == Os(0);
    MacroPassesNonPositive(0);
  }

  /** Any other failure code of facility WIN32 travels as its raw OS error number. */
  lemma Win32CodeRoundTrip(e: Error)
    requires IsFailure(e.code) && e.code & 0xFFFF_0000 == WIN32_BITS && e.code != 0x8007_0000
    ensures ErrorFromIo(IoFromErrorIntended(e)) == e
  {
    Win32OsCodeBack(e);
  }

  /** The raw OS error number of such a code converts back to the code. */
  lemma Win32OsCodeBack(e: Error)
    requires IsFailure(e.code) && e.code & 0xFFFF_0000 == WIN32_BITS && e.code != 0x8007_0000
    ensures ErrorFromIo(Os(e.code & ERRMASK)) == e
  {
    Win32CodeRebuilt(e.code);
    LowBitsFit(e.code);
    OsCodeBack(e.code & ERRMASK, e.code);
  }

  /** A nonzero 16-bit OS error comes back from `io::Error` as that number under
      facility WIN32. */
  lemma OsCodeBack(low: bv32, code: HResult)
    requires low != 0 && low & 0xFFFF_0000 == 0 && low | 0x8007_0000 == code
    ensures ErrorFromIo(Os(low)) == Error(code)
  {
    MacroOfWin32Code(low);
  }
}
