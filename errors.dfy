/** The HRESULT result-code model of `dcommon::error`: a 32-bit signed code whose sign bit
    splits success (`Status`) from failure (`Error`), laid out as in section 2.1 of
    [MS-ERREF]: bit 31 severity, bits 16-30 facility, bits 0-15 code. */
module Errors {
  import opened Wrappers
  import opened Ints

  /** An HRESULT, held as its 32-bit pattern. The source's `i32` tests `hr < 0` and
      `hr >= 0` are tests of bit 31 (`IsFailure`, `Succeeded`); `SignedValue` gives the
      `i32` a pattern stands for. */
  type HResult = bv32

  function SignedValue(hr: HResult): (v: int)
    ensures v >= 0 <==> hr & 0x8000_0000 == 0
  {
    if hr < 0x8000_0000 then hr as int else hr as int - TWO_32
  }

  /** The platform's `SUCCEEDED` macro, `hr >= 0`. */
  predicate Succeeded(hr: HResult) {
    hr & 0x8000_0000 == 0
  }

  /** `hr < 0`. */
  predicate IsFailure(hr: HResult) {
    !Succeeded(hr)
  }

  /** A failure code. The field is public in the source, so any code can be wrapped
      directly; only `ErrorFrom` checks the polarity. */
  datatype Error = Error(code: HResult)

  /** A success code; as for `Error`, only `StatusFrom` checks the polarity. */
  datatype Status = Status(code: HResult)

  datatype Result<+T> = Ok(value: T) | Err(error: Error)

  // Codes from the platform headers.
  const S_OK: HResult := 0
  const S_FALSE: HResult := 1
  const E_NOTIMPL: HResult := 0x8000_4001
  const E_FAIL: HResult := 0x8000_4005
  const D2DERR_WRONG_STATE: HResult := 0x8899_0001
  const WINCODEC_ERR_PROPERTYSIZE: HResult := 0x8898_2F42
  const FACILITY_WIN32: bv32 := 7

  /** `Error::map`: classify by the sign bit, keeping the success value or the failing code. */
  function Map<T>(hr: HResult, successValue: T): (r: Result<T>)
    ensures r.Ok? <==> SignedValue(hr) >= 0
    ensures r.Ok? ==> r.value == successValue
    ensures r.Err? ==> r.error.code == hr
  {
    if Succeeded(hr) then Ok(successValue) else Err(Error(hr))
  }

  /** `Error::map_status`: like `Map`, but the success value is the exact code, so S_OK
      and S_FALSE stay apart. */
  function MapStatus(hr: HResult): (r: Result<Status>)
    ensures r.Ok? <==> SignedValue(hr) >= 0
    ensures r == Ok(Status(hr)) || r == Err(Error(hr))
  {
    if Succeeded(hr) then Ok(Status(hr)) else Err(Error(hr))
  }

  /** `Error::map_if`: the closure runs only on success, so a closure that would panic
      does not make a failing call panic. */
  function MapIf<T>(hr: HResult, ifSuccess: () -> Checked<T>): (r: Checked<Result<T>>)
    ensures IsFailure(hr) ==> r == Returns(Err(Error(hr)))
    ensures Succeeded(hr) ==> (r.Panics? <==> ifSuccess().Panics?)
    ensures Succeeded(hr) && r.Returns? ==> r.value == Ok(ifSuccess().value)
  {
    if Succeeded(hr) then
      match ifSuccess()
      case Returns(v) => Returns(Ok(v))
      case Panics => Panics
    else
      Returns(Err(Error(hr)))
  }

  /** `From<HRESULT> for Error`: panics unless the code is a failure. */
  function ErrorFrom(hr: HResult): (r: Checked<Error>)
    ensures r.Returns? <==> SignedValue(hr) < 0
    ensures r.Returns? ==> r.value.code == hr
  {
    if IsFailure(hr) then Returns(Error(hr)) else Panics
  }

  /** `From<HRESULT> for Status`: panics unless the code is a success. */
  function StatusFrom(hr: HResult): (r: Checked<Status>)
    ensures r.Returns? <==> SignedValue(hr) >= 0
    ensures r.Returns? ==> r.value.code == hr
  {
    if Succeeded(hr) then Returns(Status(hr)) else Panics
  }

  /** The two maps agree on the split, and each routes the code to the projection whose
      checked constructor accepts it, so no code is ever given the wrong polarity. */
  lemma {:induction false} MapRoutesToAcceptingProjection<T>(hr: HResult, v: T)
    ensures Map(hr, v).Ok? <==> MapStatus(hr).Ok?
    ensures MapStatus(hr).Ok? ==> StatusFrom(hr) == Returns(MapStatus(hr).value)
    ensures Map(hr, v).Err? ==> ErrorFrom(hr) == Returns(Map(hr, v).error)
  {
  }

  // The fields of an HRESULT (section 2.1 of [MS-ERREF]).
  const ERROR_BIT: bv32 := 0x8000_0000
  const WIN32_BITS: bv32 := ERROR_BIT | (FACILITY_WIN32 << 16)
  const CATMASK: bv32 := 0x7FFF_0000
  const ERRMASK: bv32 := 0x0000_FFFF

  /** The platform's `HRESULT_FROM_WIN32` macro (section 2.1.2 of [MS-ERREF]): a Win32
      error number that reads as a non-positive `i32` passes through unchanged, any other
      keeps its low 16 bits under facility WIN32 with the failure bit set. */
  function HResultFromWin32Macro(x: bv32): (hr: HResult)
  {
    if x == 0 || IsFailure(x) then x
    else (x & 0x0000_FFFF) | (FACILITY_WIN32 << 16) | 0x8000_0000
  }

  /** A Win32 error number that reads as a non-positive `i32` passes through the macro. */
  lemma MacroPassesNonPositive(x: bv32)
    requires x == 0 || IsFailure(x)
    ensures HResultFromWin32Macro(x) == x
  {
  }

  /** Any other number becomes a failure code of facility WIN32 carrying its low 16 bits. */
  lemma MacroMakesWin32Failure(x: bv32)
    requires x != 0 && Succeeded(x)
    ensures IsFailure(HResultFromWin32Macro(x))
    ensures HResultFromWin32Macro(x) & 0xFFFF_0000 == WIN32_BITS
    ensures HResultFromWin32Macro(x) & ERRMASK == x & ERRMASK
  {
  }

  /** `Error::from_win32`: a Win32 error number as an `Error`, through the platform macro.
      The result is a failure code of facility WIN32 for every positive number, but 0
      gives S_OK, and a number with bit 31 set is kept as it is. */
  function FromWin32(err: bv32): (e: Error)
    ensures err != 0 && Succeeded(err) ==> IsFailure(e.code) && e.code & 0xFFFF_0000 == WIN32_BITS
    ensures err != 0 && Succeeded(err) ==> e.code & ERRMASK == err & ERRMASK
    ensures err == 0 || IsFailure(err) ==> e.code == err
  {
    if err == 0 || IsFailure(err) then
      MacroPassesNonPositive(err);
      Error(HResultFromWin32Macro(err))
    else
      MacroMakesWin32Failure(err);
      Error(HResultFromWin32Macro(err))
  }

  /** The low 16 bits of a code leave the upper half clear. */
  lemma LowBitsFit(err: HResult)
    ensures (err & ERRMASK) & 0xFFFF_0000 == 0
  {
  }

  /** `HRESULT_FROM_WIN32` of a nonzero 16-bit number puts it under facility WIN32. */
  lemma MacroOfWin32Code(low: bv32)
    requires low != 0 && low & 0xFFFF_0000 == 0
    ensures HResultFromWin32Macro(low) == low | 0x8007_0000
  {
  }

  /** A code of facility WIN32 is its low 16 bits put back under that facility, unless
      those bits are 0. */
  lemma Win32CodeRebuilt(err: HResult)
    requires err & 0xFFFF_0000 == WIN32_BITS
    ensures err & ERRMASK == 0 <==> err == 0x8007_0000
    ensures err & ERRMASK != 0 ==> (err & ERRMASK) | 0x8007_0000 == err
  {
  }
}
