/** The WIN32-facility codes of `dcommon::error::win32`: the crate's own
    `hresult_from_win32` and the `Error` and `Status` constants built with it. */
module Win32 {
  import opened Wrappers
  import opened Errors

  /** The crate's `const fn hresult_from_win32`: the low 16 bits of the Win32 error
      number under facility WIN32, with the failure bit set. Unlike the platform macro
      (section 2.1.2 of [MS-ERREF]) it has no pass-through case: 0 and numbers with
      bit 31 set are rebuilt like any other. */
  function HResultFromWin32(x: bv32): (hr: HResult)
  {
    (x & 0x0000_FFFF) | (FACILITY_WIN32 << 16) | 0x8000_0000
  }

  /** Every result is a failure code. */
  lemma Win32CodesFail(x: bv32)
    ensures IsFailure(HResultFromWin32(x))
    ensures SignedValue(HResultFromWin32(x)) < 0
  {
  }

  /** Bits 16-30 hold facility WIN32 and bit 31 is set. */
  lemma Win32CodesHaveWin32Facility(x: bv32)
    ensures HResultFromWin32(x) & 0xFFFF_0000 == WIN32_BITS
    ensures (HResultFromWin32(x) & 0x7FFF_0000) >> 16 == FACILITY_WIN32
  {
  }

  /** The low 16 bits are those of the Win32 number. */
  lemma Win32CodesKeepLowBits(x: bv32)
    ensures HResultFromWin32(x) & ERRMASK == x & ERRMASK
  {
  }

  /** Every code of facility WIN32 with bit 31 set is the image of its own low 16 bits, so
      the three lemmas above describe the result completely. */
  lemma Win32CodeDeterminedByLowBits(x: bv32, hr: HResult)
    requires hr & 0xFFFF_0000 == WIN32_BITS && hr & ERRMASK == x & ERRMASK
    ensures HResultFromWin32(x) == hr
  {
  }

  /** Bits of the number above bit 15 are discarded. */
  lemma {:induction false} HighBitsDiscarded(x: bv32, y: bv32)
    requires x & 0xFFFF == y & 0xFFFF
    ensures HResultFromWin32(x) == HResultFromWin32(y)
  {
    Win32CodesHaveWin32Facility(x);
    Win32CodesKeepLowBits(x);
    Win32CodeDeterminedByLowBits(y, HResultFromWin32(x));
  }

  /** 0 is not special-cased: it gives 0x80070000, where the platform macro gives S_OK. */
  lemma ZeroIsNotSpecial()
    ensures HResultFromWin32(0) == 0x8007_0000
    ensures HResultFromWin32Macro(0) == S_OK
  {
  }

  /** On the numbers the platform macro does not pass through, the two agree. */
  lemma {:induction false} AgreesWithMacro(x: bv32)
    requires x != 0 && Succeeded(x)
    ensures HResultFromWin32(x) == HResultFromWin32Macro(x)
  {
    MacroMakesWin32Failure(x);
    Win32CodeDeterminedByLowBits(x, HResultFromWin32Macro(x));
  }

  /** Every `WIN32_*` constant is a failure code that the checked `Error::from` accepts. */
  lemma {:induction false} Win32ErrorsAccepted(x: bv32)
    ensures ErrorFrom(HResultFromWin32(x)) == Returns(Error(HResultFromWin32(x)))
  {
    Win32CodesFail(x);
  }

  // A selection of the Win32 error numbers behind the constants.
  const ERROR_INVALID_FUNCTION: bv32 := 1
  const ERROR_FILE_NOT_FOUND: bv32 := 2
  const ERROR_PATH_NOT_FOUND: bv32 := 3
  const ERROR_ACCESS_DENIED: bv32 := 5

  const WIN32_INVALID_FUNCTION: Error := Error(HResultFromWin32(ERROR_INVALID_FUNCTION))
  const WIN32_FILE_NOT_FOUND: Error := Error(HResultFromWin32(ERROR_FILE_NOT_FOUND))
  const WIN32_PATH_NOT_FOUND: Error := Error(HResultFromWin32(ERROR_PATH_NOT_FOUND))
  const WIN32_ACCESS_DENIED: Error := Error(HResultFromWin32(ERROR_ACCESS_DENIED))

  /** `Status::OK` and `Status::FALSE`. */
  const OK: Status := Status(S_OK)
  const FALSE: Status := Status(S_FALSE)

  /** The constants' values: the two success codes are 0 and 1 and the checked
      `Status::from` accepts them; the Win32 codes are the numbers under 0x8007_0000. */
  lemma ConstantValues()
    ensures OK.code == 0 && FALSE.code == 1
    ensures StatusFrom(OK.code) == Returns(OK) && StatusFrom(FALSE.code) == Returns(FALSE)
    ensures WIN32_INVALID_FUNCTION.code == 0x8007_0001
    ensures WIN32_FILE_NOT_FOUND.code == 0x8007_0002
    ensures WIN32_PATH_NOT_FOUND.code == 0x8007_0003
    ensures WIN32_ACCESS_DENIED.code == 0x8007_0005
  {
  }
}
