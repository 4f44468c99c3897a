/** `FILETIME` (`dcommon::minwindef::filetime`): a 64-bit count of 100-nanosecond
    intervals held as two 32-bit halves (section 2.3.3 of [MS-DTYP]). The casts and
    shifts are written as the arithmetic they perform on unsigned values: `u as u32`
    keeps `u mod 2^32`, `u >> 32` is `u / 2^32`, and or-ing a value below 2^32 into a
    multiple of 2^32 adds it. */
module FileTimes {
  import opened Ints

  datatype FileTime = FileTime(lowPart: u32, highPart: u32)

  /** `From<u64> for FileTime`: the low half is what the truncating cast keeps, the
      high half what the shift brings down, so `u` is `high * 2^32 + low`. */
  function FromU64(u: u64): (ft: FileTime)
    ensures ft.highPart * TWO_32 + ft.lowPart == u
  {
    FileTime(u % TWO_32, u / TWO_32)
  }

  /** `From<FileTime> for u64`: the high half shifted up, or-ed with the low half. The
      low 32 bits of the result are the low half and the rest the high half. */
  function ToU64(ft: FileTime): (u: u64)
    ensures u % TWO_32 == ft.lowPart && u / TWO_32 == ft.highPart
  {
    ft.highPart * TWO_32 + ft.lowPart
  }

  /** u64 -> FileTime -> u64 is the identity. */
  lemma {:induction false} SplitThenJoin(u: u64)
    ensures ToU64(FromU64(u)) == u
  {
  }

  /** FileTime -> u64 -> FileTime is the identity. */
  lemma {:induction false} JoinThenSplit(ft: FileTime)
    ensures FromU64(ToU64(ft)) == ft
  {
  }
}
