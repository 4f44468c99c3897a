# directx-rs core, modelled in Dafny

This project models the self-contained logic of the `dcommon` and `wic` crates of
directx-rs, the Rust bindings over DirectX and the Windows Imaging Component. Most of
those crates is glue that forwards to COM. The modelled parts are:

- **Result codes.** The HRESULT model: the success/failure split on bit 31, `map`,
  `map_status` and `map_if`, the polarity-checking `From<HRESULT>` conversions, the
  `Error`/`std::io::Error` conversions, and `hresult_from_win32` with the `WIN32_*`
  constants it builds. The layout follows section 2.1 of [MS-ERREF].
- **VARTYPE tags.** The tag algebra (section 2.2.7 of [MS-OAUT]) and the integer
  constructors of `Variant` and `PropVariant`. Also the typed decoding `from_variant`
  of the eight integer types of `PropertyType`.
- **Bit packing.** The `FileTime` split of a `u64` (section 2.3.3 of [MS-DTYP]), and
  the ARGB packing of `Color` with its in-place setters.
- **Module helpers.**
  - the NUL-scanning wide-string functions and the `CoTaskWString` buffer;
  - the struct layout tracker of `member_compat`;
  - the COM pointer null and size rules.
- **IEnumString.** The Rust-side enumerator and the caller's wrapper.
- **Stream shims.** The `Stream` and `CustomStream` shims and the
  `CustomSequentialStream` shim: seek-origin encoding and decoding, out-parameter
  discipline, status passthrough, and the `io` adapters.
- **WIC.** The pixel-format table and its first-match lookup. The memory, source and
  empty bitmap builders. The buffer checks of `BitmapSource::copy_pixels`.

How the model represents the system:

- **Foreign calls.** Every foreign call (a method of an interface pointer, the
  allocator, a host stream behind a custom COM object) is an input to the model. The
  model receives the code the call returns and the values it writes, or a function
  from the call's arguments to its answer.
- **Panics.** A panic is a value, `Checked.Panics`. A method that changes state
  returns `panics` as a boolean. A panic that follows an earlier in-place update
  leaves that update in place, and the method's contract says what the state is then.
  For example, `StructSizeTracker.Incr` keeps the realigned size when adding the
  member's size overflows.
- **Pointers.** Pointers are natural numbers, with 0 as null. An out-pointer is an
  `OutParams.Cell`.
- **Codes.** An HRESULT is a `bv32`, read as a signed `i32` where the source compares
  it with 0.
- **Imperative code.** Code that works in place is written as classes and methods:
  the colour setters, the layout tracker, the custom enumerator, and the shims' stores
  through out-pointers.
- **Pure code.** The by-value builders, the conversions and the lookups are written as
  functions.

The module `IoErrors` models the `Error` -> `io::Error` -> `Error` round trip on the
code as written, including its test (`dcommon/src/error.rs:225-236`). On that code,
every failure code survives the trip, application codes included, because every failure
travels inside the custom payload. The `std::io` adapters of `Stream` use this
conversion as written.

`dcommon/src/objidl/stream/custom.rs` is not compiled: its `mod` line is commented out
at `dcommon/src/objidl/stream/mod.rs:18`. It is modelled as the text stands.

## Model

| member | source | states |
|---|---|---|
| Errors.Map | dcommon/src/error.rs:22-28 | `Ok(v)` exactly when the code reads as a non-negative `i32`, otherwise `Err` carrying the same code |
| Errors.MapStatus | dcommon/src/error.rs:33-39 | on success the `Status` carries the exact code, so S_OK and S_FALSE stay apart; on failure the `Error` carries it |
| Errors.MapIf | dcommon/src/error.rs:45-54 | the closure's answer (value or panic) is used only on success; on failure the result is `Err(code)` whatever the closure would do |
| Errors.FromWin32 | dcommon/src/error.rs:59-61 | a positive Win32 number becomes a failure code of facility WIN32 keeping its low 16 bits; 0 and numbers with bit 31 set pass through unchanged |
| Errors.ErrorFrom | dcommon/src/error.rs:72-75 | `Error::from(hr)` panics exactly when the code is not negative, and otherwise keeps it |
| Errors.StatusFrom | dcommon/src/error.rs:155-158 | `Status::from(hr)` panics exactly when the code is negative, and otherwise keeps it |
| Errors.MapRoutesToAcceptingProjection | dcommon/src/error.rs:22-39 | whichever way `map` splits a code, the checked constructor of that side accepts it |
| Errors.MacroPassesNonPositive | dcommon/src/error.rs:59-61 | `HRESULT_FROM_WIN32` passes a number that reads as non-positive through unchanged |
| Errors.MacroMakesWin32Failure | dcommon/src/error.rs:59-61 | `HRESULT_FROM_WIN32` makes any other number a failure under facility WIN32 carrying its low 16 bits |
| Errors.MacroOfWin32Code | dcommon/src/error.rs:80-92 | a nonzero 16-bit number is put under facility WIN32 with the failure bit |
| Errors.Win32CodeRebuilt | dcommon/src/error.rs:117-135 | a facility-WIN32 code is rebuilt from its low 16 bits unless those are 0, which happens only for 0x80070000 |
| IoErrors.ErrorFromIo | dcommon/src/error.rs:80-92 | a raw OS error goes through `HRESULT_FROM_WIN32`; otherwise a wrapped `Error` is recovered; otherwise E_FAIL |
| IoErrors.IoFromError | dcommon/src/error.rs:117-135 | as written: a success code becomes raw OS error 0, and every failure code is wrapped as `ErrorKind::Other` |
| IoErrors.Win32BranchDead | dcommon/src/error.rs:120-131 | the facility test `code & 0x7FFF0000 == 0x80070000` holds for no code |
| IoErrors.IoRoundTrip | dcommon/src/error.rs:117-135 | every failure code survives `Error` -> `io::Error` -> `Error`; a success code comes back as 0 |
| IoErrors.RoundTripTestCases | dcommon/src/error.rs:225-236 | FAIL, WIN32_FILE_NOT_FOUND, D2D_WRONG_STATE and WIC_PROPERTYSIZE come back unchanged, the crate's test's four cases |
| IoErrors.IoFromErrorIntended | dcommon/src/error.rs:117-135 | corrected: a failure code of facility WIN32 becomes the raw OS error of its low 16 bits; other failures are wrapped |
| IoErrors.IntendedIoRoundTrip | dcommon/src/error.rs:225-236 | with the corrected test every failure code round-trips, except 0x80070000, which comes back as S_OK |
| IoErrors.OtherCodeRoundTrip | dcommon/src/error.rs:117-135 | a failure code of a facility other than WIN32 travels inside the payload and comes back unchanged |
| IoErrors.ZeroWin32CodeBecomesOk | dcommon/src/error.rs:80-92 | facility WIN32 with code 0 comes back as raw OS error 0, that is S_OK |
| IoErrors.Win32CodeRoundTrip | dcommon/src/error.rs:117-135 | any other facility-WIN32 failure travels as its raw OS error number and comes back unchanged |
| IoErrors.Win32OsCodeBack | dcommon/src/error.rs:80-92 | the OS error number of such a code converts back to the code |
| IoErrors.OsCodeBack | dcommon/src/error.rs:80-92 | a nonzero 16-bit OS error comes back as that number under facility WIN32 |
| Win32.Win32CodesFail | dcommon/src/error/win32.rs:593-595 | every result of `hresult_from_win32` is a failure code |
| Win32.Win32CodesHaveWin32Facility | dcommon/src/error/win32.rs:593-595 | bits 16-30 of every result are FACILITY_WIN32 (7) |
| Win32.Win32CodesKeepLowBits | dcommon/src/error/win32.rs:593-595 | the low 16 bits of the result are the low 16 bits of the input |
| Win32.Win32CodeDeterminedByLowBits | dcommon/src/error/win32.rs:593-595 | every failure code of facility WIN32 is the result for any input with its low 16 bits, so the three properties above describe the result completely |
| Win32.HighBitsDiscarded | dcommon/src/error/win32.rs:593-595 | bits of the input above bit 15 do not affect the result |
| Win32.ZeroIsNotSpecial | dcommon/src/error/win32.rs:593-595 | 0 gives 0x80070000, unlike the platform macro, which gives S_OK |
| Win32.AgreesWithMacro | dcommon/src/error/win32.rs:593-595 | on the inputs the platform macro does not pass through (those reading as positive), the two agree |
| Win32.Win32ErrorsAccepted | dcommon/src/error/win32.rs:593-595 | `Error::from` accepts every result, so no `WIN32_*` constant panics |
| Win32.ConstantValues | dcommon/src/error/win32.rs:6-25 | `Status::OK` and `Status::FALSE` hold 0 and 1 and `Status::from` accepts them; WIN32_FILE_NOT_FOUND and its neighbours are their Win32 numbers under 0x80070000 |
| FileTimes.FromU64 | dcommon/src/minwindef/filetime.rs:8-15 | the low part is the value modulo 2^32 and the high part the value divided by 2^32 |
| FileTimes.ToU64 | dcommon/src/minwindef/filetime.rs:17-21 | the value is the high part times 2^32 plus the low part, within `u64` |
| FileTimes.SplitThenJoin | dcommon/src/minwindef/filetime.rs:8-21 | `u64` -> `FileTime` -> `u64` is the identity |
| FileTimes.JoinThenSplit | dcommon/src/minwindef/filetime.rs:8-21 | `FileTime` -> `u64` -> `FileTime` is the identity |
| Colors.RgbaPacks | wic/src/descriptions/color.rs:16-18 | the packed word's bytes are, from the top, alpha, red, green and blue, and the getters return the inputs |
| Colors.UnpackInjective | wic/src/descriptions/color.rs:20-31 | two words with the same four channels are equal |
| Colors.UnpackPack | wic/src/descriptions/color.rs:20-31 | reading the channels of a packed word gives back the channels packed |
| Colors.GetAfterSet | wic/src/descriptions/color.rs:20-44 | after setting a channel, its getter returns the new byte |
| Colors.UnpackAfterSet | wic/src/descriptions/color.rs:33-44 | setting a channel changes that channel and leaves the other three as they were |
| Colors.SetsCommute | wic/src/descriptions/color.rs:33-44 | setters of different channels commute |
| Colors.SetTwiceKeepsLast | wic/src/descriptions/color.rs:33-44 | setting one channel twice keeps only the last value |
| ColorObjects.Color.constructor | wic/src/descriptions/color.rs:3-5 | a colour holds the word it is made from |
| ColorObjects.Color.Rgba | wic/src/descriptions/color.rs:16-18 | a fresh colour whose four channels are the arguments |
| ColorObjects.Color.Rgb | wic/src/descriptions/color.rs:12-14 | a fresh colour with the three channels given and alpha 255 |
| ColorObjects.Color.SetR | wic/src/descriptions/color.rs:33-35 | in place: the red channel becomes the byte, the others keep their values |
| ColorObjects.Color.SetG | wic/src/descriptions/color.rs:36-38 | in place: the green channel becomes the byte, the others keep their values |
| ColorObjects.Color.SetB | wic/src/descriptions/color.rs:39-41 | in place: the blue channel becomes the byte, the others keep their values |
| ColorObjects.Color.SetA | wic/src/descriptions/color.rs:42-44 | in place: the alpha channel becomes the byte, the others keep their values |
| ColorObjects.Color.WithR | wic/src/descriptions/color.rs:46-49 | a new colour with what `set_r` would give, the receiver unchanged |
| ColorObjects.Color.WithG | wic/src/descriptions/color.rs:50-53 | a new colour with what `set_g` would give, the receiver unchanged |
| ColorObjects.Color.WithB | wic/src/descriptions/color.rs:54-57 | a new colour with what `set_b` would give, the receiver unchanged |
| ColorObjects.Color.WithA | wic/src/descriptions/color.rs:58-61 | a new colour with what `set_a` would give, the receiver unchanged |
| WideStrings.FirstNul | dcommon/src/helpers/wide.rs:8-26 | the index of the first 0 unit, or the length when there is none; every unit before it is nonzero |
| WideStrings.WStrNLen | dcommon/src/helpers/wide.rs:17-26 | the scanning loop stops at the first 0 unit or at the end of the slice |
| WideStrings.WStrLen | dcommon/src/helpers/wide.rs:8-15 | on a buffer holding a 0, the walk returns the index of the first 0 |
| WideStrings.CoTaskWString.Create | dcommon/src/helpers/wide.rs:103-116 | panics on a null allocation; otherwise a fresh buffer of `len+1` units holding the data and a 0 at the end |
| WideStrings.CoTaskWString.Len | dcommon/src/helpers/wide.rs:118-120 | the number of units before the first 0 of the buffer |
| WideStrings.CoTaskWString.Data | dcommon/src/helpers/wide.rs:122-125 | the first `len()` units of the buffer |
| WideStrings.CoTaskWString.Clone | dcommon/src/helpers/wide.rs:163-167 | panics on a null allocation; otherwise a fresh buffer holding the original's `data()` and a 0 |
| WideStrings.CreatedLenAndData | dcommon/src/helpers/wide.rs:103-125 | `len()` of `create(d)` is `wstrnlen(d)`; it equals `d.len()`, and `data()` equals `d`, exactly when `d` has no 0 unit |
| WideStrings.CloneKeepsData | dcommon/src/helpers/wide.rs:163-167 | a clone's `len()` and `data()` are the original's |
| MemberCompat.AlignUpIsLeastMultiple | dcommon/src/helpers/member_compat.rs:11-19 | rounding up gives the least multiple of the alignment not below the size; an aligned size is unchanged |
| MemberCompat.RealignPanicsExactly | dcommon/src/helpers/member_compat.rs:11-19 | `realign` panics exactly when the alignment is not a power of two or rounding the size up to it overflows `u64` (the `size += align` step) |
| MemberCompat.RealignArithmetic | dcommon/src/helpers/member_compat.rs:13-16 | the mask arithmetic computes the rounded-up size |
| MemberCompat.StructSizeTracker.constructor | dcommon/src/helpers/member_compat.rs:7-9 | a new tracker has size 0 and alignment 0 |
| MemberCompat.StructSizeTracker.Realign | dcommon/src/helpers/member_compat.rs:11-19 | panics when the alignment is not a power of two, or when rounding up overflows `u64`, leaving the size unchanged; otherwise size becomes the least multiple not below it, alignment kept; size never decreases |
| MemberCompat.StructSizeTracker.Incr | dcommon/src/helpers/member_compat.rs:21-27 | size becomes the realigned size plus the member's size; alignment becomes the larger of the two; size never decreases |
| MemberCompat.StructSizeTracker.Finalize | dcommon/src/helpers/member_compat.rs:29-32 | size is rounded up to a multiple of the largest alignment seen, or the call panics; size never decreases |
| MemberCompat.FinalizeWithoutMembersPanics | dcommon/src/helpers/member_compat.rs:29-32 | `finalize` on a tracker that never ran `incr` panics, alignment 0 not being a power of two |
| MemberCompat.FinalizeAfterMembers | dcommon/src/helpers/member_compat.rs:21-32 | once a member has set a power-of-two alignment, `finalize` panics only when rounding up overflows `u64` |
| UsizeBits.OneBitIsPowerOfTwo | dcommon/src/helpers/member_compat.rs:12 | `count_ones() == 1` holds exactly for the powers of two |
| UsizeBits.AlignmentMasks | dcommon/src/helpers/member_compat.rs:13-16 | for a power of two `a`, `x & (a-1)` is `x mod a` and `x & !(a-1)` is `x` rounded down to a multiple of `a` |
| VarTypes.Primitive | dcommon/src/idltypes/vartype.rs:6-8 | the primitive part is the tag's low 12 bits |
| VarTypes.Container | dcommon/src/idltypes/vartype.rs:10-12 | the container part is the tag's top 4 bits |
| VarTypes.SplitRecombines | dcommon/src/idltypes/vartype.rs:6-12 | primitive `\|` container is the tag, and primitive `&` container is 0 |
| VarTypes.ProjectionsIdempotent | dcommon/src/idltypes/vartype.rs:6-12 | both projections are idempotent, and each clears the other's part |
| VarTypes.ByRefSplits | dcommon/src/idltypes/vartype.rs:6-12 | for `t < 0x1000`, `BYREF\|t` has container BYREF and primitive `t` |
| VarTypes.ScalarSplits | dcommon/src/idltypes/vartype.rs:6-12 | a tag below 0x1000 has container EMPTY and is its own primitive |
| VarTypes.JoinSplits | dcommon/src/idltypes/vartype.rs:6-12 | joining a container with a scalar gives a tag that splits back into the two |
| VarTypes.SplitDetermines | dcommon/src/idltypes/vartype.rs:6-12 | two tags with the same primitive and container parts are equal |
| VarTypes.AutomationScalarsBelowContainerBits | dcommon/src/idltypes/vartype.rs:16-60 | every scalar automation constant is below 0x1000 |
| VarTypes.PropertyScalarsBelowContainerBits | dcommon/src/idltypes/vartype.rs:16-60 | every scalar property constant is below 0x1000 |
| VarTypes.ScalarConstantsHaveNoContainer | dcommon/src/idltypes/vartype.rs:16-60 | every scalar constant has container EMPTY |
| VarTypes.NotInvolutive | dcommon/src/idltypes/vartype.rs:91-96 | `!!v == v` |
| VarTypes.NotOfOr | dcommon/src/idltypes/vartype.rs:70-96 | the operators act bitwise on the 16-bit payload, so De Morgan's law holds |
| VarTypes.XorDiffers | dcommon/src/idltypes/vartype.rs:84-89 | `a ^ b` is 0 exactly when `a == b` |
| VarTypes.NotIsXorIllegal | dcommon/src/idltypes/vartype.rs:91-96 | `!v` is `v ^ 0xFFFF` |
| Variants.New | dcommon/src/idltypes/variant.rs:20-90 | the value is zeroed, reserved words 0, the tag is the integer type's and the low bytes of the union hold the value |
| Variants.DirectTagsDistinct | dcommon/src/idltypes/variant.rs:20-90 | the eight constructors write I1, UI1, I2, UI2, I4, UI4, I8 and UI8, pairwise distinct |
| Variants.DirectTagsHaveNoContainer | dcommon/src/idltypes/variant.rs:20-90 | no constructor sets a container bit |
| PropVariants.New | dcommon/src/idltypes/propvariant.rs:28-98 | the value is zeroed, reserved words 0, tagged as for `Variant`, with `h_val`/`uh_val` for the 64-bit types |
| PropVariants.ConstructorsInjective | dcommon/src/idltypes/propvariant.rs:28-98 | different integer types or different values give different property variants |
| PropertyTypes.FromVariant | dcommon/src/ocidl/property_bag2/proptype.rs:12-154 | the direct tag reads the union field, the BYREF tag reads through the pointer, and any other tag panics |
| PropertyTypes.FromVariantCases | dcommon/src/ocidl/property_bag2/proptype.rs:12-154 | `from_variant` returns exactly when the container is EMPTY or BYREF and the primitive is one of the type's own |
| PropertyTypes.AcceptsExactlyDeclared | dcommon/src/ocidl/property_bag2/proptype.rs:12-154 | `from_variant` accepts a tag exactly when it is in the type's `VARTYPES` |
| PropertyTypes.AcceptedTagsAreDeclared | dcommon/src/ocidl/property_bag2/proptype.rs:12-154 | the tags the match lets through are exactly the declared tags |
| PropertyTypes.DeclaredAreJoins | dcommon/src/ocidl/property_bag2/proptype.rs:12-154 | each declared tag is a primitive of the type, alone or under BYREF |
| PropertyTypes.DeclaredDisjoint | dcommon/src/ocidl/property_bag2/proptype.rs:12-154 | the eight `VARTYPES` lists are pairwise disjoint |
| PropertyTypes.RoundTrip | dcommon/src/ocidl/property_bag2/proptype.rs:12-154 | `T::from_variant(Variant::new_T(x)) == x` for all eight integer types |
| PropertyTypes.ThirtyTwoBitTags | dcommon/src/ocidl/property_bag2/proptype.rs:80-120 | `i32` accepts exactly I4, INT and their BYREF forms; `u32` exactly UI4, UINT and their BYREF forms |
| PropertyTypes.ByteTags | dcommon/src/ocidl/property_bag2/proptype.rs:12-27 | `i8` reads I1 directly and BYREF\|I1 through the pointer; I2 and VECTOR\|I1 panic |
| EnumStringCustom.Fetched | dcommon/src/objidl/enum_string/custom.rs:65-75 | the count `next` takes is the smaller of the request and what remains |
| EnumStringCustom.NextStatusMeaning | dcommon/src/objidl/enum_string/custom.rs:75-80 | `next` returns S_FALSE exactly when it fetched fewer than asked, so `next(0)` is S_OK |
| EnumStringCustom.NextThenNext | dcommon/src/objidl/enum_string/custom.rs:65-81 | two requests in a row deliver, in order, what one request for the sum would, and leave the same strings behind |
| EnumStringCustom.ShortNextExhausts | dcommon/src/objidl/enum_string/custom.rs:65-81 | after a short `next` nothing is left, and every later request fetches nothing and answers S_FALSE unless it asks for nothing |
| EnumStringCustom.CustomEnumString.Create | dcommon/src/objidl/enum_string/custom.rs:31-41 | remaining and original are the sequence, and the clone function is present |
| EnumStringCustom.CustomEnumString.CreateWithoutClone | dcommon/src/objidl/enum_string/custom.rs:48-56 | the sequence remains, with no original copy and no clone function |
| EnumStringCustom.CustomEnumString.Next | dcommon/src/objidl/enum_string/custom.rs:65-81 | writes the first `min(ce, remaining)` strings in order, leaves later slots alone, drops them from the enumerator and returns S_FALSE on a short count |
| EnumStringCustom.CustomEnumString.Clone | dcommon/src/objidl/enum_string/custom.rs:84-99 | E_NOTIMPL without a clone function; otherwise a fresh enumerator with the same remaining and original, source unchanged |
| EnumStringCustom.CustomEnumString.Reset | dcommon/src/objidl/enum_string/custom.rs:102-114 | restores the original sequence with S_OK, or returns E_NOTIMPL and changes nothing |
| EnumStringCustom.CustomEnumString.Skip | dcommon/src/objidl/enum_string/custom.rs:117-122 | drops `min(n, remaining)` items and returns S_OK |
| EnumStringCustom.CreateConsumeReset | dcommon/src/objidl/enum_string/custom.rs:31-122 | after `create`, any `next` and `skip` followed by `reset` give back the full sequence with S_OK |
| EnumStringCustom.WithoutCloneRefuses | dcommon/src/objidl/enum_string/custom.rs:84-114 | after `create_without_clone`, both `reset` and `clone` return E_NOTIMPL |
| EnumStrings.NextElems | dcommon/src/objidl/enum_string/mod.rs:28-46 | panics on `u32::MAX` or more slots; on failure clears the first `fetched` slots and keeps the rest; any success gives `Ok(fetched)` |
| EnumStrings.NextElem | dcommon/src/objidl/enum_string/mod.rs:18-26 | 0 fetched is `None`, 1 is the slot's string, any other count panics, and an error stays an error |
| EnumStrings.IteratorNext | dcommon/src/objidl/enum_string/mod.rs:71-76 | `None` both on error and on exhaustion; a string only after a successful fetch of one |
| EnumStrings.Skip | dcommon/src/objidl/enum_string/mod.rs:48-53 | the count reaches the foreign call unchanged, and S_FALSE stays apart from S_OK |
| EnumStrings.Reset | dcommon/src/objidl/enum_string/mod.rs:55-60 | the foreign code is kept, success or failure |
| EnumStrings.TryClone | dcommon/src/objidl/enum_string/mod.rs:62-68 | a failure ignores the pointer; a success wraps it, and a null pointer panics |
| EnumStrings.FailedCloneIgnoresPointer | dcommon/src/objidl/enum_string/mod.rs:62-68 | whatever pointer a failing `Clone` writes, the answer is the same |
| ComHelpers.WrapCom | dcommon/src/helpers/com.rs:4-10 | panics exactly on null; otherwise a wrapper of that pointer |
| ComHelpers.WrapOptCom | dcommon/src/helpers/com.rs:12-21 | `None` exactly on null, otherwise a wrapper of that pointer |
| ComHelpers.UnwrapOptCom | dcommon/src/helpers/com.rs:62-67 | null exactly for `None`, otherwise the wrapper's pointer |
| ComHelpers.OptComRoundTrip | dcommon/src/helpers/com.rs:12-67 | `unwrap_opt_com` and `wrap_opt_com` are mutual inverses, null included |
| ComHelpers.WrapComAgreesWithOpt | dcommon/src/helpers/com.rs:4-21 | `wrap_com` returns exactly where `wrap_opt_com` gives `Some`, and the same wrapper |
| ComHelpers.WrapRefToRawCom | dcommon/src/helpers/com.rs:23-33 | panics on a size mismatch or a null pointer; otherwise a view of the same pointer |
| ComHelpers.WrapRefToRawMutCom | dcommon/src/helpers/com.rs:35-45 | panics on a size mismatch or a null slot; otherwise the slot itself |
| ComHelpers.WrapOptRefToRawCom | dcommon/src/helpers/com.rs:47-60 | panics only on a size mismatch; null gives `None` |
| ComHelpers.RefViewsAgree | dcommon/src/helpers/com.rs:23-60 | with equal sizes, the plain view exists exactly when the optional view is `Some`, and they agree |
| ComHelpers.DerefComWrapper | dcommon/src/helpers/com.rs:69-78 | panics exactly when the sizes differ; otherwise the same pointer, no new handle |
| ComHelpers.DerefComWrapperMut | dcommon/src/helpers/com.rs:80-89 | panics exactly when the sizes differ; otherwise the wrapper's own storage |
| Streams.EncodeSeek | dcommon/src/objidl/stream/mod.rs:30-34 | `Start(p)` is `p` reinterpreted as `i64` with STREAM_SEEK_SET; `Current` and `End` keep the offset under CUR and END |
| Streams.EncodeSeekInjective | dcommon/src/objidl/stream/mod.rs:30-34 | different positions encode differently |
| Streams.Seek | dcommon/src/objidl/stream/mod.rs:29-45 | the encoded position reaches the foreign call, and the result is `Ok(new position)` exactly on success |
| Streams.SetSize | dcommon/src/objidl/stream/mod.rs:47-55 | the size reaches the foreign call unchanged, and its code is kept |
| Streams.CopyTo | dcommon/src/objidl/stream/mod.rs:57-78 | the destination's raw pointer and the count reach the foreign call; a counter is passed as null exactly when it is absent; the code is kept |
| Streams.CounterPointer | dcommon/src/objidl/stream/mod.rs:66-73 | the pointer of an optional counter is null exactly when the counter is absent |
| Streams.Commit | dcommon/src/objidl/stream/mod.rs:80-85 | the flags reach the foreign call unchanged, and its code is kept |
| Streams.Revert | dcommon/src/objidl/stream/mod.rs:87-92 | the foreign code is kept, success or failure |
| Streams.LockRegion | dcommon/src/objidl/stream/mod.rs:94-108 | offset, count and lock type reach the foreign call unchanged, and its code is kept |
| Streams.UnlockRegion | dcommon/src/objidl/stream/mod.rs:110-124 | passes its arguments and reports the code just as `lock_region` does |
| Streams.Stat | dcommon/src/objidl/stream/mod.rs:126-132 | the flags reach the foreign call; the filled record is returned only on success |
| Streams.TryClone | dcommon/src/objidl/stream/mod.rs:134-140 | a failure ignores the pointer; a success wraps it, and a null pointer panics |
| Streams.IoRead | dcommon/src/objidl/sequential_stream/mod.rs:21-37 | panics for a buffer longer than `u32::MAX`; otherwise asks for the whole buffer, gives the count on success, and on failure gives the error converted as written, which converts back to the same code |
| Streams.IoWrite | dcommon/src/objidl/sequential_stream/mod.rs:39-49 | asks to write `min(len, u32::MAX)` bytes, gives the count on success, and on failure gives the error converted as written, which converts back to the same code |
| Streams.Flush | dcommon/src/objidl/stream/mod.rs:154-158 | commits with flags 0 and discards the status; an error reaches `io` converted as written and converts back to the same code |
| Streams.IoSeek | dcommon/src/objidl/stream/mod.rs:161-165 | `Stream::seek` with its error converted to `io::Error` as written; every failure code converts back unchanged |
| Streams.ToIo | dcommon/src/objidl/stream/mod.rs:151-163 | an `Ok` passes unchanged and an `Err` goes through `From<Error> for io::Error` as written (`IoErrors.IoFromError`) |
| Streams.AsSequential | dcommon/src/objidl/stream/mod.rs:167-178 | the two wrappers have the same size, so the view never panics and holds the same pointer |
| Streams.StatusKeptExceptByFlush | dcommon/src/objidl/stream/mod.rs:80-85 | `commit` keeps S_FALSE apart from S_OK, while `flush` gives `Ok(())` for both |
| StreamCustom.Read | dcommon/src/objidl/stream/custom.rs:67-78 | the host sees `cb` bytes; the count and code are the host's count with S_OK, or 0 with its error code, or 0 with E_FAIL on a panic |
| StreamCustom.Write | dcommon/src/objidl/stream/custom.rs:81-92 | the same discipline for the written count |
| StreamCustom.Clone | dcommon/src/objidl/stream/custom.rs:101-110 | nulls the out-pointer first, leaves it null on error, stores the clone on success |
| StreamCustom.Passthrough | dcommon/src/objidl/stream/custom.rs:113-124 | a host status or error code comes back unchanged, a host panic as E_FAIL |
| StreamCustom.PassthroughThenMapStatus | dcommon/src/objidl/stream/custom.rs:113-124 | mapping a passed-through code gives back the host's own answer, polarity intact |
| StreamCustom.Commit | dcommon/src/objidl/stream/custom.rs:113-124 | the flags reach the host unchanged, and its answer is passed through |
| StreamCustom.CopyToAsWritten | dcommon/src/objidl/stream/custom.rs:127-157 | as written: a null target stream gives E_FAIL; otherwise both host counts are stored whether or not the call succeeded, and the answer passed through; it needs both counters present |
| StreamCustom.CallerPassesNullCounter | dcommon/src/objidl/stream/mod.rs:66-73 | the crate's own `copy_to` without counters passes null for both, which the as-written shim would write through |
| StreamCustom.CopyTo | dcommon/src/objidl/stream/custom.rs:127-157 | corrected: touches only the counters that are present; a null target gives E_FAIL with them 0, otherwise they hold the host's counts and its answer is passed through |
| StreamCustom.LockRegion | dcommon/src/objidl/stream/custom.rs:160-181 | the region and lock type reach the host unchanged, and its answer is passed through |
| StreamCustom.Revert | dcommon/src/objidl/stream/custom.rs:184-197 | the host's answer is passed through |
| StreamCustom.DecodeSeek | dcommon/src/objidl/stream/custom.rs:206-212 | SET gives `Start(offset as u64)`, CUR `Current`, END `End`, and any other origin panics |
| StreamCustom.SeekCodecRoundTrip | dcommon/src/objidl/stream/custom.rs:206-212 | decoding the encoding of `Stream::seek` gives back every position |
| StreamCustom.Seek | dcommon/src/objidl/stream/custom.rs:200-223 | a bad origin gives E_FAIL; the new position is stored only when the pointer is non-null and the host succeeded, and `*newpos` is untouched on every other path, an error carrying code 0 included; the host's error code is returned |
| StreamCustom.SetSize | dcommon/src/objidl/stream/custom.rs:226-241 | the size reaches the host unchanged, and its answer is passed through |
| StreamCustom.Stat | dcommon/src/objidl/stream/custom.rs:244-258 | the flags reach the host unchanged, and its answer is passed through |
| StreamCustom.UnlockRegion | dcommon/src/objidl/stream/custom.rs:261-282 | the region and lock type reach the host unchanged, and its answer is passed through |
| StreamCustom.StoredRead | dcommon/src/objidl/stream/custom.rs:144-145 | what the read counter holds afterwards: the written count when both counters are one location (it is stored last), the read count otherwise |
| SequentialStreamCustom.TransferOf | dcommon/src/objidl/sequential_stream/custom.rs:31-56 | a host count gives S_OK with that count, an error gives its code with 0, a panic gives E_FAIL with 0 |
| SequentialStreamCustom.TransferThenMap | dcommon/src/objidl/sequential_stream/custom.rs:31-56 | mapping the returned code gives back the host's success or its error |
| SequentialStreamCustom.Exchange | dcommon/src/objidl/sequential_stream/custom.rs:31-56 | the host sees exactly `cb` bytes; the counter is 0 before the call and the transfer's count after |
| SequentialStreamCustom.Read | dcommon/src/objidl/sequential_stream/custom.rs:31-42 | zeroes `*pcbRead`, then stores the host's count on success and returns S_OK, the error code, or E_FAIL on a panic |
| SequentialStreamCustom.Write | dcommon/src/objidl/sequential_stream/custom.rs:45-56 | the same for `*pcbWritten` |
| PixelFormats.DefineDesc | wic/src/descriptions/pixel_format.rs:843-863 | stores `Uniform(bpc)` and copies every other argument unchanged |
| PixelFormats.DefineDescP | wic/src/descriptions/pixel_format.rs:865-888 | stores `PerChannel(b0, b1, b2, b3)` and copies every other argument unchanged |
| PixelFormats.FindEntry | wic/src/descriptions/pixel_format.rs:16-21 | the index of the first entry with the GUID, or the table's length when no entry has it |
| PixelFormats.FindEntryUnique | wic/src/descriptions/pixel_format.rs:16-21 | an index holding the GUID with none before it is the one the search finds |
| PixelFormats.FirstMatch | wic/src/descriptions/pixel_format.rs:16-21 | `None` exactly when no entry has the GUID; otherwise the description paired with the first entry that has it |
| PixelFormats.ChannelBits | wic/src/descriptions/pixel_format.rs:24-40 | the bits of the channels: count times the common width, or the sum of the four widths |
| PixelFormats.TableConsistent | wic/src/descriptions/pixel_format.rs:64-841 | every entry is labelled with its own GUID and its channels fit in its pixel, so the lookup finds a description labelled with the GUID's name |
| PixelFormats.Formats0Consistent | wic/src/descriptions/pixel_format.rs:66-275 | entries 1 to 15 of the table are labelled with their GUIDs and their channels fit in their pixels |
| PixelFormats.Formats1Consistent | wic/src/descriptions/pixel_format.rs:276-471 | the same for entries 16 to 30 |
| PixelFormats.Formats2Consistent | wic/src/descriptions/pixel_format.rs:472-666 | the same for entries 31 to 45 |
| PixelFormats.Formats3Consistent | wic/src/descriptions/pixel_format.rs:667-838 | the same for entries 46 to 58 |
| PixelFormats.DontCareDescription | wic/src/descriptions/pixel_format.rs:66-78 | "don't care" has 0 channels, 0 bits per pixel, category NONE and format Unknown |
| PixelFormats.Bgra32Description | wic/src/descriptions/pixel_format.rs:394-406 | 32bppBGRA has 4 channels of 8 bits, 32 bits per pixel, category BGR\|ALPHA and format B8G8R8A8Unorm |
| WicTypes.Width | wic/src/bitmap/builder/source.rs:39 | a rectangle's width is positive exactly when its right edge is past its left |
| WicTypes.Height | wic/src/bitmap/builder/source.rs:40 | a rectangle's height is positive exactly when its bottom edge is past its top |
| WicTypes.CacheValue | wic/src/bitmap/builder/empty.rs:40 | the option's value is at most 2 and is 0 exactly for NoCache |
| WicTypes.CacheValueInjective | wic/src/bitmap/builder/source.rs:45 | different options are sent as different values |
| WicTypes.TruncDiv | wic/src/bitmap_source/mod.rs:75 | signed division rounds toward zero: the quotient times the divisor lies within one divisor of the dividend, on its side of zero |
| MemoryBuilders.New | wic/src/bitmap/builder/memory.rs:18-25 | size, format and data all start unset |
| MemoryBuilders.WithSize | wic/src/bitmap/builder/memory.rs:49-52 | sets the size only |
| MemoryBuilders.WithFormat | wic/src/bitmap/builder/memory.rs:54-57 | sets the format only |
| MemoryBuilders.RowBytes | wic/src/bitmap/builder/memory.rs:70 | the least number of bytes holding `width` pixels of `bpp` bits |
| MemoryBuilders.WithDataUnchecked | wic/src/bitmap/builder/memory.rs:75-78 | stores the buffer and stride with no check, and nothing else |
| MemoryBuilders.WithData | wic/src/bitmap/builder/memory.rs:59-73 | returns exactly when size and a described format were set and the length is below `u32::MAX`, holds `height` rows of `stride`, and a row holds `width` pixels; then as `with_data_unchecked` |
| MemoryBuilders.Build | wic/src/bitmap/builder/memory.rs:27-47 | panics if a field is unset or a success brings a null bitmap; passes the stored values with the length cast to `u32`; a failure maps to its code |
| MemoryBuilders.DataNeedsSizeAndFormat | wic/src/bitmap/builder/memory.rs:60-61 | `with_data` before the size or the format panics, whatever the buffer |
| MemoryBuilders.SettersCommute | wic/src/bitmap/builder/memory.rs:49-78 | the setters touch disjoint fields, so they commute |
| MemoryBuilders.CheckedChainBuilds | wic/src/bitmap/builder/memory.rs:27-73 | after an accepted `with_data`, `build` panics only on a null bitmap and sends the exact length, which fits a `u32` |
| MemoryBuilders.FitsMeansRows | wic/src/bitmap/builder/memory.rs:68-70 | a buffer passing the checks holds every row, each row holds every pixel, and its length is exact as a `u32` |
| SourceBuilders.New | wic/src/bitmap/builder/source.rs:19-27 | no cache option and no rectangle |
| SourceBuilders.WithCacheOption | wic/src/bitmap/builder/source.rs:53-56 | sets the cache option only |
| SourceBuilders.WithRect | wic/src/bitmap/builder/source.rs:58-66 | panics unless left and top are non-negative and width and height positive; otherwise sets the rectangle only |
| SourceBuilders.Build | wic/src/bitmap/builder/source.rs:29-51 | panics when both are set or on a null bitmap; a rectangle alone copies it; otherwise copies the whole source with the option, NoCache by default |
| SourceBuilders.RectAndCacheExclusive | wic/src/bitmap/builder/source.rs:29-66 | setting both, in either order, makes `build` panic; a rectangle alone is copied exactly |
| EmptyBuilders.New | wic/src/bitmap/builder/empty.rs:20-27 | no size, no format, and NoCache |
| EmptyBuilders.WithSize | wic/src/bitmap/builder/empty.rs:48-51 | sets the size only |
| EmptyBuilders.WithFormat | wic/src/bitmap/builder/empty.rs:53-56 | sets the format only |
| EmptyBuilders.WithCacheOption | wic/src/bitmap/builder/empty.rs:58-61 | replaces the cache option only |
| EmptyBuilders.Build | wic/src/bitmap/builder/empty.rs:29-46 | panics if size or format is unset or a success brings a null bitmap; sends the stored values and cache option |
| EmptyBuilders.SizeAndFormatSuffice | wic/src/bitmap/builder/empty.rs:19-61 | size and format, set in either order, suffice; the last cache option set is sent, NoCache if none |
| EmptyBuilders.MissingFieldPanics | wic/src/bitmap/builder/empty.rs:30-31 | without a size or a format, `build` panics |
| BitmapSources.PixelFormatDesc | wic/src/bitmap_source/mod.rs:29-39 | `None` exactly when the query fails or the table does not list the format; otherwise the table's description |
| BitmapSources.UncheckedCopyPixels | wic/src/bitmap_source/mod.rs:80-91 | the buffer's length reaches the call modulo 2^32, and the status is kept |
| BitmapSources.CopyPixels | wic/src/bitmap_source/mod.rs:58-78 | forwards exactly when the format is described and the three buffer checks pass, and otherwise panics |
| BitmapSources.ChecksGuardBuffer | wic/src/bitmap_source/mod.rs:73-75 | for a rectangle the right way round, the buffer holds every row, each row every pixel, and the length is exact |
| BitmapSources.SwappedRectPassesStrideCheck | wic/src/bitmap_source/mod.rs:64-75 | a rectangle with swapped edges passes the checks with an empty buffer and stride 0 |

## Left out

- EnumStringCustom.CustomEnumString: the boxed `Fuse<I>` iterator of
  `dcommon/src/objidl/enum_string/custom.rs:22-24` is modelled as the finite sequence
  of strings it has left, so an infinite iterator is not modelled.
- Message formatting (`format_err`, `message`, `Display`, `Debug`) is left out: it
  calls `FormatMessageW` and `LocalFree` and formats strings.
- Wrappers whose body is one foreign call followed by `Error::map*` are left out, in
  the WIC crate and in `property_bag2.rs` and `error_log.rs`. The ones in `stream/mod.rs` and `enum_string/mod.rs` are modelled.
- `SafeArray`, `BSTR`, the error-constant tables other than `WIN32_*`, the raw layout
  structs and the `repr(C)` union layout are left out: they are foreign calls or
  values taken from outside this crate.
- A host stream's contents and position are left out. A host stream is modelled by its
  answers, and the bytes a read or write moves are not tracked.
- `Streams.Stat`: the `STATSTG` record is a type parameter, so its fields are not
  modelled.
- The factories and bitmap sources behind the builders and `copy_pixels` are modelled
  by their interface pointer or by the code and GUID they return. `clone_to_bitmap`
  is `SourceBuilder` followed by `build`.
- `BitmapSource::size`, `pixel_format`, `copy_palette` and `resolution` are left out:
  each is one foreign call. `pixel_format` is covered inside `PixelFormatDesc`.
- `from_raw` of the external `com_wrapper`/`wio` crates rejects a null pointer. The
  model writes this as `ComHelpers.WrapCom` wherever the source calls `from_raw`.
- WicTypes.Width: `Recti::width` and `height` come from the external `math2d` crate.
  The model takes them as exact integer differences, so an `i32` overflow of `right -
  left` is not modelled.
- Floating point is left out: `new_f32`, `new_f64`, the float and date fields of the
  unions, and `resolution`.
- The union fields of `Variant` and `PropVariant` other than the integer ones are left
  out, and so is the enum-generated `vartype` getter beyond returning the stored tag.
- WideStrings.CoTaskWString.Create: the `(len + 1) * 2` byte count is not checked for
  overflow of `usize`. The allocator is an input, and only its null answer is
  modelled.
- `CoTaskMemFree` on drop, `into_raw` and `as_ptr` are left out: they free or cast
  pointers and compute nothing.
- The lossy UTF-16 conversions are left out: `to_string_lossy`, `to_os_string`,
  `Display`, and the `WideStr`/`WideCStr` views.
- The `catch_unwind` guard of the custom COM objects is modelled only by its effect: a
  host panic becomes E_FAIL. Unwinding itself is not modelled.
- Integer wrap-around of release builds is modelled only where the source casts. Other
  arithmetic is taken as checked, as in debug builds.
- The `println!` calls in `member_compat` and the `member_compat_test!` macro are left
  out: they only print and generate tests.
- The tests that exercise Direct2D, DXGI and WIC at run time are left out. Only the
  `io::Error` round-trip test is modelled, as `IoErrors.RoundTripTestCases`. Its
  D2DERR_WRONG_STATE and WINCODEC_ERR_PROPERTYSIZE values come from the platform's
  `winerror.h`, through winapi, not from this crate.
- GUIDs are modelled by the name of their WIC constant, so two GUIDs are equal exactly
  when their names are.
- The integer helpers of `Ints` (fixed-width ranges, two's-complement reinterpretation)
  stand for Rust's integer types and `as` casts. They model no source function.
- Enumerations generated by `enum_flags` and `auto_enum` are modelled by their values
  only. The `ComWrapper` and `ComImpl` derives, reference counting and vtables are left
  out, and so are `Send`/`Sync` and thread affinity.

## Findings

| source | as written | input that shows it | evidently intended | confidence | as-written member | corrected member |
|---|---|---|---|---|---|---|
| dcommon/src/error.rs:129 | the facility test masks the code with 0x7FFF0000, which clears bit 31, then compares with 0x80070000, which has bit 31 set, so it never holds | `Error(0x80070002)` (WIN32_FILE_NOT_FOUND) becomes `ErrorKind::Other` with a custom payload instead of raw OS error 2 | a mask that keeps bit 31 (0xFFFF0000), so facility-WIN32 codes become raw OS errors | high; not executed | IoErrors.IoFromError (shown by IoErrors.Win32BranchDead) | IoErrors.IoFromErrorIntended (with IoErrors.IntendedIoRoundTrip) |
| dcommon/src/objidl/stream/custom.rs:134-135, 144-145 | `copy_to` writes through both counter pointers with no null check | the crate's own `Stream::copy_to` with `cb_read: None` (dcommon/src/objidl/stream/mod.rs:66-73) passes a null read counter, which the shim then writes | `IStream::CopyTo` allows either counter to be null; write only the counters that are present | high; not executed | StreamCustom.CopyToAsWritten (shown by StreamCustom.CallerPassesNullCounter) | StreamCustom.CopyTo |
