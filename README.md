# try_reserve in Dafny

A model of the `try_reserve` crate. The crate gives growable containers one stable
error type for a fallible reservation ("make room for `additional` more elements
or tell me why not"), and one trait to expose that reservation.

- `ErrorModel` (error.dfy) is `src/error.rs`. `TryReserveError` wraps exactly one
  `TryReserveErrorKind`, which is either `CapacityOverflow` or
  `AllocError(layout, nonExhaustive)`. It has the conversions from a kind, from a
  `LayoutError` and from the standard library's error, the conversions back to the
  standard library's error, `from_std`, `from_std_result` and the `Display` text.
- `StdCollections` (std_collections.dfy) stands for the standard library's own
  `TryReserveError`, which has the same shape. The source converts between the two
  with `transmute`. The model maps them explicitly, variant by variant and field by
  field, so both round trips are proved.
- `ReservationContract` (try_reserve.dfy) is `src/try_reserve.rs`. The `TryReserve`
  trait becomes the predicate `ReserveHonoured`, which every `TryReserve` method
  promises. It says the elements are untouched, and that on success there is room
  for `additional` more. The two `TryReserveErrorExtension` conversions are total
  functions.
- `StdVec` (std_vec.dfy) is the standard `Vec<T>` that the custom collections wrap.
  It holds elements, a capacity, the element size and alignment, and an allocator
  oracle `Layout -> bool`. `Grow` is its reservation outcome. Like the standard
  library, a growing `Vec` asks for its amortized capacity: the largest of twice
  the old capacity, the required length, and a minimum non-zero capacity (8 for
  one-byte elements, 4 up to 1024 bytes, 1 otherwise).
- `Tests` (tests.dfy) is the logic of `tests/tests.rs`. The classes `MyCollection`
  and `FixedSizeCollection` keep their `data` field and have `TryReserve` methods
  that modify it. Every test becomes a method or a lemma whose postcondition is
  what the test asserts. A test's success assertion depends on the allocator, so
  its method says exactly which allocation request decides it.
- `CoreAlloc` (core_alloc.dfy) is the opaque `Layout` (size and alignment), the
  `LayoutError` token, and `usize::MAX`/`isize::MAX` for a 64-bit target.
  `Wrappers` (wrappers.dfy) is `Result` and `map_err`.

## Model

| member | source | states |
|---|---|---|
| ErrorModel.Kind | src/error.rs:22-24 | the kind returned is the one the error wraps: wrapping it again gives back the same error |
| ErrorModel.FromKind | src/error.rs:68-74 | wrapping a kind and then asking for the kind returns that same kind |
| ErrorModel.KindFromLayoutError | src/error.rs:76-84 | every layout failure converts to the kind `CapacityOverflow` |
| ErrorModel.FromLayoutError | src/error.rs:86-95 | every layout failure converts to an error of kind `CapacityOverflow`, equal to converting to a kind first and wrapping it |
| ErrorModel.ToStdError | src/error.rs:117-125 | converting to the standard error keeps the variant (both directions) and the layout of an allocator failure |
| ErrorModel.FromStdError | src/error.rs:97-105 | standard error to crate error and back gives the original standard error |
| ErrorModel.CrateRoundTrip | src/error.rs:97-125 | crate error to standard error and back gives the original crate error |
| ErrorModel.StdErrorFromKind | src/error.rs:107-115 | the standard error built from kind `k` converts back to the crate error wrapping `k` |
| ErrorModel.StdErrorFromKindWrapsFirst | src/error.rs:107-115 | converting a kind straight to the standard error equals wrapping it and then converting |
| ErrorModel.FromStd | src/error.rs:30-32 | `from_std` is the `From` conversion, and it converts back to its argument |
| ErrorModel.FromStdResult | src/error.rs:39-43 | a result is `Ok` exactly when the input is, with the same value; an error becomes `from_std` of the standard error |
| ErrorModel.Display | src/error.rs:127-146 | the text starts with "memory allocation failed", then one reason: the capacity reason exactly for `CapacityOverflow`, the allocator reason exactly for `AllocError` |
| ErrorModel.DisplayMessages | src/error.rs:135-144 | the two full messages, word for word, for any layout |
| ErrorModel.DisplayIgnoresLayout | src/error.rs:140-142 | the allocator-failure message is the same whatever the layout |
| ErrorModel.DisplayDistinguishesKinds | src/error.rs:136-143 | the two kinds give different messages |
| ErrorModel.EqualErrorsHaveEqualKinds | src/error.rs:13-16 | two errors are equal exactly when their kinds are equal |
| ReservationContract.ReserveHonoured | src/try_reserve.rs:4-6 | elements unchanged; on `Ok`, capacity is at least length plus `additional` |
| ReservationContract.ToCrateError | src/try_reserve.rs:17-19 | `to_crate_error` is `TryReserveError::from`, and converts back to its argument |
| ReservationContract.Kind | src/try_reserve.rs:21-23 | `kind` is the kind of `to_crate_error`, and it is the kind the standard error is built from |
| ReservationContract.KindOfStdErrorFromKind | src/try_reserve.rs:21-23 | a standard error built from crate kind `k` reports `k` |
| StdVec.AmortizedCapacity | tests/tests.rs:247-249 | the requested capacity is the largest of twice the old capacity, the required length and the minimum non-zero capacity |
| StdVec.Grow | tests/tests.rs:247-249 | a reservation that fits changes nothing and succeeds; otherwise success gives the amortized capacity, which holds `additional` more; `CapacityOverflow` exactly when the length overflows `usize`, the element is zero-sized, or the bytes of the amortized capacity exceed the largest layout; otherwise an `AllocError` with that layout, exactly when the allocator refuses it |
| StdVec.DoublingOverflowsFirst | tests/tests.rs:247-249 | a full `Vec<i32>` of 2^60 elements cannot reserve one more, although 2^60 + 1 elements fit in a layout |
| StdVec.Vec.New | tests/tests.rs:241 | a new `Vec` is empty and has no storage unless the element is zero-sized |
| StdVec.Vec.WithCapacity | tests/tests.rs:326 | an empty `Vec` with exactly the requested capacity |
| StdVec.Vec.Push | tests/tests.rs:330-332 | appends one element; the capacity does not change while there is room, and becomes the amortized capacity when full |
| StdVec.Vec.TryReserve | tests/tests.rs:247-249 | elements unchanged; outcome and new capacity as `Grow` gives them; capacity unchanged on failure |
| Tests.MyCollection.constructor | tests/tests.rs:239-243 | starts with an empty `Vec` |
| Tests.MyCollection.TryReserve | tests/tests.rs:245-251 | honours the reservation contract; the outcome is the `Vec`'s, its error converted with `From`; the new capacity is the `Vec`'s; reserving 0 always succeeds |
| Tests.FixedSizeCollection.constructor | tests/tests.rs:272-279 | starts with an empty `Vec` and `maxCapacity` equal to the argument |
| Tests.FixedSizeCollection.TryReserve | tests/tests.rs:281-293 | honours the reservation contract and keeps length at most `maxCapacity`; `CapacityOverflow` with the `Vec` untouched when length plus `additional` exceeds `maxCapacity`; otherwise the `Vec`'s outcome with its error converted, and the `Vec`'s new capacity; reserving 0 always succeeds |
| Tests.FixedSizeDelegatedOverflow | tests/tests.rs:281-293 | within the bound the `Vec` can still overflow: `new(usize::MAX)` over `i32` reserving 2^62 is a `CapacityOverflow` |
| Tests.TestVecImpl | tests/tests.rs:16-30 | an empty `Vec<i32>` reserves 10 exactly when the allocator grants 40 bytes; reserving `usize::MAX` is then a `CapacityOverflow` |
| Tests.TestStdErrorConversion | tests/tests.rs:187-204 | reserving `usize::MAX` fails; the converted error is `CapacityOverflow` and converts back to the same standard error |
| Tests.TestCustomCollection | tests/tests.rs:253-265 | `MyCollection<i32>` reserves 10 exactly when the allocator grants 40 bytes; `usize::MAX` is then a `CapacityOverflow` |
| Tests.TestFixedSizeCollection | tests/tests.rs:295-302 | from `new(50)`, reserving 50 succeeds exactly when the allocator grants 200 bytes; reserving 51 is always `CapacityOverflow` |
| Tests.TestZeroReservation | tests/tests.rs:310-321 | reserving 0 succeeds on a fresh `Vec` and on a fresh fixed-size collection of any bound, whatever the allocator does |
| Tests.TestWithPreexistingCapacity | tests/tests.rs:323-335 | with capacity 100, reserving 50 succeeds; after pushing 0 to 99 the integers are all there in order, and reserving 1 succeeds exactly when the allocator grants 800 bytes (the doubled capacity of 200) |
| Tests.TestNearCapacityLimit | tests/tests.rs:337-361 | reserving a billion bytes is never a `CapacityOverflow`; it succeeds exactly when the allocator grants them, otherwise it is an `AllocError` for that layout |
| Tests.TestErrorKindConversion | tests/tests.rs:156-165 | a wrapped `CapacityOverflow` reports `CapacityOverflow` |
| Tests.TestLayoutErrorConversion | tests/tests.rs:167-185 | a layout failure is `CapacityOverflow`, as a kind and once wrapped |
| Tests.TestErrorDisplay | tests/tests.rs:206-226 | the two display strings the test compares, word for word |

## Left out

- src/impls.rs: the eight adapters for `Vec`, `String`, `HashMap`, `HashSet`, `VecDeque`, `BinaryHeap`, `OsString` and `PathBuf`. Each is a one-line call into standard-library code that is not part of this model. For the same reason, the tests of those adapters other than `Vec`, and the `String`/`HashMap` lines of `test_zero_reservation`, are not modelled.
- The `transmute` in both conversions to and from the standard error. It is replaced by an explicit mapping of the two identical shapes. The standard error has exactly the crate's two variants, so no "unknown variant" case arises.
- The rules of `Layout::from_size_align`. `Layout` is an opaque size and alignment, and `LayoutError` carries nothing. So `TestLayoutErrorConversion` takes any `LayoutError`, not the one from `from_size_align(usize::MAX, 8)`.
- The `Formatter`: `Display` returns the text. A formatter whose `write_str` fails is not modelled.
- The `Debug`/`Clone` derives, the marker `impl Error`, the commented-out `SpecExtend`, and the `std`/`no_std` feature switches. The unused field `nonExhaustive: ()` is always present.
- StdVec.Grow: the growth rule is that of the standard library's `RawVec` (amortized growth), which is not part of this repository; the model states it as `AmortizedCapacity`. The allocator's own choice to hand out more bytes than asked is not modelled.
- StdVec.Vec.Push: an allocation failure during a push aborts in Rust and is not modelled; the requires demands that the amortized layout fits, where Rust would panic.
- StdVec.Vec.WithCapacity: its allocation is assumed to succeed, because Rust's `with_capacity` aborts on allocator failure.
- Tests.FixedSizeCollection.TryReserve: `len + additional` is computed without bounds. In Rust this addition panics on overflow in debug builds and wraps in release builds. With wrapping, the `Vec` would still report `CapacityOverflow`, but that path is not modelled.
- A 64-bit target is assumed for `usize::MAX` and `isize::MAX`.
- `TryReserve` is a trait in the source. Here it is the predicate `ReservationContract.ReserveHonoured`, which each implementing class's `TryReserve` promises.
