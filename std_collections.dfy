/**
 * The standard library's own `TryReserveError` and `TryReserveErrorKind`
 * (`std::collections`), which the crate mirrors. Only their shape is known:
 * the same two variants, the same fields, in the same order.
 */
module StdCollections {
  import opened CoreAlloc

  datatype NativeKind =
    | NativeCapacityOverflow
    | NativeAllocError(layout: Layout, nonExhaustive: ())

  datatype NativeTryReserveError = NativeTryReserveError(kind: NativeKind)
}
