/**
 * The parts of `core::alloc` that the error model mentions. `Layout` is kept
 * opaque: a size and an alignment in bytes, with no validity rules of its own.
 * `LayoutError` carries no information at all.
 */
module CoreAlloc {

  /** `usize::MAX` and `isize::MAX` on a 64-bit target. */
  const USIZE_MAX: nat := 0xFFFF_FFFF_FFFF_FFFF
  const ISIZE_MAX: nat := 0x7FFF_FFFF_FFFF_FFFF

  datatype Layout = Layout(size: nat, align: nat)

  /** The token returned when a layout cannot be computed. */
  datatype LayoutError = LayoutError

  /** The largest size, in bytes, that a layout of alignment `align` may have. */
  function MaxSizeForAlign(align: nat): nat
    requires 1 <= align <= ISIZE_MAX
  {
    ISIZE_MAX - (align - 1)
  }
}
