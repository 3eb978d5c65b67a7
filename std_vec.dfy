/**
 * The standard library's `Vec<T>` as the custom collections of
 * tests/tests.rs use it: a sequence of elements, a capacity, the size and
 * alignment of `T`, and the allocator it grows through.
 *
 * The allocator is an oracle: `allocator(layout)` says whether a request
 * for `layout` is satisfied. A zero-sized `T` has capacity `usize::MAX`
 * from the start, as in the standard library.
 */
module StdVec {
  import opened CoreAlloc
  import opened StdCollections
  import opened Wrappers

  /**
   * The smallest non-zero capacity the standard library allocates: 8 for
   * one-byte elements, 4 for elements of at most 1024 bytes, 1 otherwise.
   */
  function MinNonZeroCapacity(elemSize: nat): nat
  {
    if elemSize == 1 then 8 else if elemSize <= 1024 then 4 else 1
  }

  /**
   * The capacity a growing `Vec` asks for: twice the old capacity, the
   * required length, or the smallest non-zero capacity, whichever is largest.
   */
  function AmortizedCapacity(required: nat, cap: nat, elemSize: nat): (c: nat)
    ensures c >= required && c >= 2 * cap && c >= MinNonZeroCapacity(elemSize)
    ensures c == required || c == 2 * cap || c == MinNonZeroCapacity(elemSize)
  {
    var doubled := if 2 * cap > required then 2 * cap else required;
    if MinNonZeroCapacity(elemSize) > doubled then MinNonZeroCapacity(elemSize) else doubled
  }

  /**
   * The outcome of `Vec::try_reserve(additional)` on a vector of length
   * `len` and capacity `cap`: the new capacity, or the standard error.
   * A request that already fits changes nothing. Otherwise the vector asks
   * for the amortized capacity. A length that does not fit in `usize`, a
   * zero-sized element, or an amortized capacity whose bytes are too many
   * for a layout is a capacity overflow; otherwise the allocator decides.
   */
  function Grow(len: nat, cap: nat, additional: nat, elemSize: nat, elemAlign: nat,
                allocator: Layout -> bool): (r: Result<nat, NativeTryReserveError>)
    requires 1 <= elemAlign <= ISIZE_MAX
    ensures r.Ok? ==> r.value >= len + additional && r.value >= cap
    ensures len + additional <= cap ==> r == Ok(cap)
    ensures r.Ok? && r.value != cap ==>
      && len + additional <= USIZE_MAX
      && r.value == AmortizedCapacity(len + additional, cap, elemSize) <= USIZE_MAX
      && 0 < elemSize
      && r.value * elemSize <= MaxSizeForAlign(elemAlign)
      && allocator(Layout(r.value * elemSize, elemAlign))
    ensures len + additional > cap ==>
      (r == Err(NativeTryReserveError(NativeCapacityOverflow)) <==>
         len + additional > USIZE_MAX || elemSize == 0
         || AmortizedCapacity(len + additional, cap, elemSize) * elemSize > MaxSizeForAlign(elemAlign))
    ensures r.Err? && r.error.kind.NativeAllocError? ==>
      r.error.kind == NativeAllocError(Layout(AmortizedCapacity(len + additional, cap, elemSize) * elemSize,
                                              elemAlign), ())
      && !allocator(r.error.kind.layout)
  {
    var required := len + additional;
    if required <= cap then Ok(cap)
    else if required > USIZE_MAX || elemSize == 0 then Err(NativeTryReserveError(NativeCapacityOverflow))
    else
      var newCap := AmortizedCapacity(required, cap, elemSize);
      if newCap * elemSize > MaxSizeForAlign(elemAlign) then Err(NativeTryReserveError(NativeCapacityOverflow))
      else
        assert newCap <= newCap * elemSize;
        var layout := Layout(newCap * elemSize, elemAlign);
        if allocator(layout) then Ok(newCap)
        else Err(NativeTryReserveError(NativeAllocError(layout, ())))
  }

  /**
   * Doubling can pass the largest layout before the exact request does: a
   * full `Vec<i32>` of 2^60 elements cannot take one more, although 2^60 + 1
   * elements would fit in a layout.
   */
  lemma DoublingOverflowsFirst(allocator: Layout -> bool)
    ensures (0x1000_0000_0000_0000 + 1) * 4 <= MaxSizeForAlign(4)
    ensures Grow(0x1000_0000_0000_0000, 0x1000_0000_0000_0000, 1, 4, 4, allocator)
         == Err(NativeTryReserveError(NativeCapacityOverflow))
  {
  }

  class Vec<T> {
    var elements: seq<T>
    var capacity: nat
    const elemSize: nat
    const elemAlign: nat
    const allocator: Layout -> bool

    ghost predicate Valid()
      reads this
    {
      && |elements| <= capacity <= USIZE_MAX
      && 1 <= elemAlign <= ISIZE_MAX
      && (elemSize == 0 ==> capacity == USIZE_MAX)
      && (elemSize > 0 ==> capacity * elemSize <= MaxSizeForAlign(elemAlign))
    }

    /** `Vec::new`: no elements, and no storage unless `T` is zero-sized. */
    constructor New(elemSize: nat, elemAlign: nat, allocator: Layout -> bool)
      requires 1 <= elemAlign <= ISIZE_MAX
      ensures Valid()
      ensures elements == []
      ensures capacity == if elemSize == 0 then USIZE_MAX else 0
      ensures this.elemSize == elemSize && this.elemAlign == elemAlign && this.allocator == allocator
    {
      elements := [];
      capacity := if elemSize == 0 then USIZE_MAX else 0;
      this.elemSize := elemSize;
      this.elemAlign := elemAlign;
      this.allocator := allocator;
    }

    /**
     * `Vec::with_capacity`: no elements and room for `n`. The standard library
     * panics when `n` elements exceed the largest layout, hence the requires.
     */
    constructor WithCapacity(n: nat, elemSize: nat, elemAlign: nat, allocator: Layout -> bool)
      requires 1 <= elemAlign <= ISIZE_MAX
      requires n <= USIZE_MAX && n * elemSize <= MaxSizeForAlign(elemAlign)
      ensures Valid()
      ensures elements == []
      ensures capacity == if elemSize == 0 then USIZE_MAX else n
      ensures this.elemSize == elemSize && this.elemAlign == elemAlign && this.allocator == allocator
    {
      elements := [];
      capacity := if elemSize == 0 then USIZE_MAX else n;
      this.elemSize := elemSize;
      this.elemAlign := elemAlign;
      this.allocator := allocator;
    }

    /**
     * `Vec::push`: appends `x`, growing the storage to the amortized capacity
     * when it is full. The standard library panics when the length would pass
     * `usize::MAX` or the storage would pass the largest layout.
     */
    method Push(x: T)
      requires Valid()
      requires |elements| < USIZE_MAX
      requires |elements| == capacity && elemSize > 0 ==>
        AmortizedCapacity(|elements| + 1, capacity, elemSize) * elemSize <= MaxSizeForAlign(elemAlign)
      modifies this
      ensures Valid()
      ensures elements == old(elements) + [x]
      ensures capacity == if old(|elements|) < old(capacity) then old(capacity)
                          else AmortizedCapacity(old(|elements|) + 1, old(capacity), elemSize)
    {
      if |elements| == capacity {
        var newCap := AmortizedCapacity(|elements| + 1, capacity, elemSize);
        assert newCap <= newCap * elemSize;
        capacity := newCap;
      }
      elements := elements + [x];
    }

    /**
     * `Vec::try_reserve`: the elements stay as they are; the capacity becomes
     * the one `Grow` computes, or stays as it was on failure.
     */
    method TryReserve(additional: nat) returns (r: Result<(), NativeTryReserveError>)
      requires Valid()
      requires additional <= USIZE_MAX
      modifies this
      ensures Valid()
      ensures elements == old(elements)
      ensures r == DropValue(Grow(|elements|, old(capacity), additional, elemSize, elemAlign, allocator))
      ensures capacity == match Grow(|elements|, old(capacity), additional, elemSize, elemAlign, allocator)
                          case Ok(c) => c
                          case Err(_) => old(capacity)
    {
      var g := Grow(|elements|, capacity, additional, elemSize, elemAlign, allocator);
      match g
      case Ok(c) =>
        capacity := c;
        r := Ok(());
      case Err(e) =>
        r := Err(e);
    }
  }
}
