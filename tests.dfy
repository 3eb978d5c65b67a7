/**
 * The concrete implementations of the reservation contract in
 * tests/tests.rs, and what its tests assert, as methods and lemmas.
 *
 * `i32` elements are modelled as `int` with size 4 and alignment 4, `u8`
 * elements with size 1 and alignment 1. Each scenario takes the allocator
 * as a parameter and says which request it must grant for the test's
 * success assertion to hold.
 */
module Tests {
  import opened CoreAlloc
  import opened StdCollections
  import opened Wrappers
  import opened ErrorModel
  import opened StdVec
  import ReservationContract

  /** `MyCollection<T>`: a `Vec` that reports the crate's error. */
  class MyCollection<T> {
    const data: Vec<T>

    ghost predicate Valid()
      reads this, data
    {
      data.Valid()
    }

    /** `MyCollection::new`: an empty `Vec`. */
    constructor (elemSize: nat, elemAlign: nat, allocator: Layout -> bool)
      requires 1 <= elemAlign <= ISIZE_MAX
      ensures Valid() && fresh(data)
      ensures data.elements == [] && data.capacity == if elemSize == 0 then USIZE_MAX else 0
      ensures data.elemSize == elemSize && data.elemAlign == elemAlign && data.allocator == allocator
    {
      data := new Vec.New(elemSize, elemAlign, allocator);
    }

    /** `TryReserve for MyCollection`: the `Vec`'s outcome, its error converted with `From`. */
    method TryReserve(additional: nat) returns (r: Result<(), TryReserveError>)
      requires Valid()
      requires additional <= USIZE_MAX
      modifies data
      ensures Valid()
      ensures ReservationContract.ReserveHonoured(old(data.elements), data.elements, data.capacity, additional, r)
      ensures r == MapErr(DropValue(Grow(|data.elements|, old(data.capacity), additional,
                                         data.elemSize, data.elemAlign, data.allocator)), FromStdError)
      ensures data.capacity == match Grow(|data.elements|, old(data.capacity), additional,
                                          data.elemSize, data.elemAlign, data.allocator)
                               case Ok(c) => c
                               case Err(_) => old(data.capacity)
      ensures additional == 0 ==> r == Ok(())
    {
      var s := data.TryReserve(additional);
      r := MapErr(s, FromStdError);
    }
  }

  /** `FixedSizeCollection<T>`: a `Vec` that refuses to be reserved past `maxCapacity`. */
  class FixedSizeCollection<T> {
    const data: Vec<T>
    const maxCapacity: nat

    ghost predicate Valid()
      reads this, data
    {
      && data.Valid()
      && |data.elements| <= maxCapacity <= USIZE_MAX
    }

    /** `FixedSizeCollection::new(max_capacity)`: an empty `Vec` and the given bound. */
    constructor (maxCapacity: nat, elemSize: nat, elemAlign: nat, allocator: Layout -> bool)
      requires maxCapacity <= USIZE_MAX
      requires 1 <= elemAlign <= ISIZE_MAX
      ensures Valid() && fresh(data)
      ensures this.maxCapacity == maxCapacity
      ensures data.elements == [] && data.capacity == if elemSize == 0 then USIZE_MAX else 0
      ensures data.elemSize == elemSize && data.elemAlign == elemAlign && data.allocator == allocator
    {
      data := new Vec.New(elemSize, elemAlign, allocator);
      this.maxCapacity := maxCapacity;
    }

    /**
     * `TryReserve for FixedSizeCollection`: a capacity overflow, with the
     * `Vec` untouched, when the length plus `additional` exceeds the bound;
     * otherwise the `Vec`'s outcome, its error converted with `From`, and the
     * capacity the `Vec` is left with.
     */
    method TryReserve(additional: nat) returns (r: Result<(), TryReserveError>)
      requires Valid()
      requires additional <= USIZE_MAX
      modifies data
      ensures Valid()
      ensures ReservationContract.ReserveHonoured(old(data.elements), data.elements, data.capacity, additional, r)
      ensures |data.elements| + additional > maxCapacity ==>
        r == Err(FromKind(CapacityOverflow)) && data.capacity == old(data.capacity)
      ensures |data.elements| + additional <= maxCapacity ==>
        && r == MapErr(DropValue(Grow(|data.elements|, old(data.capacity), additional,
                                      data.elemSize, data.elemAlign, data.allocator)), FromStdError)
        && data.capacity == match Grow(|data.elements|, old(data.capacity), additional,
                                       data.elemSize, data.elemAlign, data.allocator)
                            case Ok(c) => c
                            case Err(_) => old(data.capacity)
      ensures additional == 0 ==> r == Ok(())
    {
      var newCapacity := |data.elements| + additional;
      if newCapacity > maxCapacity {
        r := Err(FromKind(CapacityOverflow));
      } else {
        var s := data.TryReserve(additional);
        r := MapErr(s, FromStdError);
      }
    }
  }

  /**
   * `test_vec_impl`: an empty `Vec<i32>` reserves 10 exactly when the
   * allocator grants 40 bytes, and then fails to reserve `usize::MAX` with a
   * capacity overflow.
   */
  method TestVecImpl(allocator: Layout -> bool)
    returns (first: Result<(), NativeTryReserveError>, second: Result<(), NativeTryReserveError>)
    ensures first.Ok? <==> allocator(Layout(40, 4))
    ensures second.Err? && Kind(FromStdError(second.error)) == CapacityOverflow
  {
    var v := new Vec<int>.New(4, 4, allocator);
    first := v.TryReserve(10);
    second := v.TryReserve(USIZE_MAX);
  }

  /**
   * `test_std_error_conversion`: reserving `usize::MAX` on an empty
   * `Vec<i32>` fails; the converted error is a capacity overflow and
   * converts back to the standard error it came from.
   */
  method TestStdErrorConversion(allocator: Layout -> bool)
    returns (stdResult: Result<(), NativeTryReserveError>, ours: TryReserveError, back: NativeTryReserveError)
    ensures stdResult.Err?
    ensures Kind(ours) == CapacityOverflow
    ensures back == stdResult.error
  {
    var v := new Vec<int>.New(4, 4, allocator);
    stdResult := v.TryReserve(USIZE_MAX);
    ours := FromStdError(stdResult.error);
    back := ToStdError(ours);
  }

  /**
   * `test_custom_collection`: a `MyCollection<i32>` reserves 10 exactly when
   * the allocator grants 40 bytes, and reserving `usize::MAX` after that is
   * a capacity overflow.
   */
  method TestCustomCollection(allocator: Layout -> bool)
    returns (first: Result<(), TryReserveError>, second: Result<(), TryReserveError>)
    ensures first.Ok? <==> allocator(Layout(40, 4))
    ensures second.Err? && Kind(second.error) == CapacityOverflow
  {
    var c := new MyCollection<int>(4, 4, allocator);
    first := c.TryReserve(10);
    second := c.TryReserve(USIZE_MAX);
  }

  /**
   * `test_fixed_size_collection`: from `new(50)`, reserving 50 succeeds
   * exactly when the allocator grants 200 bytes, and reserving 51 is always
   * a capacity overflow.
   */
  method TestFixedSizeCollection(allocator: Layout -> bool)
    returns (first: Result<(), TryReserveError>, second: Result<(), TryReserveError>)
    ensures first.Ok? <==> allocator(Layout(200, 4))
    ensures second == Err(FromKind(CapacityOverflow))
  {
    var c := new FixedSizeCollection<int>(50, 4, 4, allocator);
    first := c.TryReserve(50);
    second := c.TryReserve(51);
  }

  /**
   * `test_zero_reservation`: reserving 0 on an empty `Vec<i32>` succeeds
   * whatever the allocator does; so does reserving 0 on a fresh
   * `FixedSizeCollection` of any bound.
   */
  method TestZeroReservation(allocator: Layout -> bool, maxCapacity: nat)
    returns (onVec: Result<(), NativeTryReserveError>, onFixed: Result<(), TryReserveError>)
    requires maxCapacity <= USIZE_MAX
    ensures onVec == Ok(())
    ensures onFixed == Ok(())
  {
    var v := new Vec<int>.New(4, 4, allocator);
    onVec := v.TryReserve(0);
    var c := new FixedSizeCollection<int>(maxCapacity, 4, 4, allocator);
    onFixed := c.TryReserve(0);
  }

  /**
   * `test_with_preexisting_capacity`: a `Vec<i32>` made with capacity 100
   * reserves 50 without the allocator, takes the pushes of 0 to 99 without
   * growing, and then reserves 1 more exactly when the allocator grants 800
   * bytes (the doubled capacity of 200); the pushed integers are all there, in order.
   */
  method TestWithPreexistingCapacity(allocator: Layout -> bool)
    returns (first: Result<(), NativeTryReserveError>, second: Result<(), NativeTryReserveError>,
             elements: seq<int>)
    ensures first == Ok(())
    ensures second.Ok? <==> allocator(Layout(800, 4))
    ensures |elements| == 100 && forall j :: 0 <= j < 100 ==> elements[j] == j
  {
    var v := new Vec<int>.WithCapacity(100, 4, 4, allocator);
    first := v.TryReserve(50);
    for i := 0 to 100
      invariant v.Valid() && v.elemSize == 4 && v.elemAlign == 4 && v.allocator == allocator
      invariant v.capacity == 100 && |v.elements| == i
      invariant forall j :: 0 <= j < i ==> v.elements[j] == j
    {
      v.Push(i);
    }
    second := v.TryReserve(1);
    elements := v.elements;
  }

  /**
   * `test_near_capacity_limit`: reserving a billion bytes on an empty
   * `Vec<u8>` is never a capacity overflow; it succeeds exactly when the
   * allocator grants the request, and otherwise reports that layout. On
   * success one byte is pushed.
   */
  method TestNearCapacityLimit(allocator: Layout -> bool)
    returns (r: Result<(), NativeTryReserveError>, elements: seq<int>)
    ensures r.Ok? <==> allocator(Layout(1_000_000_000, 1))
    ensures r.Err? ==> Kind(FromStdError(r.error)) == AllocError(Layout(1_000_000_000, 1), ())
    ensures elements == if r.Ok? then [1] else []
  {
    // usize::MAX exceeds a billion on a 64-bit target, so the test picks a billion.
    var largeCapacity := 1_000_000_000;
    var v := new Vec<int>.New(1, 1, allocator);
    r := v.TryReserve(largeCapacity);
    if r.Ok? && largeCapacity > 0 {
      v.Push(1);
    }
    elements := v.elements;
  }

  /**
   * The bound of a `FixedSizeCollection` does not rule out a capacity
   * overflow: `new(usize::MAX)` over `i32` passes a reservation of 2^62 on
   * to the `Vec`, whose layout for it is too large.
   */
  method FixedSizeDelegatedOverflow(allocator: Layout -> bool) returns (r: Result<(), TryReserveError>)
    ensures r == Err(FromKind(CapacityOverflow))
  {
    var c := new FixedSizeCollection<int>(USIZE_MAX, 4, 4, allocator);
    r := c.TryReserve(0x4000_0000_0000_0000);
  }

  /** `test_error_kind_conversion`: a wrapped capacity overflow reports that kind. */
  lemma TestErrorKindConversion()
    ensures Kind(FromKind(CapacityOverflow)) == CapacityOverflow
  {
  }

  /** `test_layout_error_conversion`: a layout failure is a capacity overflow, as a kind and wrapped. */
  lemma TestLayoutErrorConversion(le: LayoutError)
    ensures KindFromLayoutError(le) == CapacityOverflow
    ensures Kind(FromKind(KindFromLayoutError(le))) == CapacityOverflow
  {
  }

  /** `test_error_display`: the two messages, word for word. */
  lemma TestErrorDisplay()
    ensures Display(FromKind(CapacityOverflow))
         == "memory allocation failed because the computed capacity exceeded the collection's maximum"
    ensures Display(FromKind(AllocError(Layout(16, 8), ())))
         == "memory allocation failed because the memory allocator returned an error"
  {
    DisplayMessages(Layout(16, 8));
  }
}
