/**
 * The crate's stable error model (src/error.rs): `TryReserveError` wraps
 * exactly one `TryReserveErrorKind`; it is built from a kind, from a
 * `LayoutError`, or from the standard library's error, converts back to the
 * standard library's error, and renders a fixed message.
 *
 * The source converts between the crate's error and the standard library's
 * by reinterpreting memory. Here that conversion is an explicit mapping of
 * variant to variant and field to field, which is what the reinterpretation
 * amounts to when the two layouts are identical.
 */
module ErrorModel {
  import opened CoreAlloc
  import opened StdCollections
  import opened Wrappers

  datatype TryReserveErrorKind =
    | CapacityOverflow
    | AllocError(layout: Layout, nonExhaustive: ())

  datatype TryReserveError = TryReserveError(kind: TryReserveErrorKind)

  const Prefix := "memory allocation failed"
  const CapacityOverflowReason := " because the computed capacity exceeded the collection's maximum"
  const AllocErrorReason := " because the memory allocator returned an error"

  /** `TryReserveError::kind`: the one kind the error carries. */
  function Kind(e: TryReserveError): (k: TryReserveErrorKind)
    ensures TryReserveError(k) == e
  {
    e.kind
  }

  /** `From<TryReserveErrorKind> for TryReserveError`: wraps the kind as it is. */
  function FromKind(k: TryReserveErrorKind): (e: TryReserveError)
    ensures Kind(e) == k
  {
    TryReserveError(k)
  }

  /** `From<LayoutError> for TryReserveErrorKind`: every layout failure is a capacity overflow. */
  function KindFromLayoutError(le: LayoutError): (k: TryReserveErrorKind)
    ensures k == CapacityOverflow
  {
    CapacityOverflow
  }

  /**
   * `From<LayoutError> for TryReserveError`: a capacity overflow too, and the
   * same error as converting to a kind first and wrapping that.
   */
  function FromLayoutError(le: LayoutError): (e: TryReserveError)
    ensures Kind(e) == CapacityOverflow
    ensures e == FromKind(KindFromLayoutError(le))
  {
    TryReserveError(CapacityOverflow)
  }

  /**
   * `From<TryReserveError> for std::collections::TryReserveError`: the
   * variant is kept, and so is the layout of an allocator failure.
   */
  function ToStdError(e: TryReserveError): (se: NativeTryReserveError)
    ensures se.kind.NativeCapacityOverflow? <==> Kind(e).CapacityOverflow?
    ensures se.kind.NativeAllocError? <==> Kind(e).AllocError?
    ensures se.kind.NativeAllocError? ==> se.kind.layout == Kind(e).layout
  {
    match e.kind
    case CapacityOverflow => NativeTryReserveError(NativeCapacityOverflow)
    case AllocError(layout, ne) => NativeTryReserveError(NativeAllocError(layout, ne))
  }

  /**
   * `From<std::collections::TryReserveError> for TryReserveError`: converting
   * back to the standard library's error gives the error one started from.
   */
  function FromStdError(se: NativeTryReserveError): (e: TryReserveError)
    ensures ToStdError(e) == se
  {
    match se.kind
    case NativeCapacityOverflow => TryReserveError(CapacityOverflow)
    case NativeAllocError(layout, ne) => TryReserveError(AllocError(layout, ne))
  }

  /**
   * `From<TryReserveErrorKind> for std::collections::TryReserveError`: wraps
   * the kind, then converts; reading it back gives the wrapped kind.
   */
  function StdErrorFromKind(k: TryReserveErrorKind): (se: NativeTryReserveError)
    ensures FromStdError(se) == FromKind(k)
  {
    ToStdError(TryReserveError(k))
  }

  /** `TryReserveError::from_std`: the same conversion as `From`. */
  function FromStd(se: NativeTryReserveError): (e: TryReserveError)
    ensures e == FromStdError(se)
    ensures ToStdError(e) == se
  {
    FromStdError(se)
  }

  /**
   * `TryReserveError::from_std_result`: a success passes through untouched, an
   * error is converted with `FromStd`.
   */
  function FromStdResult<T>(r: Result<T, NativeTryReserveError>): (res: Result<T, TryReserveError>)
    ensures res.Ok? <==> r.Ok?
    ensures r.Ok? ==> res.value == r.value
    ensures r.Err? ==> res.error == FromStd(r.error)
  {
    MapErr(r, FromStd)
  }

  /**
   * `Display for TryReserveError`: the fixed prefix, then exactly one reason,
   * chosen by the kind alone.
   */
  function Display(e: TryReserveError): (s: string)
    ensures |Prefix| <= |s| && s[..|Prefix|] == Prefix
    ensures s[|Prefix|..] == CapacityOverflowReason <==> Kind(e).CapacityOverflow?
    ensures s[|Prefix|..] == AllocErrorReason <==> Kind(e).AllocError?
  {
    var reason := match e.kind
      case CapacityOverflow => CapacityOverflowReason
      case AllocError(_, _) => AllocErrorReason;
    Prefix + reason
  }

  /** The derived equality: two errors are equal exactly when their kinds are. */
  lemma EqualErrorsHaveEqualKinds(a: TryReserveError, b: TryReserveError)
    ensures a == b <==> Kind(a) == Kind(b)
  {
  }

  /** The crate error survives a trip through the standard library's error. */
  lemma CrateRoundTrip(e: TryReserveError)
    ensures FromStdError(ToStdError(e)) == e
  {
  }

  /** Converting a kind straight to the standard error equals wrapping it first. */
  lemma StdErrorFromKindWrapsFirst(k: TryReserveErrorKind)
    ensures StdErrorFromKind(k) == ToStdError(FromKind(k))
  {
  }

  /** The allocator-failure message does not depend on the layout. */
  lemma DisplayIgnoresLayout(l1: Layout, l2: Layout)
    ensures Display(FromKind(AllocError(l1, ()))) == Display(FromKind(AllocError(l2, ())))
  {
  }

  /** The two kinds are told apart by their messages. */
  lemma DisplayDistinguishesKinds(l: Layout)
    ensures Display(FromKind(CapacityOverflow)) != Display(FromKind(AllocError(l, ())))
  {
  }

  /** The two messages in full; the layout of an allocator failure plays no part. */
  lemma DisplayMessages(l: Layout)
    ensures Display(FromKind(CapacityOverflow))
         == "memory allocation failed because the computed capacity exceeded the collection's maximum"
    ensures Display(FromKind(AllocError(l, ())))
         == "memory allocation failed because the memory allocator returned an error"
  {
    OverflowMessage();
    AllocMessage();
  }

  // The solver does not compare long string literals in one step. The
  // lemmas below glue each message together a few words at a time, each
  // step in a proof of its own.

  lemma OverflowMessage()
    ensures Prefix + CapacityOverflowReason
         == "memory allocation failed because the computed capacity exceeded the collection's maximum"
  {
    OverflowReasonSplit();
    OverflowReasonHeadSplit();
    OverflowWords1();
    OverflowWords2();
    OverflowWords3();
    Associate(Prefix, " because the computed", " capacity exceeded the", " collection's maximum");
  }

  lemma OverflowReasonSplit()
    ensures CapacityOverflowReason == " because the computed capacity exceeded the" + " collection's maximum"
  {
  }

  lemma OverflowReasonHeadSplit()
    ensures " because the computed capacity exceeded the" == " because the computed" + " capacity exceeded the"
  {
  }

  lemma OverflowWords1()
    ensures Prefix + " because the computed" == "memory allocation failed because the computed"
  {
  }

  lemma OverflowWords2()
    ensures "memory allocation failed because the computed" + " capacity exceeded the"
         == "memory allocation failed because the computed capacity exceeded the"
  {
  }

  lemma OverflowWords3()
    ensures "memory allocation failed because the computed capacity exceeded the" + " collection's maximum"
         == "memory allocation failed because the computed capacity exceeded the collection's maximum"
  {
  }

  lemma AllocMessage()
    ensures Prefix + AllocErrorReason
         == "memory allocation failed because the memory allocator returned an error"
  {
    AllocReasonSplit();
    AllocWords1();
    AllocWords2();
    assert Prefix + (" because the memory" + " allocator returned an error")
        == Prefix + " because the memory" + " allocator returned an error";
  }

  lemma AllocReasonSplit()
    ensures AllocErrorReason == " because the memory" + " allocator returned an error"
  {
  }

  lemma AllocWords1()
    ensures Prefix + " because the memory" == "memory allocation failed because the memory"
  {
  }

  lemma AllocWords2()
    ensures "memory allocation failed because the memory" + " allocator returned an error"
         == "memory allocation failed because the memory allocator returned an error"
  {
  }

  lemma Associate<T>(a: seq<T>, b: seq<T>, c: seq<T>, d: seq<T>)
    ensures a + (b + c + d) == a + b + c + d
  {
  }
}
