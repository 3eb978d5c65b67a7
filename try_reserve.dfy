/**
 * The reservation contract (src/try_reserve.rs).
 *
 * `TryReserve` is a trait with one `&mut self` operation. A container that
 * implements it exposes `TryReserve(additional)` as a method whose
 * postcondition includes `ReserveHonoured`: the elements are not touched, and
 * on success there is room for `additional` more of them.
 *
 * `TryReserveErrorExtension` adds two conversions to the standard library's
 * error; both are total functions here.
 */
module ReservationContract {
  import opened StdCollections
  import opened Wrappers
  import ErrorModel

  /**
   * What every implementation of `try_reserve` promises about one call that
   * started with elements `before` and left elements `after` and capacity
   * `capacityAfter`.
   */
  ghost predicate ReserveHonoured<T>(before: seq<T>, after: seq<T>, capacityAfter: nat, additional: nat,
                                     r: Result<(), ErrorModel.TryReserveError>): (honoured: bool)
    ensures honoured ==> |after| == |before|
  {
    && after == before
    && (r.Ok? ==> capacityAfter >= |before| + additional)
  }

  /** `to_crate_error`: the crate's error for a standard error, which converts back to it. */
  function ToCrateError(se: NativeTryReserveError): (e: ErrorModel.TryReserveError)
    ensures e == ErrorModel.FromStdError(se)
    ensures ErrorModel.ToStdError(e) == se
  {
    ErrorModel.FromStdError(se)
  }

  /**
   * `kind`: the kind of the converted error; it is the crate kind from
   * which the standard error is built.
   */
  function Kind(se: NativeTryReserveError): (k: ErrorModel.TryReserveErrorKind)
    ensures k == ErrorModel.Kind(ToCrateError(se))
    ensures ErrorModel.StdErrorFromKind(k) == se
  {
    ErrorModel.Kind(ErrorModel.FromStdError(se))
  }

  /** A standard error built from crate kind `k` reports `k` back. */
  lemma KindOfStdErrorFromKind(k: ErrorModel.TryReserveErrorKind)
    ensures Kind(ErrorModel.StdErrorFromKind(k)) == k
  {
  }
}
