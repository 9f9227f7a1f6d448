/**
 * The error values that cross the boundary between the tunnel and the
 * connection manager. The `errors` module of the application (and its
 * `fromErrorCode` table) is not part of this model: its translation is
 * passed in as a total function wherever it is used.
 */
module Errors {
  import opened Wrappers

  /**
   * What a rejected tunnel call throws: an object that may carry a numeric
   * `errorCode` (absent when the value is not a plugin error), and otherwise
   * opaque content, kept here as `cause` so that "unchanged" is observable.
   */
  datatype TunnelFailure = TunnelFailure(errorCode: Option<int>, cause: string)

  /** The settled result of `tunnel.start` or `tunnel.stop`. */
  type TunnelResult = Outcome<TunnelFailure>

  /**
   * The application's native error classes. `RegularNativeError` is the
   * generic one; the other classes are told apart by name only.
   */
  datatype NativeError = RegularNativeError | OtherNativeError(className: string)

  /** A value thrown by the connection manager. */
  datatype Thrown =
    | Rethrown(failure: TunnelFailure)   // the tunnel's own failure, passed on as is
    | Raised(error: NativeError)          // a native error built by the manager

  /**
   * JavaScript truthiness of the `errorCode` property: present and non-zero.
   * (`undefined` and `0`, the "no error" code, are falsy.)
   */
  predicate HasTruthyCode(f: TunnelFailure) {
    f.errorCode.Some? && f.errorCode.value != 0
  }
}
