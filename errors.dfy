/** `RxError`, the error objects the dispatcher rejects with, and their HTTP codes. */
module Errors {
  import opened Wrappers

  /** An `RxError`: message, short kind name, HTTP status and optional extra text. */
  datatype RxError = RxError(message: string, name: Option<string>, httpCode: int, extra: Option<string>)

  /**
   * What a rejected promise carries: an `RxError`, or something else that was
   * thrown (a `TypeError`, or whatever a user handler threw).
   */
  datatype Failure = RxErr(err: RxError) | Thrown(what: string)

  /** `new RxError(message, name, code, extra)`: a missing or zero code becomes 500. */
  function NewRxError(message: string, name: Option<string>, code: Option<int>, extra: Option<string>): (e: RxError)
    ensures e.message == message && e.name == name && e.extra == extra
    ensures e.httpCode != 0
    ensures code.Some? && code.value != 0 ==> e.httpCode == code.value
    ensures code.None? || code.value == 0 ==> e.httpCode == 500
  {
    RxError(message, name, if code.Some? && code.value != 0 then code.value else 500, extra)
  }

  /** `getExtra()`: the extra text, or the empty string when there is none. */
  function GetExtra(e: RxError): (s: string)
    ensures e.extra.Some? ==> s == e.extra.value
    ensures e.extra.None? ==> s == ""
  {
    if e.extra.Some? && e.extra.value != "" then e.extra.value else ""
  }

  /**
   * The status used when a failure is reported: an `RxError`'s own code,
   * 500 for anything else (it has no `getHttpCode`).
   */
  function FailureCode(f: Failure): (code: int)
    ensures f.RxErr? ==> code == f.err.httpCode
    ensures f.Thrown? ==> code == 500
  {
    match f
    case RxErr(e) => e.httpCode
    case Thrown(_) => 500
  }

  /**
   * `internals.promiseError(message, name, code)`: a rejection carrying an
   * `RxError` with the usual code defaulting.
   */
  function PromiseError(message: string, name: string, code: Option<int>): (f: Failure)
    ensures f.RxErr? && f.err.message == message && f.err.name == Some(name)
    ensures f.err.httpCode == (if code.Some? && code.value != 0 then code.value else 500)
  {
    RxErr(NewRxError(message, Some(name), code, None))
  }
}
