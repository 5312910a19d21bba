/** Python exceptions and optional values, as plain datatypes.

    The service signals every failure by raising an exception whose class
    decides how the HTTP layer answers and whose `str(e)` becomes the
    client-facing detail. Here an exception is a value `Exc(kind, message)`
    and a call that may raise returns a `Result`.
 */
module Errors {

  /** The exception classes the service raises, catches or distinguishes. */
  datatype ExcKind =
    | AsrError            // utils/asr_utils.py ASRError
    | TtsError            // utils/tts_utils.py TTSError
    | ChatError           // utils/chat_utils.py ChatError
    | RuntimeError
    | ValidationError     // a request body rejected by its schema
    | ValueError
    | AttributeError
    | UnboundLocalError
    | OtherError(className: string)

  /** A raised exception; `message` is what `str(e)` yields. */
  datatype Exc = Exc(kind: ExcKind, message: string)

  datatype Option<+T> = None | Some(value: T) {
    function GetOr(default: T): T {
      match this
      case Some(v) => v
      case None => default
    }
  }

  /** The outcome of a call that returns a value or raises. */
  datatype Result<+T> = Ok(value: T) | Raise(exc: Exc)

  /** The outcome of a call that returns nothing or raises. */
  datatype Outcome = Pass | Fail(exc: Exc)

  /** The `except Exception as e: if isinstance(e, K): raise; raise K(prefix + str(e))`
      idiom shared by the three adapters: an exception of class `kind` passes
      through untouched, any other one is replaced by a `kind` exception whose
      message is `prefix` followed by the original message. */
  function WrapAs(kind: ExcKind, prefix: string, e: Exc): (r: Exc)
    ensures r.kind == kind
    ensures e.kind == kind ==> r == e
    ensures e.kind != kind ==> r.message == prefix + e.message
  {
    if e.kind == kind then e else Exc(kind, prefix + e.message)
  }

  /** Wrapping is idempotent: catching and re-wrapping a wrapped exception
      changes nothing, which is why nested adapters never double a prefix. */
  lemma WrapAsIdempotent(kind: ExcKind, prefix: string, e: Exc)
    ensures WrapAs(kind, prefix, WrapAs(kind, prefix, e)) == WrapAs(kind, prefix, e)
  {
  }
}
