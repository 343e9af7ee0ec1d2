/** Failure-compatible wrappers and the fault taxonomy of the sync pipeline.

    Every exception the pipeline can raise is a `Fault`; a Python call that
    either returns or raises becomes a function returning `Result<T, Fault>`.
 */
module Base {

  /** Seconds on a UTC clock. */
  type Timestamp = int

  datatype Option<+T> = None | Some(value: T)

  datatype Result<+T, +E> = Ok(value: T) | Err(error: E) {

    predicate IsFailure() {
      Err?
    }

    function PropagateFailure<U>(): Result<U, E>
      requires Err?
    {
      Err(error)
    }

    function Extract(): T
      requires Ok?
    {
      value
    }
  }

  /** What a step of the pipeline can raise. */
  datatype Fault =
    | KeyMissing(key: string)            // KeyError on `payload[key]`
    | TypeMismatch(key: string)          // a value of the wrong JSON type for its use or column
    | BadTimestamp(key: string)          // ValueError from the ISO-8601 parser
    | NotAnObject                        // `.get` on an envelope that is not a JSON object
    | UnknownSubjectType(value: string)  // a subject type outside the enumeration
    | HttpStatus(status: int, url: string)  // `raise_for_status` on a non-2xx reply
    | NoResponse(url: string)            // the request got no reply at all
    | UnboundName(name: string)          // UnboundLocalError raised inside an exception handler

  /** The text `str(e)` stores in a SyncLog's error message. Only the
      KeyError rendering is the interpreter's own; the others are labels. */
  function Describe(f: Fault): string {
    match f
    case KeyMissing(k) => "'" + k + "'"
    case TypeMismatch(k) => "wrong type for " + k
    case BadTimestamp(k) => "invalid isoformat string in " + k
    case NotAnObject => "record is not an object"
    case UnknownSubjectType(v) => "unknown subject type " + v
    case HttpStatus(_, url) => "request failed for url " + url
    case NoResponse(url) => "no response from " + url
    case UnboundName(name) => "local variable '" + name + "' referenced before assignment"
  }
}
