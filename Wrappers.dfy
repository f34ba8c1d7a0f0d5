/** Option and Result values, and the kinds of Python exception the modelled code raises. */
module Wrappers {

  datatype Option<+T> = None | Some(value: T)

  /** The outcome of a Python call that either returns a value or raises. */
  datatype Result<+T> = Ok(value: T) | Err(error: Exc)

  /** Python exception classes, by name; messages are not modelled. The last variant is no
      exception: it stands for a call that never returns. */
  datatype Exc =
    | ValueError
    | IndexError
    | TypeError
    | KeyError
    | FileNotFoundError
    | RuntimeError
    | StructError
    /** `bytes.decode("utf-8")` given bytes that are not well-formed UTF-8. */
    | UnicodeDecodeError
    | ZeroDivisionError
    | ConnectionError
    | AttributeError
    /** `exit(0)` called by the program itself. */
    | SystemExit
    /** `queue.Empty`, raised by a `get` that finds nothing to return. */
    | QueueEmpty
    /** The call never returns: a loop whose guard stays true forever. */
    | NeverReturns
}
