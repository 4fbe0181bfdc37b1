/** Option and Result, used wherever the Python code returns None or raises. */
module Wrappers {

  datatype Option<+T> = None | Some(value: T)

  /** The outcome of an operation that may raise; `Err` carries the exception kind. */
  datatype Result<+T, +E> = Ok(value: T) | Err(error: E)

  /** The Python exceptions the core raises or lets escape. */
  datatype PyError =
    | IndexError      // a list index or a split token that does not exist
    | KeyError        // a dictionary key that was never stored
    | ValueError      // a date or integer string that does not parse
    | StopIteration   // next(iter(d)) on an empty dictionary
    | TypeError       // a wrong element type
    | UnboundLocal    // a local variable read before any branch assigned it
    | IOError         // an explicit `raise IOError(...)`
    | InvalidOption   // an explicit `raise Exception(...)` on a bad option
    | WarningRaised   // an explicit `raise Warning(...)`
}
