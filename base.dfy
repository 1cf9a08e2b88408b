/** Values and failures shared by the rigging model: Python's optional
    arguments, the exceptions the rigging helpers can raise, and the outcome
    of an operation that either returns normally or raises. */
module Base {

  datatype Option<+T> = None | Some(value: T)

  /** The Python exceptions that the modelled operations can raise. */
  datatype PyError =
    | AttributeError     // a method that the value's type does not have
    | TypeError          // a call on a value that is not callable, or a rejected argument
    | KeyError           // a lookup of a missing name
    | IndexError         // a subscript past the end of a list
    | ZeroDivisionError  // an average over no items

  /** How an operation that returns nothing of interest ended. */
  datatype Outcome = Done | Raised(error: PyError)

  /** How an operation that returns a value ended. */
  datatype Result<+T> = Ok(value: T) | Err(error: PyError)
}
