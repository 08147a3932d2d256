/** Shared values of the robot script: optional values, the Python exceptions
    the script can raise, and the status-light colours it uses. */
module Base {

  datatype Option<T> = None | Some(value: T)

  /** The exceptions the modelled code can raise. */
  datatype PyError =
    // a local name read before it is assigned: pybricks runs MicroPython,
    // which raises NameError("local variable referenced before assignment");
    // CPython raises its subclass UnboundLocalError. Either ends the script.
    | NameError(name: string)
    | ValueError                       // list.index of a value that is not in the list

  /** The outcome of a Python computation: a value, or the exception it raised. */
  datatype Outcome<T> = Ok(value: T) | Raised(error: PyError)

  /** The hub light colours the core selects between. */
  datatype Color = Green | Yellow | Red
}
