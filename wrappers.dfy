/** Option and Result, and the Python exceptions the modelled code can raise. */
module Wrappers {

  datatype Option<+T> = None | Some(value: T)

  /** The exceptions raised by the modelled code, by their Python names. */
  datatype Error =
    | KeyError            // lookup of a missing dictionary key
    | AttributeError(name: string)   // call of a method an object does not define
    | ZeroDivisionError   // division by a zero height
    | NotImplementedError // abstract base-class method

  datatype Result<+T> = Success(value: T) | Failure(error: Error)
}
