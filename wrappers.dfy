/** Failure-carrying results for the exceptions raised by the grid layer. */
module Wrappers {

  /** The exception classes raised by `pde/grids/base.py`. */
  datatype Error =
    | ValueError                    // invalid shape entry or empty shape
    | UnknownOperator(name: string) // the ValueError of `_get_operator_info`, naming the operator
    | DomainError                   // a point lies outside the grid
    | DimensionError                // a point has the wrong number of coordinates
    | IndexError                    // an unknown axis name or an unusable axis key
    | KeyError                      // `del` of a name that a table does not hold
    | ZeroDivisionError             // a Python float divided by zero
    | NotImplementedError           // a specialisation that exists only for one to three axes

  datatype Result<+T> = Ok(value: T) | Err(error: Error)

  datatype Option<+T> = None | Some(value: T)

  /** The outcome of an operation that returns nothing but may raise. */
  datatype Outcome = Pass | Fail(error: Error)
}
