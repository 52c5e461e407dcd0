/** Option and Result for the model, with the Python exception kinds the
    modelled code can raise as the failure value of Result. */
module Wrappers {

  datatype Option<+T> = None | Some(value: T)

  /** The exception a modelled Python statement raises. */
  datatype Error =
    | KeyError(key: string)          // `d[k]` with the string key k missing
    | KeyErrorNonString              // `d[k]` with k an int, a bool or None, which equals no string key
    | TypeError                      // subscripting a non-dict, an unhashable key, a bad operand or call
    | IndexError                     // `xs[i]` with the integer i out of range
    | AttributeError                 // `x.name` or `getattr(x, name)` where x has no such attribute
    | ValueError                     // `range(0, n, 0)`
    | NotImplementedError            // an explicitly unimplemented method
    | UnboundLocalError(name: string)

  /** The result of a statement sequence that may raise. Works with `:-`. */
  datatype Result<+T> = Ok(value: T) | Err(error: Error) {
    predicate IsFailure() {
      Err?
    }

    function PropagateFailure<U>(): Result<U>
      requires Err?
    {
      Err(error)
    }

    function Extract(): T
      requires Ok?
    {
      value
    }
  }
}
