/** Option and Result values for lookups that can miss and steps that can raise. */
module Wrappers {

  datatype Option<+T> = None | Some(value: T)

  /** The outcome of a step that either produces a value or raises an error. */
  datatype Result<+T, +E> = Ok(value: T) | Err(error: E)

  /** The Python exceptions the modelled code can raise. */
  datatype Error =
    | IndexError   // a list index past the end, such as `split(sep)[1]` of text without `sep`
    | ValueError   // `float()` rejected its argument
    | AttributeError  // an attribute read before anything assigned it
}
