/** Option and Result values for the places where the C# code returns null
    or throws instead of answering. */
module Wrappers {

  datatype Option<+T> = None | Some(value: T)

  datatype Result<+T, +E> = Ok(value: T) | Fault(error: E)
}
