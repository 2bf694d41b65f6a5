/** Option and Result, the two failure-carrying shapes the chatbot model needs:
    an order lookup that may find nothing, and a completion call that may fail. */
module Wrappers {

  datatype Option<+T> = None | Some(value: T)

  datatype Result<+R, +E> = Success(value: R) | Failure(error: E)
}
