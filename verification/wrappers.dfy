/** Option and Result, the two failure-carrying shapes the gateway's Go code
    expresses with nil pointers and (value, error) pairs. */
module Wrappers {

  datatype Option<+T> = None | Some(value: T)

  datatype Result<+R, +E> = Success(value: R) | Failure(error: E)
}
