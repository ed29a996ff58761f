/** Option and Result values, used for nullable fields and for outcomes of calls
    into services outside the model (the auth service, the HTTP client). */
module Wrappers {

  datatype Option<+T> = None | Some(value: T)

  datatype Result<+R, +E> = Success(value: R) | Failure(error: E)
}
