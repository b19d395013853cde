/** Result type: the model's stand-in for a PHP call that
    either returns a value or throws. */
module Wrappers {

  datatype Result<+T, +E> = Success(value: T) | Failure(error: E)
}
