/** Optional values and results that carry either a value or an error code. */
module Wrappers {

  datatype Option<+T> = None | Some(value: T)

  datatype Result<+T, +E> = Ok(value: T) | Err(error: E) {
    function ToOption(): Option<T> {
      match this
      case Ok(value) => Some(value)
      case Err(_) => None
    }
  }
}
