/** Small value types shared by every module of the model. */
module Common {

  /** Python's `None`-or-value, and the outcome of an operation that may fail. */
  datatype Option<+T> = None | Some(value: T) {
    function GetOr(default: T): T {
      match this
      case Some(v) => v
      case None => default
    }
  }

  /** One octet of a `bytes` object. */
  type Byte = b: int | 0 <= b < 256
}
