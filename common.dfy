/** Value types shared by every part of the model. */
module Common {

  datatype Option<+T> = None | Some(value: T)

  datatype Result<+T, +E> = Success(value: T) | Failure(error: E) {
    /** Rust's `Result::ok`: the value, or `None` for an error. */
    function Ok(): (r: Option<T>)
      ensures r.Some? <==> Success?
      ensures r.Some? ==> r.value == value
    {
      match this
      case Success(v) => Some(v)
      case Failure(_) => None
    }
  }

  /** The outcome of an external call that yields no value (an SQL statement,
      a ping). */
  datatype Outcome<+E> = Pass | Fail(error: E)

  type Byte = x: int | 0 <= x < 256

  /** A signed 64-bit integer (Rust `i64`). */
  type I64 = x: int | -0x8000_0000_0000_0000 <= x < 0x8000_0000_0000_0000

  /** A 64-bit float (`f64`). The model never computes with these values; it
      only moves them from one record to another. */
  type F64 = real

  /** A UTC instant, in whole seconds since the Unix epoch. */
  type Timestamp = int
}
