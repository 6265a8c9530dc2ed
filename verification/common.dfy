/** Small datatypes shared by every component of the poster generator. */
module Common {

  /** A value that may be absent (Python's `Optional[T]`). */
  datatype Option<+T> = None | Some(value: T)

  /** The outcome of an operation that either yields a value or raises. */
  datatype Result<+T, +E> = Ok(value: T) | Err(error: E)

  /** A (latitude, longitude) pair in degrees, as the geocoding provider returns it. */
  datatype Point = Point(lat: real, lon: real)

  function Max(a: real, b: real): real
  {
    if a >= b then a else b
  }

  function Abs(x: real): real
  {
    if x >= 0.0 then x else -x
  }
}
