/** Shared vocabulary of the model: bytes, optional values and the outcome of a Go call
    that may return an error or panic. */
module Base {

  /** One octet, as in Go's `byte`. */
  type byte = b: int | 0 <= b < 256

  datatype Option<+T> = None | Some(value: T)

  /** The outcome of a Go call: a value, a returned `error`, or a run-time panic
      (an index out of range, a failed type assertion, `rand.IntN(0)`). */
  datatype Result<+T> = Ok(value: T) | Err(error: string) | Panic(reason: string)
}
