/** Outcome types shared by the model: Go's nil-able values, its (value, error)
    pairs and the few error kinds the modelled code tells apart. */
module Outcomes {

  /** A value that may be absent (a nil pointer or a zero-valued handle in Go). */
  datatype Option<+T> = None | Some(value: T)

  /** The outcome of a Go call returning `(T, error)`: the value when the error is nil. */
  datatype Result<+T, +E> = Ok(value: T) | Err(error: E)

  /** The error values the modelled code distinguishes. `ErrNotExist` stands for every
      error that `os.IsNotExist` recognises; all the others are carried opaquely. */
  datatype GoError = ErrNotExist | ErrPermission | ErrOther(message: string)

  /** `os.IsNotExist(err)`. */
  predicate IsNotExist(e: GoError) {
    e.ErrNotExist?
  }
}
