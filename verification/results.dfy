/** Failure-carrying values used where the Java code throws or returns nothing. */
module Results {

  /** An optional value. */
  datatype Option<+T> = None | Some(value: T)

  /** Why a cart access by index was refused: `ArrayList.get`/`remove` throw
      IndexOutOfBoundsException for an index outside `[0, size)`. */
  datatype CartError = IndexOutOfBounds(index: int, size: nat)

  /** The value of a cart access, or the exception it raised. */
  datatype Result<+T> = Ok(value: T) | Err(error: CartError)
}
