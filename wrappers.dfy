/** Value wrappers standing in for funktionale's Option and Either and for
    Kotlin's exceptions. */
module Wrappers {

  /** funktionale's Option: Option.None or Option.Some(value). */
  datatype Option<+T> = None | Some(value: T)

  /** funktionale's Either: Either.left(l) or Either.right(r). */
  datatype Either<+L, +R> = Left(left: L) | Right(right: R)

  /** A value, or the exception the Kotlin code would throw instead. */
  datatype Result<+T, +E> = Success(value: T) | Failure(error: E)
}
