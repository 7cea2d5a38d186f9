/** Option and Result values used in place of Java's null, Optional and exceptions. */
module Wrappers {

  datatype Option<+T> = None | Some(value: T)

  /** The Java exceptions the modelled code can raise. */
  datatype Error =
    | NullPointer            // Objects.requireNonNull, or a method called on null
    | IndexOutOfBounds       // List.get with a bad index
    | NoSuchElement          // Iterator.next on an empty collection
    | IllegalArgument        // MemoryDatabase's table type check
    | InvalidConfiguration   // a saga chapter without a registered service

  datatype Result<+T> = Success(value: T) | Failure(error: Error)
}
