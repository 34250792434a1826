/** Option and Result wrappers used in place of Java's null returns and thrown exceptions. */
module Wrappers {

  /** `None` stands for a Java `null` result. */
  datatype Option<+T> = None | Some(value: T)

  /** `Failure` stands for a thrown exception that the program raises on purpose. */
  datatype Result<+T, +E> = Success(value: T) | Failure(error: E)

  /** The Java exceptions the modelled code throws deliberately, with their messages. */
  datatype Exception =
    | IllegalArgument(message: string)
    | IllegalState(message: string)
}
