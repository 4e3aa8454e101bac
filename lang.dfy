/** Java-side vocabulary shared by the model: nullable references and thrown exceptions. */
module Lang {

  /** A Java reference that may be null: `None` stands for null. */
  datatype Option<+T> = None | Some(value: T) {

    /** The value, or `default` for null (`Optional.ofNullable(x).orElse(default)`). */
    function GetOr(default: T): T {
      match this
      case Some(v) => v
      case None => default
    }
  }

  /** The outcome of a Java call that either returns a value or throws. */
  datatype Result<+T, +E> = Success(value: T) | Failure(error: E)

  /** The exceptions the modelled code raises. */
  datatype Exception =
    | NullPointerException
    | IllegalArgumentException(message: string)
}
