/** Values that every layer of the app passes around: Kotlin's nullable
    values, the exceptions the data layer throws and catches, and Kotlin's
    `Result<T>` that the repository hands to the view-model. */
module Outcomes {

  /** A Kotlin nullable value: `null` is `None`. */
  datatype Option<+T> = None | Some(value: T) {

    /** The elvis operator `this ?: default`. */
    function GetOr(default: T): (r: T)
      ensures Some? ==> r == value
      ensures None? ==> r == default
    {
      match this
      case Some(v) => v
      case None => default
    }
  }

  /** The class of a thrown exception. Only `java.io.IOException` is ever
      constructed by the code modelled here; every other class is named. */
  datatype ExceptionClass = IOException | OtherException(name: string)

  /** A thrown `Exception` with its (nullable) message and (nullable) cause. */
  datatype Exception = Exception(cls: ExceptionClass, message: Option<string>, cause: Option<Exception>)

  /** Kotlin's `Result<T>`, and equally the outcome of a call that either
      returns `value` or throws `error`. */
  datatype Outcome<+T> = Ok(value: T) | Err(error: Exception)
}
