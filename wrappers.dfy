/** Failure-carrying values of the Kotlin runtime the app relies on: nullable
    references (`T?`), `kotlin.Result<T>` and the message of a `Throwable`. */
module Wrappers {

  /** A Kotlin nullable value: `None` is `null`. */
  datatype Option<+T> = None | Some(value: T)

  /** A `Throwable` seen only through its (nullable) `message`. */
  datatype Throwable = Throwable(message: Option<string>)

  /** `kotlin.Result<T>`: a value or the exception that was caught. */
  datatype Result<+T> = Success(value: T) | Failure(error: Throwable)

  /** What a Kotlin string template prints for `${error.message}`:
      the message itself, or "null" when the message is null. */
  function MessageText(t: Throwable): (r: string)
    ensures t.message.Some? ==> r == t.message.value
    ensures t.message.None? ==> r == "null"
  {
    match t.message
    case Some(m) => m
    case None => "null"
  }
}
