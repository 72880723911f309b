/** Optional values and the two exceptions the modelled Java code can raise. */
module Wrappers {

  datatype Option<T> = None | Some(value: T)

  /** The Java exceptions that escape the modelled operations. */
  datatype Exception = IllegalArgument | NullPointer

  /** The value a Java method returns, or the exception it throws. */
  datatype Result<T> = Ok(value: T) | Raise(exception: Exception)

  /** The completion of a Java `void` method: normal, or by an exception. */
  datatype Outcome = Done | Thrown(exception: Exception)
}
