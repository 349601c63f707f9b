/** Optional values and results, standing in for Java's null and for thrown StandardExceptions. */
module Wrappers {

  /** `None` plays the part of a Java `null` reference. */
  datatype Option<+T> = None | Some(value: T)

  /** `Err` plays the part of an exception thrown out of a method. */
  datatype Result<+R, +E> = Ok(value: R) | Err(error: E)
}
