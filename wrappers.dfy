/** Nullable references and the one failure the modelled Java code can raise. */
module Wrappers {

  /** A Java reference that may be `null`. */
  datatype Option<+T> = None | Some(value: T)

  /** The outcome of an expression that unboxes a nullable `Integer`:
      unboxing `null` throws a `NullPointerException`. */
  datatype Result<+T> = Ok(value: T) | NullPointer
}
