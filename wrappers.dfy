/** Option and Result values shared by the modules of this model. */
module Wrappers {

  /** A value that may be absent: TypeScript's `T | null` / `T | undefined`. */
  datatype Option<+T> = None | Some(value: T)

  /** The outcome of an operation that may throw. */
  datatype Result<+T, +E> = Ok(value: T) | Err(error: E)

  /** JavaScript truthiness of a nullable boolean: `null` and `undefined` are falsy. */
  predicate Truthy(b: Option<bool>) {
    b == Some(true)
  }
}
