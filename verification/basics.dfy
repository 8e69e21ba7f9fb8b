/** Shared vocabulary: optional values, results of operations that may abort,
    bytes and string prefixes. */
module Basics {

  /** Rust's `Option` and JavaScript's `null`-or-value. */
  datatype Option<+T> = None | Some(value: T)

  /** The outcome of a step that may panic (`expect`, `unwrap`, `assert_eq!`)
      or report an error. */
  datatype Result<+T, +E> = Ok(value: T) | Err(error: E)

  newtype byte = b: int | 0 <= b < 256

  /** JavaScript's `s.startsWith(prefix)`. */
  predicate StartsWith(s: string, prefix: string)
  {
    |prefix| <= |s| && s[..|prefix|] == prefix
  }
}
