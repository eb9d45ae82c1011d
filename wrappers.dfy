/** Nullable values and thrown errors, as the Kotlin sources use them. */
module Wrappers {

  /** A Kotlin `T?`: `None` is `null`. */
  datatype Option<+T> = None | Some(value: T)

  /** A call that either returns a value or throws with a message. */
  datatype Result<+T> = Success(value: T) | Failure(error: string)

  /** Kotlin's `String.startsWith`. */
  predicate StartsWith(s: string, prefix: string)
  {
    |prefix| <= |s| && s[..|prefix|] == prefix
  }

  /** Kotlin's `String.endsWith`. */
  predicate EndsWith(s: string, suffix: string)
  {
    |suffix| <= |s| && s[|s| - |suffix|..] == suffix
  }
}
