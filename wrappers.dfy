/** Small value types shared by the macOS and iOS halves of the plugin model. */
module Wrappers {

  datatype Option<+T> = None | Some(value: T) {
    function GetOr(default: T): T {
      match this
      case Some(v) => v
      case None => default
    }
  }

  /** The outcome of a fallible step the model takes as given (a JSON decode, a token fetch):
      the value, or the error's description. */
  datatype Result<+R> = Success(value: R) | Failure(error: string)

  /** How a plugin command settles the host's invocation: `invoke.resolve(...)` or
      `invoke.reject(message)`. */
  datatype Outcome = Resolved | Rejected(message: string)

  /** `sub` is `s` with some elements left out and the rest kept in their order. */
  predicate IsSubsequence<T(==)>(sub: seq<T>, s: seq<T>)
  {
    if sub == [] then true
    else if s == [] then false
    else if sub[0] == s[0] then IsSubsequence(sub[1..], s[1..])
    else IsSubsequence(sub, s[1..])
  }
}
