/** Failure-carrying and optional values, and two facts about sequences,
    shared by every module of the model. */
module Wrappers {

  /** A value that may be absent (Python `None`, JavaScript `undefined`). */
  datatype Option<T> = None | Some(value: T)

  /** The outcome of an operation that may raise an exception. */
  datatype Result<T, E> = Ok(value: T) | Err(error: E)

  // Two facts about sequences the proofs of several modules use.

  lemma ConcatAssoc<T>(a: seq<T>, b: seq<T>, c: seq<T>)
    ensures a + b + c == a + (b + c)
  { }

  lemma TakeLast<T>(s: seq<T>, n: nat)
    requires 0 < n <= |s|
    ensures s[..n] == s[..n - 1] + [s[n - 1]]
  { }

  lemma SplitLast<T>(s: seq<T>)
    requires |s| > 0
    ensures s == s[..|s| - 1] + [s[|s| - 1]]
  { }
}
