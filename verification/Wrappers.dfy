/** The two result shapes used throughout: a value that may be absent, and a Go
    `(value, error)` pair. */
module Wrappers {
  datatype Option<+T> = None | Some(value: T)

  datatype Result<+T, +E> = Ok(value: T) | Err(error: E)

  /** Lets a loop over a set of ids pick its next one. */
  lemma Inhabited(s: set<int>)
    ensures s == {} || exists k :: k in s
  {
    if forall k :: k !in s {
      assert s <= {};
    }
  }
}
