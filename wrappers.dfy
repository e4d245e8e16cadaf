/**
 * Option, for the `Option<T>` values of the Rust source and for "may fail" results, and a
 * fact about prefixes of sequences that every walk over keys uses.
 */
module Wrappers {

  datatype Option<+T> = None | Some(value: T) {

    /** `unwrap_or`: the value, or `default` when there is none */
    function GetOr(default: T): T {
      match this
      case Some(v) => v
      case None => default
    }
  }

  /** The first `i + 1` elements are the first `i` followed by element `i` */
  lemma TakeSnoc<T>(s: seq<T>, i: nat)
    requires i < |s|
    ensures s[..i + 1] == s[..i] + [s[i]]
  {
  }
}
