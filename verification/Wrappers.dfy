/**
 Results, and facts about sequences.
 */
module Wrappers {
  datatype Option<+T> = None | Some(value: T) {
    function GetOr(default: T): T {
      match this
      case Some(v) => v
      case None => default
    }
  }

  datatype Result<+R, +E> = Success(value: R) | Failure(error: E)

  /** No element occurs twice. */
  ghost predicate Distinct<T>(s: seq<T>) {
    forall i, j | 0 <= i < j < |s| :: s[i] != s[j]
  }

  /** Array.findIndex, with None for -1. */
  function FindIndex<T>(s: seq<T>, has: T -> bool): (idx: Option<nat>)
    ensures idx.Some? ==> idx.value < |s| && has(s[idx.value]) && forall i | 0 <= i < idx.value :: !has(s[i])
    ensures idx.None? ==> forall i | 0 <= i < |s| :: !has(s[i])
  {
    if s == [] then None
    else if has(s[0]) then Some(0)
    else
      match FindIndex(s[1..], has)
      case Some(i) => Some(i + 1)
      case None => None
  }

  lemma Associative<T>(a: seq<T>, b: seq<T>, c: seq<T>)
    ensures (a + b) + c == a + (b + c)
  {
  }

  /** A slice that begins with the head of `s`. */
  lemma SliceWithHead<T>(s: seq<T>, n: nat)
    requires 0 < n <= |s|
    ensures [s[0]] + s[1..][..n - 1] == s[..n]
  {
  }

  lemma SliceOfTail<T>(s: seq<T>, i: nat, j: nat)
    requires s != [] && i <= j < |s|
    ensures s[1..][i..j] == s[i + 1..j + 1]
  {
  }
}
