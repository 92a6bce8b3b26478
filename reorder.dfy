/** The exchange of two entries of the upload list after a drop. */
module Reorder {

  /** The list with the entries at `i` and `j` exchanged: the destructuring
      assignment writes the old `s[i]` to position `j`, then the old `s[j]`
      to position `i`. */
  function Swap<T>(s: seq<T>, i: nat, j: nat): (r: seq<T>)
    requires i < |s| && j < |s|
    ensures |r| == |s|
    ensures r[i] == s[j] && r[j] == s[i]
    ensures forall k :: 0 <= k < |s| && k != i && k != j ==> r[k] == s[k]
    ensures multiset(r) == multiset(s)
  {
    s[j := s[i]][i := s[j]]
  }

  /** Exchanging the same two positions again restores the list. */
  lemma SwapTwice<T>(s: seq<T>, i: nat, j: nat)
    requires i < |s| && j < |s|
    ensures Swap(Swap(s, i, j), i, j) == s
  {
  }

  /** The order in which the two positions are named does not matter. */
  lemma SwapSymmetric<T>(s: seq<T>, i: nat, j: nat)
    requires i < |s| && j < |s|
    ensures Swap(s, i, j) == Swap(s, j, i)
  {
  }

  /** Exchanging the first and the last of four entries. */
  lemma SwapEnds<T>(a: T, b: T, c: T, d: T)
    ensures Swap([a, b, c, d], 0, 3) == [d, b, c, a]
  {
  }
}
