/** Generic facts about sequences, stated once so that proofs about records can cite them cheaply. */
module Seqs {
  lemma TailOfAppend<T>(a: seq<T>, b: seq<T>)
    requires a != []
    ensures (a + b)[0] == a[0] && (a + b)[1..] == a[1..] + b
  {
  }

  lemma AppendAssoc<T>(a: seq<T>, b: seq<T>, c: seq<T>)
    ensures a + (b + c) == (a + b) + c
  {
  }

  lemma InitOfAppend<T>(a: seq<T>, b: seq<T>)
    requires b != []
    ensures (a + b)[..|a + b| - 1] == a + b[..|b| - 1]
    ensures (a + b)[|a + b| - 1] == b[|b| - 1]
  {
  }

  /** The elements of `a + b` from a position inside `a` on. */
  lemma DropOfAppend<T>(a: seq<T>, b: seq<T>, i: nat)
    requires i < |a|
    ensures (a + b)[i] == a[i] && (a + b)[i + 1..] == a[i + 1..] + b
  {
  }

  /** Extending a prefix by one element. */
  lemma PrefixExtend<T>(s: seq<T>, i: nat)
    requires i < |s|
    ensures s[..i + 1][..i] == s[..i] && s[..i + 1][i] == s[i]
  {
  }

  /** The whole of a sequence is its longest prefix. */
  lemma PrefixWhole<T>(s: seq<T>)
    ensures s[..|s|] == s
  {
  }
}
