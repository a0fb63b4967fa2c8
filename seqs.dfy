/**
  Facts about taking prefixes of sequences, stated once for every element type so
  that the proofs that use them need not reason about the elements.
 */
module Seqs {

  lemma TakeTake<T>(xs: seq<T>, m: nat, n: nat)
    requires n <= m <= |xs|
    ensures xs[..m][..n] == xs[..n]
  {
  }

  lemma TakeOneMore<T>(xs: seq<T>, j: nat)
    requires j < |xs|
    ensures xs[..j + 1] == xs[..j] + [xs[j]]
    ensures xs[..j + 1][..j] == xs[..j]
  {
  }

  lemma TakeAll<T>(xs: seq<T>)
    ensures xs[..|xs|] == xs
  {
  }

  lemma DropLastOfAppend<T>(xs: seq<T>, ys: seq<T>)
    requires ys != []
    ensures (xs + ys)[..|xs + ys| - 1] == xs + ys[..|ys| - 1]
    ensures (xs + ys)[|xs + ys| - 1] == ys[|ys| - 1]
  {
  }

  lemma TakeOfAppend<T>(xs: seq<T>, ys: seq<T>, n: nat)
    requires n <= |xs + ys|
    ensures n <= |xs| ==> (xs + ys)[..n] == xs[..n]
    ensures n > |xs| ==> (xs + ys)[..n] == xs + ys[..n - |xs|]
  {
  }

  lemma AppendAssoc<T>(xs: seq<T>, ys: seq<T>, zs: seq<T>)
    ensures (xs + ys) + zs == xs + (ys + zs)
  {
  }
}
