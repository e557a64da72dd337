/**
  Prepare headers as hash chains.

  A prepare header names its parent by checksum.  With an injective checksum a
  header therefore stands for the whole chain that ends in it, and comparing
  two header checksums is comparing two chains.  A header at op `n` is the
  sequence of the `n` entries from op 1 up to it; the root header (op 0) is the
  empty chain.
 */
module Chains {

  datatype Option<+T> = None | Some(value: T)

  /** The fields of a prepare header other than its op and its parent. */
  datatype Entry = Entry(view: nat, commit: nat, body: int)

  type Chain = seq<Entry>

  function ViewOf(c: Chain): (r: nat) {
    if |c| == 0 then 0 else c[|c| - 1].view
  }

  function CommitOf(c: Chain): (r: nat) {
    if |c| == 0 then 0 else c[|c| - 1].commit
  }

  /** `prepareParent(child) == parent.HeaderChecksum` */
  predicate IsParent(parent: Chain, child: Chain) {
    |child| > 0 && child[..|child| - 1] == parent
  }

  /** One chain continues the other: they agree at every op both contain. */
  predicate Comparable(a: Chain, b: Chain) {
    a <= b || b <= a
  }

  function Max(a: nat, b: nat): (r: nat) {
    if a < b then b else a
  }

  function Min(a: nat, b: nat): (r: nat) {
    if a < b then a else b
  }

  lemma PrefixesComparable(a: Chain, b: Chain, c: Chain)
    requires a <= c && b <= c
    ensures Comparable(a, b)
  {
    if |a| <= |b| {
      assert a == c[..|a|] && b == c[..|b|];
    }
  }

  lemma PrefixTrans(a: Chain, b: Chain, c: Chain)
    requires a <= b && b <= c
    ensures a <= c
  {
  }
}
