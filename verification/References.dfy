/**
  What a checkpoint needs, stated without the walk that finds it
  (replication/checkpoint_reachability.go): blocks refer to blocks, and every
  reference may ask for a snapshot and a size.  Reading and validating a block
  is a function of its reference and type.
 */
module References {
  import opened Allocator
  import opened Blocks
  import opened Chains

  datatype Requirement = Requirement(reference: Reference, kind: Kind, snapshot: int, exact: bool, bodySize: nat)

  /** What reading yields: the header fields, the previous manifest block, and what the block refers to. */
  datatype Block = Block(snapshot: int, bodySize: nat, previous: Reference, outputs: seq<Requirement>)

  type Storage = (Reference, Kind) -> Option<Block>

  datatype Key = Key(reference: Reference, kind: Kind)

  function KeyOf(r: Requirement): (k: Key) { Key(r.reference, r.kind) }

  function KeysOf(given: set<Requirement>): (ks: set<Key>) {
    set r | r in given :: KeyOf(r)
  }

  // ---- reachability ------------------------------------------------------------------------------

  predicate Readable(blocks: Storage, k: Key) {
    blocks(k.reference, k.kind).Some?
  }

  predicate Refers(blocks: Storage, k: Key, l: Key) {
    Readable(blocks, k) &&
    exists i :: 0 <= i < |blocks(k.reference, k.kind).value.outputs| && KeyOf(blocks(k.reference, k.kind).value.outputs[i]) == l
  }

  /** A chain of references from a root. */
  predicate IsPath(blocks: Storage, roots: set<Key>, path: seq<Key>) {
    && |path| > 0 && path[0] in roots
    && forall i :: 0 <= i < |path| - 1 ==> Refers(blocks, path[i], path[i + 1])
  }

  ghost predicate Reached(blocks: Storage, roots: set<Key>, k: Key) {
    exists path :: IsPath(blocks, roots, path) && path[|path| - 1] == k
  }

  lemma RootReached(blocks: Storage, roots: set<Key>, k: Key)
    requires k in roots
    ensures Reached(blocks, roots, k)
  {
    assert IsPath(blocks, roots, [k]);
  }

  lemma ReachedNext(blocks: Storage, roots: set<Key>, k: Key, l: Key)
    requires Reached(blocks, roots, k) && Refers(blocks, k, l)
    ensures Reached(blocks, roots, l)
  {
    var path :| IsPath(blocks, roots, path) && path[|path| - 1] == k;
    var longer := path + [l];
    forall i | 0 <= i < |longer| - 1
      ensures Refers(blocks, longer[i], longer[i + 1])
    {
      if i < |path| - 1 {
        assert Refers(blocks, path[i], path[i + 1]);
      }
    }
    assert IsPath(blocks, roots, longer);
  }

  lemma PathTo(blocks: Storage, roots: set<Key>, k: Key) returns (path: seq<Key>)
    requires Reached(blocks, roots, k)
    ensures IsPath(blocks, roots, path) && |path| > 0 && path[|path| - 1] == k
  {
    path :| IsPath(blocks, roots, path) && path[|path| - 1] == k;
  }

  /** Block `i` is needed: some chain of references from the roots arrives at it. */
  ghost predicate NeededBlock(blocks: Storage, roots: set<Key>, i: nat) {
    exists k :: Reached(blocks, roots, k) && k.reference.address == i + 1
  }

  ghost predicate AllNeeded(blocks: Storage, roots: set<Key>, a: set<nat>) {
    forall i :: i in a ==> NeededBlock(blocks, roots, i)
  }

  // ---- requirements ------------------------------------------------------------------------------

  predicate OutputOf(blocks: Storage, k: Key, r: Requirement) {
    Readable(blocks, k) && r in blocks(k.reference, k.kind).value.outputs
  }

  /** The requirement is given, or is an output of a block that is reached. */
  ghost predicate Asked(blocks: Storage, given: set<Requirement>, r: Requirement) {
    r in given || exists k :: Reached(blocks, KeysOf(given), k) && OutputOf(blocks, k, r)
  }

  lemma AskedReached(blocks: Storage, given: set<Requirement>, r: Requirement)
    requires Asked(blocks, given, r)
    ensures Reached(blocks, KeysOf(given), KeyOf(r))
  {
    if r in given {
      RootReached(blocks, KeysOf(given), KeyOf(r));
    } else {
      var k :| Reached(blocks, KeysOf(given), k) && OutputOf(blocks, k, r);
      assert Refers(blocks, k, KeyOf(r));
      ReachedNext(blocks, KeysOf(given), k, KeyOf(r));
    }
  }

  predicate InUse(s: Sets, i: nat) {
    i < s.count && i in s.acquired && i !in s.released && i !in s.pending
  }

  /** A block of the application that is in use. */
  predicate Enterable(s: Sets, k: Key) {
    k.reference.address > 0 && k.reference.checksum != 0 && k.kind != FreeSet && k.kind != ClientSessions
    && InUse(s, k.reference.address - 1)
  }

  predicate Conflict(known: Requirement, r: Requirement) {
    || known.reference != r.reference || known.kind != r.kind
    || (known.exact && r.exact && known.snapshot != r.snapshot)
    || (known.bodySize != 0 && r.bodySize != 0 && known.bodySize != r.bodySize)
  }

  /** The block, if it can be read, has the snapshot and the size asked for. */
  predicate Matches(blocks: Storage, r: Requirement) {
    Readable(blocks, KeyOf(r)) ==>
      var b := blocks(r.reference, r.kind).value;
      (r.exact ==> b.snapshot == r.snapshot) && (r.bodySize != 0 ==> b.bodySize == r.bodySize)
  }

  ghost predicate AllMatch(blocks: Storage, given: set<Requirement>) {
    forall r :: Asked(blocks, given, r) ==> Matches(blocks, r)
  }

  ghost predicate AllEnterable(blocks: Storage, s: Sets, given: set<Requirement>) {
    forall r :: Asked(blocks, given, r) ==> Enterable(s, KeyOf(r)) && Readable(blocks, KeyOf(r))
  }

  ghost predicate NoConflicts(blocks: Storage, given: set<Requirement>) {
    forall r, q :: Asked(blocks, given, r) && Asked(blocks, given, q) && r.reference.address == q.reference.address ==>
      !Conflict(r, q)
  }

  ghost predicate WithinLimit(blocks: Storage, limit: nat, given: set<Requirement>) {
    forall a: set<nat> :: AllNeeded(blocks, KeysOf(given), a) ==> |a| <= limit
  }

  /**
    Everything asked for is a block in use that can be read, no two requirements
    contradict each other, and no more than `limit` blocks are needed.
   */
  ghost predicate Acceptable(blocks: Storage, s: Sets, limit: nat, given: set<Requirement>) {
    AllEnterable(blocks, s, given) && NoConflicts(blocks, given) && WithinLimit(blocks, limit, given)
  }

  // ---- the manifest chain ------------------------------------------------------------------------

  /** The manifest blocks: the newest, and from each the one before it. */
  function ManifestChain(blocks: Storage, current: Reference, count: nat): (r: seq<Key>)
    decreases count
  {
    if count == 0 then []
    else
      [Key(current, Kind.Manifest)] +
      match blocks(current, Kind.Manifest)
      case None => []
      case Some(b) => ManifestChain(blocks, b.previous, count - 1)
  }

  /** The chain starts with its first reference and continues from what that block names. */
  lemma ChainHead(blocks: Storage, current: Reference, count: nat)
    ensures var c := ManifestChain(blocks, current, count);
      && |c| <= count && (count > 0 ==> |c| > 0 && c[0] == Key(current, Kind.Manifest))
      && (count > 0 && Readable(blocks, Key(current, Kind.Manifest)) ==>
          c[1..] == ManifestChain(blocks, blocks(current, Kind.Manifest).value.previous, count - 1))
  {
    ChainShort(blocks, current, count);
  }

  lemma {:induction false} ChainShort(blocks: Storage, current: Reference, count: nat)
    ensures |ManifestChain(blocks, current, count)| <= count
    decreases count
  {
    if count > 0 && Readable(blocks, Key(current, Kind.Manifest)) {
      ChainShort(blocks, blocks(current, Kind.Manifest).value.previous, count - 1);
    }
  }

  /** `k` is one of the first `n` blocks of the chain, or one of them refers to it. */
  predicate FromChain(blocks: Storage, chain: seq<Key>, n: nat, k: Key) {
    exists m :: 0 <= m < n <= |chain| && (chain[m] == k || Refers(blocks, chain[m], k))
  }

  /** The address of block `n` of the chain has been met before. */
  ghost predicate Revisits(blocks: Storage, chain: seq<Key>, n: nat)
    requires n < |chain|
  {
    exists k :: FromChain(blocks, chain, n, k) && k.reference.address == chain[n].reference.address
  }

  /** The last of `count` blocks is the oldest and names no other; the others name one. */
  predicate EndsRight(blocks: Storage, chain: seq<Key>, n: nat, oldest: Reference, count: nat)
    requires n < |chain|
  {
    Readable(blocks, chain[n]) ==>
      var previous := blocks(chain[n].reference, chain[n].kind).value.previous;
      if n + 1 == count then chain[n].reference == oldest && previous == NO_REFERENCE else previous != NO_REFERENCE
  }

  ghost predicate LinkOK(blocks: Storage, chain: seq<Key>, n: nat, oldest: Reference, count: nat)
    requires n < |chain|
  {
    !Revisits(blocks, chain, n) && EndsRight(blocks, chain, n, oldest, count)
  }

  ghost predicate ChainOK(blocks: Storage, chain: seq<Key>, oldest: Reference, count: nat) {
    forall n: nat :: n < |chain| ==> LinkOK(blocks, chain, n, oldest, count)
  }

  function ManifestRequirement(k: Key): (r: Requirement) {
    Requirement(k.reference, k.kind, 0, false, 0)
  }

  /** What a checkpoint asks for: its manifest blocks and, if it has one, its snapshot root. */
  function Given(blocks: Storage, newest: Reference, count: nat, root: Option<Requirement>): (r: set<Requirement>) {
    var chain := ManifestChain(blocks, newest, count);
    (set i | 0 <= i < |chain| :: ManifestRequirement(chain[i])) + (if root.Some? then {root.value} else {})
  }

  // ---- the same on the fields of blocks and references -----------------------------------------------

  /** A block of this snapshot and size is what the requirement asks for. */
  predicate Fits(r: Requirement, snapshot: int, bodySize: nat) {
    (r.exact ==> snapshot == r.snapshot) && (r.bodySize != 0 ==> bodySize == r.bodySize)
  }

  /** Two requirements conflict exactly if no block could be what both ask for. */
  lemma ConflictIff(a: Requirement, b: Requirement)
    ensures !Conflict(a, b) <==>
      && a.reference == b.reference && a.kind == b.kind
      && exists snapshot, bodySize: nat :: Fits(a, snapshot, bodySize) && Fits(b, snapshot, bodySize)
  {
    if !Conflict(a, b) {
      var snapshot := if a.exact then a.snapshot else b.snapshot;
      var bodySize := if a.bodySize != 0 then a.bodySize else b.bodySize;
      assert Fits(a, snapshot, bodySize) && Fits(b, snapshot, bodySize);
    }
  }

  /** The reference is proper, its block is in use by the checkpoint, and it can be read. */
  predicate Sane(blocks: Storage, s: Sets, r: Requirement) {
    && r.reference.address != 0 && r.reference.checksum != 0 && r.kind != FreeSet && r.kind != ClientSessions
    && blocks(r.reference, r.kind) != None && r.reference.address <= s.count
    && r.reference.address - 1 in s.acquired && r.reference.address - 1 !in s.released + s.pending
  }

  /** What `Acceptable` asks of a checkpoint. */
  lemma AcceptableByFields(blocks: Storage, s: Sets, limit: nat, given: set<Requirement>)
    ensures Acceptable(blocks, s, limit, given) <==>
      && (forall r :: Asked(blocks, given, r) ==> Sane(blocks, s, r))
      && (forall r, q :: Asked(blocks, given, r) && Asked(blocks, given, q) && r.reference.address == q.reference.address ==>
            && r.reference == q.reference && r.kind == q.kind
            && exists snapshot, bodySize: nat :: Fits(r, snapshot, bodySize) && Fits(q, snapshot, bodySize))
      && forall a: set<nat> :: AllNeeded(blocks, KeysOf(given), a) ==> |a| <= limit
  {
    hide Asked, AllNeeded, Conflict;
    forall r
      ensures Enterable(s, KeyOf(r)) && Readable(blocks, KeyOf(r)) <==> Sane(blocks, s, r)
    {
    }
    forall r, q
      ensures !Conflict(r, q) <==>
        && r.reference == q.reference && r.kind == q.kind
        && exists snapshot, bodySize: nat :: Fits(r, snapshot, bodySize) && Fits(q, snapshot, bodySize)
    {
      ConflictIff(r, q);
    }
  }

  /** A readable manifest chain: from the newest block, each names the one before it. */
  lemma {:induction false} ManifestLinks(blocks: Storage, current: Reference, count: nat, n: nat)
    requires forall k :: k in ManifestChain(blocks, current, count) ==> Readable(blocks, k)
    ensures var c := ManifestChain(blocks, current, count);
      && |c| == count && (n < count ==> c[n].kind == Kind.Manifest) && (count > 0 ==> c[0].reference == current)
      && (n + 1 < count ==> Readable(blocks, c[n]) && blocks(c[n].reference, c[n].kind).value.previous == c[n + 1].reference)
    decreases count
  {
    if count > 0 {
      var c := ManifestChain(blocks, current, count);
      ChainHead(blocks, current, count);
      assert c[0] in c;
      var previous := blocks(current, Kind.Manifest).value.previous;
      var rest := ManifestChain(blocks, previous, count - 1);
      assert c == [c[0]] + rest;
      assert forall k :: k in rest ==> k in c;
      ManifestLinks(blocks, previous, count - 1, if n > 0 then n - 1 else 0);
    }
  }

  /** A well-formed chain ends at the oldest block, which names no other, and visits no address twice. */
  lemma ChainByFields(blocks: Storage, chain: seq<Key>, oldest: Reference, n: nat, m: nat)
    requires ChainOK(blocks, chain, oldest, |chain|) && n < |chain| && Readable(blocks, chain[n])
    ensures var previous := blocks(chain[n].reference, chain[n].kind).value.previous;
      && (n == |chain| - 1 ==> chain[n].reference == oldest && previous == NO_REFERENCE)
      && (n < |chain| - 1 ==> previous != NO_REFERENCE)
    ensures m < n ==> chain[m].reference.address != chain[n].reference.address
  {
    assert LinkOK(blocks, chain, n, oldest, |chain|);
    if m < n {
      assert FromChain(blocks, chain, n, chain[m]);
    }
  }
}
