/**
  The state of the walk over the blocks of a checkpoint: one node for each
  address met, what it is still required to be, and a stack of nodes to expand.
 */
module WalkState {
  import opened Allocator
  import opened References

  datatype Node = Node(requirement: Requirement, processed: bool)

  datatype Graph = Graph(nodes: seq<Node>, byAddress: map<nat, nat>, stack: seq<nat>, reachable: set<nat>)

  const EMPTY := Graph([], map[], [], {})

  /** Whoever satisfies `q` satisfies `r`. */
  predicate Refines(q: Requirement, r: Requirement) {
    && KeyOf(q) == KeyOf(r) && (r.exact ==> q.exact && q.snapshot == r.snapshot)
    && (r.bodySize != 0 ==> q.bodySize == r.bodySize)
  }

  function Merged(known: Requirement, r: Requirement): (q: Requirement) {
    var q := if r.exact then known.(snapshot := r.snapshot, exact := true) else known;
    if r.bodySize != 0 then q.(bodySize := r.bodySize) else q
  }

  lemma MergedRefines(known: Requirement, r: Requirement)
    requires !Conflict(known, r)
    ensures Refines(Merged(known, r), known) && Refines(Merged(known, r), r)
  {
  }

  /** The graph already has a node for this key. */
  predicate Has(g: Graph, k: Key) {
    && k.reference.address in g.byAddress && g.byAddress[k.reference.address] < |g.nodes|
    && KeyOf(g.nodes[g.byAddress[k.reference.address]].requirement) == k
  }

  /** The graph has a node that is held to the requirement. */
  predicate Absorbed(g: Graph, r: Requirement) {
    Has(g, KeyOf(r)) && Refines(g.nodes[g.byAddress[r.reference.address]].requirement, r)
  }

  predicate NodeAt(g: Graph, k: nat) {
    k < |g.nodes| && Has(g, KeyOf(g.nodes[k].requirement)) && g.byAddress[g.nodes[k].requirement.reference.address] == k
  }

  predicate AddressAt(g: Graph, s: Sets, a: nat) {
    && a > 0 && a in g.byAddress && g.byAddress[a] < |g.nodes|
    && g.nodes[g.byAddress[a]].requirement.reference.address == a
    && a - 1 in g.reachable && Enterable(s, KeyOf(g.nodes[g.byAddress[a]].requirement))
  }

  predicate Indexed(g: Graph, s: Sets, limit: nat) {
    && |g.nodes| <= limit
    && (forall k :: 0 <= k < |g.nodes| ==> NodeAt(g, k))
    && (forall a :: a in g.byAddress ==> AddressAt(g, s, a))
    && (forall i :: i in g.reachable ==> i + 1 in g.byAddress)
    && (forall j :: 0 <= j < |g.stack| ==> g.stack[j] < |g.nodes|)
  }

  /** A processed block was read, and everything it refers to has a node held to it. */
  predicate Expanded(g: Graph, blocks: Storage, k: Key) {
    Readable(blocks, k) && forall r :: r in blocks(k.reference, k.kind).value.outputs ==> Absorbed(g, r)
  }

  /** What the node is held to, something asks for. */
  ghost predicate Backed(blocks: Storage, given: set<Requirement>, q: Requirement) {
    && (exists r :: Asked(blocks, given, r) && KeyOf(r) == KeyOf(q))
    && (q.exact ==> exists r :: Asked(blocks, given, r) && KeyOf(r) == KeyOf(q) && r.exact && r.snapshot == q.snapshot)
    && (q.bodySize != 0 ==> exists r :: Asked(blocks, given, r) && KeyOf(r) == KeyOf(q) && r.bodySize == q.bodySize)
  }

  ghost predicate Grounded(g: Graph, blocks: Storage, given: set<Requirement>) {
    forall k :: 0 <= k < |g.nodes| ==> Backed(blocks, given, g.nodes[k].requirement)
  }

  /** Every processed node but those in `open` is expanded. */
  predicate Closed(g: Graph, blocks: Storage, open: set<nat>) {
    forall k :: 0 <= k < |g.nodes| && g.nodes[k].processed && k !in open ==> Expanded(g, blocks, KeyOf(g.nodes[k].requirement))
  }

  /** The walk is in order: indexed, grounded in what is asked, and closed but for the nodes still being expanded. */
  ghost predicate Walking(g: Graph, blocks: Storage, s: Sets, limit: nat, given: set<Requirement>, open: set<nat>) {
    Indexed(g, s, limit) && Grounded(g, blocks, given) && Closed(g, blocks, open)
  }

  lemma EmptyWalk(blocks: Storage, s: Sets, limit: nat, given: set<Requirement>)
    ensures Walking(EMPTY, blocks, s, limit, given, {})
  {
  }

  // ---- growing ------------------------------------------------------------------------------------

  /** The stack keeps what it held, and new nodes are pushed. */
  predicate Stacked(g: Graph, h: Graph) {
    && |g.stack| <= |h.stack| && (forall j :: 0 <= j < |g.stack| ==> h.stack[j] == g.stack[j])
    && forall k :: |g.nodes| <= k < |h.nodes| ==> k in h.stack
  }

  /** The graph only grows: nodes are held to no less, and processed nodes stay processed. */
  predicate Grows(g: Graph, h: Graph) {
    && |g.nodes| <= |h.nodes|
    && (forall k :: 0 <= k < |g.nodes| ==>
          Refines(h.nodes[k].requirement, g.nodes[k].requirement) && (g.nodes[k].processed ==> h.nodes[k].processed))
    && (forall a :: a in g.byAddress ==> a in h.byAddress && h.byAddress[a] == g.byAddress[a])
    && Stacked(g, h)
  }

  /** It grows, and no node is marked processed. */
  predicate Extends(g: Graph, h: Graph) {
    && Grows(g, h) && (forall k :: 0 <= k < |g.nodes| ==> h.nodes[k].processed == g.nodes[k].processed)
    && forall k :: |g.nodes| <= k < |h.nodes| ==> !h.nodes[k].processed
  }

  lemma StackedTrans(f: Graph, g: Graph, h: Graph)
    requires Stacked(f, g) && Stacked(g, h)
    ensures Stacked(f, h)
  {
    forall k | |f.nodes| <= k < |h.nodes|
      ensures k in h.stack
    {
      if k < |g.nodes| {
        assert k in g.stack;
        var j :| 0 <= j < |g.stack| && g.stack[j] == k;
        assert h.stack[j] == k;
      }
    }
  }

  lemma GrowsTrans(f: Graph, g: Graph, h: Graph)
    requires Grows(f, g) && Grows(g, h)
    ensures Grows(f, h)
  {
    StackedTrans(f, g, h);
    forall k | 0 <= k < |f.nodes|
      ensures Refines(h.nodes[k].requirement, f.nodes[k].requirement) && (f.nodes[k].processed ==> h.nodes[k].processed)
    {
      assert Refines(g.nodes[k].requirement, f.nodes[k].requirement) && Refines(h.nodes[k].requirement, g.nodes[k].requirement);
    }
  }

  lemma ExtendsTrans(f: Graph, g: Graph, h: Graph)
    requires Extends(f, g) && Extends(g, h)
    ensures Extends(f, h)
  {
    GrowsTrans(f, g, h);
  }

  lemma GrowsReflexive(g: Graph)
    ensures Extends(g, g)
  {
  }

  lemma GrowsAbsorbed(g: Graph, h: Graph, r: Requirement)
    requires Grows(g, h) && Absorbed(g, r)
    ensures Absorbed(h, r)
  {
    var n := g.byAddress[r.reference.address];
    assert Refines(h.nodes[n].requirement, g.nodes[n].requirement);
  }

  lemma GrowsExpanded(g: Graph, h: Graph, blocks: Storage, k: Key)
    requires Grows(g, h) && Expanded(g, blocks, k)
    ensures Expanded(h, blocks, k)
  {
    hide Grows, Absorbed;
    forall r | r in blocks(k.reference, k.kind).value.outputs
      ensures Absorbed(h, r)
    {
      GrowsAbsorbed(g, h, r);
    }
  }

  lemma ExtendsClosed(g: Graph, h: Graph, blocks: Storage, open: set<nat>)
    requires Extends(g, h) && Closed(g, blocks, open)
    ensures Closed(h, blocks, open)
  {
    hide Expanded, Stacked;
    forall k | 0 <= k < |h.nodes| && h.nodes[k].processed && k !in open
      ensures Expanded(h, blocks, KeyOf(h.nodes[k].requirement))
    {
      assert Refines(h.nodes[k].requirement, g.nodes[k].requirement);
      GrowsExpanded(g, h, blocks, KeyOf(g.nodes[k].requirement));
    }
  }

  // ---- entering a requirement -----------------------------------------------------------------------

  /** `enqueue` refuses the requirement. */
  predicate Blocked(g: Graph, s: Sets, limit: nat, r: Requirement) {
    || !Enterable(s, KeyOf(r))
    || (if r.reference.address in g.byAddress then
          g.byAddress[r.reference.address] < |g.nodes| && Conflict(g.nodes[g.byAddress[r.reference.address]].requirement, r)
        else |g.nodes| >= limit)
  }

  /** What `enqueue` does otherwise: holds the node of the address to the requirement too, or adds a node. */
  function Entered(g: Graph, r: Requirement): (h: Graph)
    requires r.reference.address > 0
  {
    var a := r.reference.address;
    if a in g.byAddress && g.byAddress[a] < |g.nodes| then
      var n := g.byAddress[a];
      g.(nodes := g.nodes[n := g.nodes[n].(requirement := Merged(g.nodes[n].requirement, r))])
    else
      Graph(g.nodes + [Node(r, false)], g.byAddress[a := |g.nodes|], g.stack + [|g.nodes|], g.reachable + {a - 1})
  }

  lemma EnteredNode(g: Graph, s: Sets, limit: nat, r: Requirement, k: nat)
    requires Indexed(g, s, limit) && !Blocked(g, s, limit, r) && k < |Entered(g, r).nodes|
    ensures NodeAt(Entered(g, r), k)
  {
    hide Enterable;
    var a := r.reference.address;
    if a in g.byAddress {
      assert AddressAt(g, s, a);
      MergedRefines(g.nodes[g.byAddress[a]].requirement, r);
    }
    if k < |g.nodes| { assert NodeAt(g, k); }
  }

  lemma EnteredAddress(g: Graph, s: Sets, limit: nat, r: Requirement, a: nat)
    requires Indexed(g, s, limit) && !Blocked(g, s, limit, r) && a in Entered(g, r).byAddress
    ensures AddressAt(Entered(g, r), s, a)
  {
    hide Enterable;
    if r.reference.address in g.byAddress {
      assert AddressAt(g, s, r.reference.address);
      MergedRefines(g.nodes[g.byAddress[r.reference.address]].requirement, r);
    }
    if a in g.byAddress { assert AddressAt(g, s, a); }
  }

  lemma EnteredExtends(g: Graph, s: Sets, limit: nat, r: Requirement)
    requires Indexed(g, s, limit) && !Blocked(g, s, limit, r)
    ensures Extends(g, Entered(g, r)) && Absorbed(Entered(g, r), r)
  {
    NotBlocked(g, s, limit, r);
    hide Enterable;
    if r.reference.address in g.byAddress {
      assert AddressAt(g, s, r.reference.address);
      MergedRefines(g.nodes[g.byAddress[r.reference.address]].requirement, r);
    } else {
      assert |g.nodes| in Entered(g, r).stack by { assert Entered(g, r).stack[|g.stack|] == |g.nodes|; }
    }
  }

  lemma EnteredRest(g: Graph, s: Sets, limit: nat, r: Requirement)
    requires Indexed(g, s, limit) && !Blocked(g, s, limit, r)
    ensures var h := Entered(g, r);
      && |h.nodes| <= limit && (forall i :: i in h.reachable ==> i + 1 in h.byAddress)
      && forall j :: 0 <= j < |h.stack| ==> h.stack[j] < |h.nodes|
  {
    hide NodeAt, Enterable;
    NotBlocked(g, s, limit, r);
    if r.reference.address in g.byAddress { assert AddressAt(g, s, r.reference.address); }
  }

  lemma EnteredIndexed(g: Graph, s: Sets, limit: nat, r: Requirement)
    requires Indexed(g, s, limit) && !Blocked(g, s, limit, r)
    ensures Indexed(Entered(g, r), s, limit)
  {
    hide NodeAt, AddressAt, Blocked, Entered;
    NotBlocked(g, s, limit, r);
    EnteredRest(g, s, limit, r);
    var h := Entered(g, r);
    forall k | 0 <= k < |h.nodes| ensures NodeAt(h, k) { EnteredNode(g, s, limit, r, k); }
    forall a | a in h.byAddress ensures AddressAt(h, s, a) { EnteredAddress(g, s, limit, r, a); }
  }

  lemma AskedBacks(blocks: Storage, given: set<Requirement>, r: Requirement)
    requires Asked(blocks, given, r)
    ensures Backed(blocks, given, r)
  {
    hide Asked;
  }

  lemma MergedBacked(blocks: Storage, given: set<Requirement>, q: Requirement, r: Requirement)
    requires Backed(blocks, given, q) && Asked(blocks, given, r) && !Conflict(q, r)
    ensures Backed(blocks, given, Merged(q, r))
  {
    hide Asked;
  }

  lemma EnteredGrounded(g: Graph, blocks: Storage, s: Sets, limit: nat, given: set<Requirement>, r: Requirement)
    requires Indexed(g, s, limit) && !Blocked(g, s, limit, r) && Grounded(g, blocks, given) && Asked(blocks, given, r)
    ensures Grounded(Entered(g, r), blocks, given)
  {
    hide Backed, Asked;
    var h := Entered(g, r);
    forall k | 0 <= k < |h.nodes|
      ensures Backed(blocks, given, h.nodes[k].requirement)
    {
      if k < |g.nodes| {
        assert Backed(blocks, given, g.nodes[k].requirement);
        if h.nodes[k] != g.nodes[k] { MergedBacked(blocks, given, g.nodes[k].requirement, r); }
      } else {
        AskedBacks(blocks, given, r);
      }
    }
  }

  /** Entering something asked for keeps the walk in order. */
  lemma EnteredWalking(g: Graph, blocks: Storage, s: Sets, limit: nat, given: set<Requirement>, open: set<nat>, r: Requirement)
    requires Walking(g, blocks, s, limit, given, open) && !Blocked(g, s, limit, r) && Asked(blocks, given, r)
    ensures Walking(Entered(g, r), blocks, s, limit, given, open)
    ensures Extends(g, Entered(g, r)) && Absorbed(Entered(g, r), r)
    ensures forall k :: |g.nodes| <= k < |Entered(g, r).nodes| ==> Entered(g, r).nodes[k].requirement == r
  {
    hide Indexed, Grounded, Closed, Extends, Absorbed, Asked, Blocked;
    assert r.reference.address > 0 by { NotBlocked(g, s, limit, r); }
    EnteredIndexed(g, s, limit, r);
    EnteredGrounded(g, blocks, s, limit, given, r);
    EnteredExtends(g, s, limit, r);
    ExtendsClosed(g, Entered(g, r), blocks, open);
  }

  lemma NotBlocked(g: Graph, s: Sets, limit: nat, r: Requirement)
    requires !Blocked(g, s, limit, r)
    ensures r.reference.address > 0
  {
  }

  // ---- refusing --------------------------------------------------------------------------------------

  /** The blocks of the first `n` nodes. */
  function FirstBlocks(g: Graph, n: nat): (r: set<nat>)
    requires n <= |g.nodes|
  {
    if n == 0 then {}
    else
      var a := g.nodes[n - 1].requirement.reference.address;
      FirstBlocks(g, n - 1) + if a > 0 then {a - 1} else {}
  }

  lemma {:induction false} FirstBlocksSize(g: Graph, s: Sets, limit: nat, n: nat)
    requires Indexed(g, s, limit) && n <= |g.nodes|
    ensures |FirstBlocks(g, n)| == n && FirstBlocks(g, n) <= g.reachable
    ensures forall i :: i in FirstBlocks(g, n) ==> i + 1 in g.byAddress && g.byAddress[i + 1] < n
  {
    hide Indexed;
    if n > 0 {
      FirstBlocksSize(g, s, limit, n - 1);
      var a := g.nodes[n - 1].requirement.reference.address;
      NodeAddress(g, s, limit, n - 1);
      assert a - 1 !in FirstBlocks(g, n - 1);
    }
  }

  lemma NodeAddress(g: Graph, s: Sets, limit: nat, k: nat)
    requires Indexed(g, s, limit) && k < |g.nodes|
    ensures var a := g.nodes[k].requirement.reference.address;
      a > 0 && a in g.byAddress && g.byAddress[a] == k && a - 1 in g.reachable
  {
    assert NodeAt(g, k) && AddressAt(g, s, g.nodes[k].requirement.reference.address);
  }

  /** There are as many marked blocks as nodes. */
  lemma ReachableSize(g: Graph, s: Sets, limit: nat)
    requires Indexed(g, s, limit)
    ensures |g.reachable| == |g.nodes|
  {
    hide Enterable, NodeAt;
    FirstBlocksSize(g, s, limit, |g.nodes|);
    var b := FirstBlocks(g, |g.nodes|);
    forall i | i in g.reachable
      ensures i in b
    {
      assert AddressAt(g, s, i + 1);
      FirstBlocksHas(g, |g.nodes|, g.byAddress[i + 1]);
    }
    assert b == g.reachable;
  }

  lemma {:induction false} FirstBlocksHas(g: Graph, n: nat, k: nat)
    requires k < n <= |g.nodes| && g.nodes[k].requirement.reference.address > 0
    ensures g.nodes[k].requirement.reference.address - 1 in FirstBlocks(g, n)
  {
    if k < n - 1 { FirstBlocksHas(g, n - 1, k); }
  }

  lemma MarkedIsNeeded(g: Graph, blocks: Storage, s: Sets, limit: nat, given: set<Requirement>, open: set<nat>, i: nat)
    requires Walking(g, blocks, s, limit, given, open) && i in g.reachable
    ensures InUse(s, i) && NeededBlock(blocks, KeysOf(given), i)
  {
    hide Asked, Reached, Closed;
    assert AddressAt(g, s, i + 1);
    var q := g.nodes[g.byAddress[i + 1]].requirement;
    assert Backed(blocks, given, q);
    var r :| Asked(blocks, given, r) && KeyOf(r) == KeyOf(q);
    AskedReached(blocks, given, r);
  }

  lemma ConflictAsked(blocks: Storage, given: set<Requirement>, q: Requirement, r: Requirement)
    requires Backed(blocks, given, q) && Asked(blocks, given, r) && Conflict(q, r) && q.reference.address == r.reference.address
    ensures !NoConflicts(blocks, given)
  {
    hide Asked;
    var x :| Asked(blocks, given, x) && KeyOf(x) == KeyOf(q);
    if KeyOf(q) != KeyOf(r) {
      assert Conflict(x, r);
    } else if q.exact && r.exact && q.snapshot != r.snapshot {
      var y :| Asked(blocks, given, y) && KeyOf(y) == KeyOf(q) && y.exact && y.snapshot == q.snapshot;
      assert Conflict(y, r);
    } else {
      var y :| Asked(blocks, given, y) && KeyOf(y) == KeyOf(q) && y.bodySize == q.bodySize;
      assert Conflict(y, r);
    }
  }

  lemma NotMarked(g: Graph, s: Sets, limit: nat, i: nat)
    requires Indexed(g, s, limit) && i + 1 !in g.byAddress
    ensures i !in g.reachable
  {
    hide NodeAt, AddressAt;
  }

  lemma FullNeeds(g: Graph, blocks: Storage, s: Sets, limit: nat, given: set<Requirement>, open: set<nat>, r: Requirement)
    requires Walking(g, blocks, s, limit, given, open) && Asked(blocks, given, r)
    requires r.reference.address > 0 && r.reference.address !in g.byAddress && |g.nodes| >= limit
    ensures !WithinLimit(blocks, limit, given)
  {
    var block := r.reference.address - 1;
    var a := g.reachable + {block};
    hide Asked, Reached, NeededBlock, Grounded, Closed, Indexed;
    NotMarked(g, s, limit, block);
    ReachableSize(g, s, limit);
    forall i | i in a
      ensures NeededBlock(blocks, KeysOf(given), i)
    {
      if i in g.reachable {
        MarkedIsNeeded(g, blocks, s, limit, given, open, i);
      } else {
        AskedReached(blocks, given, r);
        NeededAt(blocks, KeysOf(given), KeyOf(r));
      }
    }
    assert AllNeeded(blocks, KeysOf(given), a);
  }

  lemma NeededAt(blocks: Storage, roots: set<Key>, k: Key)
    requires Reached(blocks, roots, k) && k.reference.address > 0
    ensures NeededBlock(blocks, roots, k.reference.address - 1)
  {
  }

  /** A requirement that is asked for and refused shows that the checkpoint is not acceptable. */
  lemma BlockedIsDefect(g: Graph, blocks: Storage, s: Sets, limit: nat, given: set<Requirement>, open: set<nat>, r: Requirement)
    requires Walking(g, blocks, s, limit, given, open) && Blocked(g, s, limit, r) && Asked(blocks, given, r)
    ensures !Acceptable(blocks, s, limit, given)
  {
    hide Asked, NoConflicts, WithinLimit, Closed, Backed;
    if Enterable(s, KeyOf(r)) {
      if r.reference.address in g.byAddress {
        assert AddressAt(g, s, r.reference.address);
        ConflictAsked(blocks, given, g.nodes[g.byAddress[r.reference.address]].requirement, r);
      } else {
        FullNeeds(g, blocks, s, limit, given, open, r);
      }
    }
  }

  /** A node whose block cannot be read or is not what it is held to. */
  lemma UnfitIsDefect(g: Graph, blocks: Storage, s: Sets, limit: nat, given: set<Requirement>, open: set<nat>, k: nat)
    requires Walking(g, blocks, s, limit, given, open) && k < |g.nodes|
    requires var q := g.nodes[k].requirement; !Readable(blocks, KeyOf(q)) || !Matches(blocks, q)
    ensures !Acceptable(blocks, s, limit, given) || !AllMatch(blocks, given)
  {
    hide Asked, NoConflicts, WithinLimit, Closed, Indexed;
    var q := g.nodes[k].requirement;
    assert Backed(blocks, given, q);
    var x :| Asked(blocks, given, x) && KeyOf(x) == KeyOf(q);
    if Readable(blocks, KeyOf(q)) {
      if q.exact && blocks(q.reference, q.kind).value.snapshot != q.snapshot {
        var y :| Asked(blocks, given, y) && KeyOf(y) == KeyOf(q) && y.exact && y.snapshot == q.snapshot;
        assert !Matches(blocks, y);
      } else {
        var y :| Asked(blocks, given, y) && KeyOf(y) == KeyOf(q) && y.bodySize == q.bodySize;
        assert !Matches(blocks, y);
      }
    }
  }

  // ---- processing ------------------------------------------------------------------------------------

  function ProcessedUpTo(g: Graph, n: nat): (r: nat)
    requires n <= |g.nodes|
    ensures r <= n
  {
    if n == 0 then 0 else ProcessedUpTo(g, n - 1) + if g.nodes[n - 1].processed then 1 else 0
  }

  function Processed(g: Graph): (r: nat)
    ensures r <= |g.nodes|
  {
    ProcessedUpTo(g, |g.nodes|)
  }

  function Marked(g: Graph, k: nat): (h: Graph)
    requires k < |g.nodes|
  {
    g.(nodes := g.nodes[k := g.nodes[k].(processed := true)])
  }

  lemma MarkWalks(g: Graph, blocks: Storage, s: Sets, limit: nat, given: set<Requirement>, index: nat)
    requires Walking(g, blocks, s, limit, given, {}) && index < |g.nodes|
    ensures Walking(Marked(g, index), blocks, s, limit, given, {index}) && Grows(g, Marked(g, index))
  {
    hide Backed, Enterable;
    var h := Marked(g, index);
    forall k | 0 <= k < |h.nodes|
      ensures NodeAt(h, k) && Backed(blocks, given, h.nodes[k].requirement)
    {
      assert NodeAt(g, k) && Backed(blocks, given, g.nodes[k].requirement);
    }
    forall a | a in h.byAddress
      ensures AddressAt(h, s, a)
    {
      assert AddressAt(g, s, a);
    }
    MarkCloses(g, blocks, index);
  }

  lemma MarkCloses(g: Graph, blocks: Storage, index: nat)
    requires Closed(g, blocks, {}) && index < |g.nodes|
    ensures Closed(Marked(g, index), blocks, {index}) && Grows(g, Marked(g, index))
  {
    hide Expanded;
    var h := Marked(g, index);
    assert Grows(g, h);
    forall k | 0 <= k < |h.nodes| && h.nodes[k].processed && k != index
      ensures Expanded(h, blocks, KeyOf(h.nodes[k].requirement))
    {
      GrowsExpanded(g, h, blocks, KeyOf(g.nodes[k].requirement));
    }
  }

  /** Expanding a marked node completes the walk again and counts one more processed node. */
  lemma DoneWalks(g: Graph, h: Graph, blocks: Storage, s: Sets, limit: nat, given: set<Requirement>, index: nat)
    requires index < |g.nodes| && !g.nodes[index].processed && Grows(g, Marked(g, index))
    requires Walking(h, blocks, s, limit, given, {index}) && Extends(Marked(g, index), h)
    requires Expanded(h, blocks, KeyOf(g.nodes[index].requirement))
    ensures Walking(h, blocks, s, limit, given, {}) && Grows(g, h) && h.nodes[index].processed
    ensures Processed(h) == Processed(g) + 1
  {
    hide Indexed, Grounded, Expanded, Stacked;
    var m := Marked(g, index);
    GrowsTrans(g, m, h);
    ProcessedMarks(g, m, index, |g.nodes|);
    ProcessedSame(m, h, |m.nodes|);
    ProcessedRest(h, |m.nodes|, |h.nodes|);
    assert Refines(h.nodes[index].requirement, m.nodes[index].requirement);
    assert Closed(h, blocks, {});
  }

  lemma {:induction false} ProcessedMarks(g: Graph, m: Graph, index: nat, n: nat)
    requires n <= |g.nodes| && index < |g.nodes| && !g.nodes[index].processed && m == Marked(g, index)
    ensures ProcessedUpTo(m, n) == ProcessedUpTo(g, n) + if index < n then 1 else 0
  {
    if n > 0 { ProcessedMarks(g, m, index, n - 1); }
  }

  lemma {:induction false} ProcessedSame(g: Graph, h: Graph, n: nat)
    requires n <= |g.nodes| <= |h.nodes| && forall k :: 0 <= k < n ==> g.nodes[k].processed == h.nodes[k].processed
    ensures ProcessedUpTo(g, n) == ProcessedUpTo(h, n)
  {
    if n > 0 { ProcessedSame(g, h, n - 1); }
  }

  lemma {:induction false} ProcessedRest(h: Graph, m: nat, n: nat)
    requires m <= n <= |h.nodes| && forall k :: m <= k < n ==> !h.nodes[k].processed
    ensures ProcessedUpTo(h, n) == ProcessedUpTo(h, m)
  {
    if m < n { ProcessedRest(h, m, n - 1); }
  }

  // ---- the stack ---------------------------------------------------------------------------------------

  /** An unprocessed node waits on the stack. */
  predicate AllListed(g: Graph) {
    forall k :: 0 <= k < |g.nodes| ==> g.nodes[k].processed || k in g.stack
  }

  lemma AllStacked(g: Graph)
    requires Stacked(EMPTY, g)
    ensures AllListed(g)
  {
    forall k | 0 <= k < |g.nodes|
      ensures k in g.stack
    {
    }
  }

  lemma ExtendsListed(g: Graph, h: Graph)
    requires AllListed(g) && Extends(g, h)
    ensures AllListed(h)
  {
    forall k | 0 <= k < |h.nodes|
      ensures h.nodes[k].processed || k in h.stack
    {
      if k < |g.nodes| && !g.nodes[k].processed {
        assert k in g.stack;
        var j :| 0 <= j < |g.stack| && g.stack[j] == k;
        assert h.stack[j] == k;
      }
    }
  }

  function Popped(g: Graph): (h: Graph)
    requires |g.stack| > 0
  {
    g.(stack := g.stack[..|g.stack| - 1])
  }

  lemma PopWalks(g: Graph, blocks: Storage, s: Sets, limit: nat, given: set<Requirement>)
    requires Walking(g, blocks, s, limit, given, {}) && |g.stack| > 0
    ensures Walking(Popped(g), blocks, s, limit, given, {}) && g.stack[|g.stack| - 1] < |g.nodes|
    ensures Processed(Popped(g)) == Processed(g) && forall r :: Absorbed(g, r) ==> Absorbed(Popped(g), r)
  {
    hide Backed, Enterable;
    var h := Popped(g);
    assert forall r :: Absorbed(g, r) ==> Absorbed(h, r);
    forall k | 0 <= k < |h.nodes|
      ensures NodeAt(h, k) && (h.nodes[k].processed ==> Expanded(h, blocks, KeyOf(h.nodes[k].requirement)))
    {
      assert NodeAt(g, k) && (g.nodes[k].processed ==> Expanded(g, blocks, KeyOf(g.nodes[k].requirement)));
    }
    forall a | a in h.byAddress
      ensures AddressAt(h, s, a)
    {
      assert AddressAt(g, s, a);
    }
    ProcessedSame(g, h, |g.nodes|);
  }

  lemma PopListed(g: Graph)
    requires AllListed(g) && |g.stack| > 0
    requires g.stack[|g.stack| - 1] < |g.nodes| && g.nodes[g.stack[|g.stack| - 1]].processed
    ensures AllListed(Popped(g))
  {
    forall k | 0 <= k < |g.nodes|
      ensures g.nodes[k].processed || k in Popped(g).stack
    {
      if !g.nodes[k].processed {
        assert k in g.stack;
        var j :| 0 <= j < |g.stack| && g.stack[j] == k;
        assert Popped(g).stack[j] == k;
      }
    }
  }

  lemma ProcessListed(g: Graph, q: Graph)
    requires AllListed(g) && |g.stack| > 0 && g.stack[|g.stack| - 1] < |g.nodes|
    requires Grows(Popped(g), q) && q.nodes[g.stack[|g.stack| - 1]].processed
    ensures AllListed(q)
  {
    var h := Popped(g);
    forall k | 0 <= k < |q.nodes|
      ensures q.nodes[k].processed || k in q.stack
    {
      if k >= |h.nodes| {
        assert k in q.stack;
      } else if k != g.stack[|g.stack| - 1] && !g.nodes[k].processed {
        assert k in g.stack;
        var j :| 0 <= j < |g.stack| && g.stack[j] == k;
        assert h.stack[j] == k && q.stack[j] == k;
      }
    }
  }

  // ---- what a finished walk has found ----------------------------------------------------------------------

  /** Everything given has a node, and every node is processed. */
  ghost predicate Finished(g: Graph, blocks: Storage, s: Sets, limit: nat, given: set<Requirement>) {
    && Walking(g, blocks, s, limit, given, {}) && (forall r :: r in given ==> Absorbed(g, r))
    && forall k :: 0 <= k < |g.nodes| ==> g.nodes[k].processed
  }

  lemma HasExpanded(g: Graph, blocks: Storage, k: Key)
    requires Closed(g, blocks, {}) && Has(g, k) && forall n :: 0 <= n < |g.nodes| ==> g.nodes[n].processed
    ensures Expanded(g, blocks, k)
  {
    assert Expanded(g, blocks, KeyOf(g.nodes[g.byAddress[k.reference.address]].requirement));
  }

  lemma {:induction false} PathHas(g: Graph, blocks: Storage, s: Sets, limit: nat, given: set<Requirement>, path: seq<Key>, n: nat)
    requires Finished(g, blocks, s, limit, given) && IsPath(blocks, KeysOf(given), path) && n < |path|
    ensures Has(g, path[n])
  {
    hide Indexed, Grounded, Closed, Has, Expanded;
    if n == 0 {
      var r :| r in given && KeyOf(r) == path[0];
      assert Absorbed(g, r);
    } else {
      PathHas(g, blocks, s, limit, given, path, n - 1);
      HasExpanded(g, blocks, path[n - 1]);
      assert Refers(blocks, path[n - 1], path[n - 1 + 1]);
      ExpandedHas(g, blocks, path[n - 1], path[n]);
    }
  }

  lemma ExpandedHas(g: Graph, blocks: Storage, k: Key, l: Key)
    requires Expanded(g, blocks, k) && Refers(blocks, k, l)
    ensures Has(g, l)
  {
    var i :| 0 <= i < |blocks(k.reference, k.kind).value.outputs| && KeyOf(blocks(k.reference, k.kind).value.outputs[i]) == l;
    assert Absorbed(g, blocks(k.reference, k.kind).value.outputs[i]);
  }

  lemma ReachedHas(g: Graph, blocks: Storage, s: Sets, limit: nat, given: set<Requirement>, k: Key)
    requires Finished(g, blocks, s, limit, given) && Reached(blocks, KeysOf(given), k)
    ensures Has(g, k) && Expanded(g, blocks, k)
  {
    hide Reached, Indexed, Grounded, Has, Expanded, Closed;
    var path := PathTo(blocks, KeysOf(given), k);
    PathHas(g, blocks, s, limit, given, path, |path| - 1);
    HasExpanded(g, blocks, k);
  }

  lemma NeededIsMarked(g: Graph, blocks: Storage, s: Sets, limit: nat, given: set<Requirement>, i: nat)
    requires Finished(g, blocks, s, limit, given) && NeededBlock(blocks, KeysOf(given), i)
    ensures i in g.reachable
  {
    hide Reached, Grounded, Closed, Expanded;
    var k :| Reached(blocks, KeysOf(given), k) && k.reference.address == i + 1;
    ReachedHas(g, blocks, s, limit, given, k);
    assert AddressAt(g, s, i + 1);
  }

  lemma AskedIsAbsorbed(g: Graph, blocks: Storage, s: Sets, limit: nat, given: set<Requirement>, r: Requirement)
    requires Finished(g, blocks, s, limit, given) && Asked(blocks, given, r)
    ensures Absorbed(g, r) && Enterable(s, KeyOf(r)) && Readable(blocks, KeyOf(r))
  {
    hide Reached, Grounded, Closed, Absorbed;
    if r !in given {
      var k :| Reached(blocks, KeysOf(given), k) && OutputOf(blocks, k, r);
      ReachedHas(g, blocks, s, limit, given, k);
    }
    assert Has(g, KeyOf(r)) by { AbsorbedHas(g, r); }
    assert AddressAt(g, s, r.reference.address);
    HasExpanded(g, blocks, KeyOf(r));
  }

  lemma AbsorbedHas(g: Graph, r: Requirement)
    requires Absorbed(g, r)
    ensures Has(g, KeyOf(r))
  {
  }

  lemma AbsorbedAgree(g: Graph, r: Requirement, q: Requirement)
    requires Absorbed(g, r) && Absorbed(g, q) && r.reference.address == q.reference.address
    ensures !Conflict(r, q)
  {
  }

  /** A walk that finishes shows that the checkpoint is acceptable. */
  lemma FinishedAccepts(g: Graph, blocks: Storage, s: Sets, limit: nat, given: set<Requirement>)
    requires Finished(g, blocks, s, limit, given)
    ensures Acceptable(blocks, s, limit, given)
  {
    hide Finished, Asked, Absorbed, Conflict, NeededBlock;
    forall r | Asked(blocks, given, r) ensures Enterable(s, KeyOf(r)) && Readable(blocks, KeyOf(r)) {
      AskedIsAbsorbed(g, blocks, s, limit, given, r);
    }
    forall r, q | Asked(blocks, given, r) && Asked(blocks, given, q) && r.reference.address == q.reference.address
      ensures !Conflict(r, q)
    {
      AskedIsAbsorbed(g, blocks, s, limit, given, r);
      AskedIsAbsorbed(g, blocks, s, limit, given, q);
      AbsorbedAgree(g, r, q);
    }
    forall a: set<nat> | AllNeeded(blocks, KeysOf(given), a) ensures |a| <= limit {
      forall i | i in a ensures i in g.reachable {
        NeededIsMarked(g, blocks, s, limit, given, i);
      }
      FinishedSize(g, blocks, s, limit, given);
      SubsetSize(a, g.reachable);
    }
  }

  lemma FinishedSize(g: Graph, blocks: Storage, s: Sets, limit: nat, given: set<Requirement>)
    requires Finished(g, blocks, s, limit, given)
    ensures |g.reachable| <= limit
  {
    ReachableSize(g, s, limit);
  }

  lemma SubsetSize(a: set<nat>, b: set<nat>)
    requires a <= b
    ensures |a| <= |b|
  {
    assert b == a + (b - a);
  }
}
