/**
  The walk that decides which blocks a checkpoint needs
  (replication/checkpoint_reachability.go), as the object that carries it out.
 */
module Reachability {
  import opened Allocator
  import opened Blocks
  import opened Chains
  import opened References
  import opened WalkState

  /** Why a walk may stop: the checkpoint is not acceptable, or some block is not what is asked for. */
  ghost predicate Refusable(blocks: Storage, s: Sets, limit: nat, given: set<Requirement>) {
    !Acceptable(blocks, s, limit, given) || !AllMatch(blocks, given)
  }

  class CheckpointGraph {
    const blocks: Storage
    const sets: Sets
    const limit: nat
    var nodes: seq<Node>
    var byAddress: map<nat, nat>
    var stack: seq<nat>
    var reachable: set<nat>

    ghost function Value(): (g: Graph)
      reads this
    {
      Graph(nodes, byAddress, stack, reachable)
    }

    constructor (blocks: Storage, sets: Sets, limit: nat)
      ensures this.blocks == blocks && this.sets == sets && this.limit == limit
      ensures Value() == EMPTY
    {
      this.blocks, this.sets, this.limit := blocks, sets, limit;
      nodes, byAddress, stack, reachable := [], map[], [], {};
    }

    /** `enqueue`: refuses, or holds the node of the address to the requirement too, or adds a node. */
    method Enqueue(r: Requirement) returns (index: Option<nat>)
      requires Indexed(Value(), sets, limit)
      modifies this
      ensures index.None? <==> old(Blocked(Value(), sets, limit, r))
      ensures index.None? ==> Value() == old(Value())
      ensures index.Some? ==>
        && r.reference.address > 0 && Value() == Entered(old(Value()), r)
        && r.reference.address in byAddress && index.value == byAddress[r.reference.address]
    {
      hide NodeAt;
      if r.reference.address == 0 || r.reference.checksum == 0 || r.kind == FreeSet || r.kind == ClientSessions {
        return None;
      }
      var block := r.reference.address - 1;
      if block >= sets.count {
        return None;
      }
      if r.reference.address in byAddress {
        assert AddressAt(Value(), sets, r.reference.address);
        var known := byAddress[r.reference.address];
        var requirement := nodes[known].requirement;
        if Conflict(requirement, r) {
          return None;
        }
        assert KeyOf(requirement) == KeyOf(r);
        if r.exact {
          requirement := requirement.(snapshot := r.snapshot, exact := true);
        }
        if r.bodySize != 0 {
          requirement := requirement.(bodySize := r.bodySize);
        }
        nodes := nodes[known := Node(requirement, nodes[known].processed)];
        return Some(known);
      }
      if block !in sets.acquired || block in sets.released || block in sets.pending {
        return None;
      }
      if |nodes| >= limit {
        return None;
      }
      var added := |nodes|;
      reachable := reachable + {block};
      nodes := nodes + [Node(r, false)];
      byAddress := byAddress[r.reference.address := added];
      stack := stack + [added];
      return Some(added);
    }

    /** Enqueues something that is asked for. */
    method Enter(r: Requirement, ghost given: set<Requirement>, ghost open: set<nat>) returns (index: Option<nat>)
      requires Walking(Value(), blocks, sets, limit, given, open) && Asked(blocks, given, r)
      modifies this
      ensures index.Some? ==>
        && Walking(Value(), blocks, sets, limit, given, open) && Extends(old(Value()), Value()) && Absorbed(Value(), r)
        && index.value == byAddress[r.reference.address] < |nodes|
        && (forall k :: |old(nodes)| <= k < |nodes| ==> nodes[k].requirement == r)
        && (r.reference.address !in old(byAddress) ==> |old(nodes)| == index.value)
      ensures index.None? ==> !Acceptable(blocks, sets, limit, given)
    {
      hide Grounded, Closed, Indexed, Asked, Acceptable, Blocked, Extends;
      ghost var g := Value();
      index := Enqueue(r);
      if index.None? {
        BlockedIsDefect(g, blocks, sets, limit, given, open, r);
      } else {
        EnteredWalking(g, blocks, sets, limit, given, open, r);
      }
    }

    /** The loop of `process` over what the block refers to. */
    method Expand(k: Key, outputs: seq<Requirement>, ghost given: set<Requirement>, ghost open: set<nat>) returns (ok: bool)
      requires Readable(blocks, k) && blocks(k.reference, k.kind).value.outputs == outputs
      requires Walking(Value(), blocks, sets, limit, given, open) && Reached(blocks, KeysOf(given), k)
      modifies this
      ensures ok ==>
        && Walking(Value(), blocks, sets, limit, given, open) && Extends(old(Value()), Value())
        && Expanded(Value(), blocks, k)
        && (forall n :: |old(nodes)| <= n < |nodes| ==> Refers(blocks, k, KeyOf(nodes[n].requirement)))
      ensures !ok ==> !Acceptable(blocks, sets, limit, given)
    {
      hide Walking, Absorbed, Acceptable, Reached, Extends, Refers;
      GrowsReflexive(Value());
      var output := 0;
      while output < |outputs|
        invariant 0 <= output <= |outputs|
        invariant Walking(Value(), blocks, sets, limit, given, open) && Extends(old(Value()), Value())
        invariant forall n :: |old(nodes)| <= n < |nodes| ==> Refers(blocks, k, KeyOf(nodes[n].requirement))
        invariant forall i :: 0 <= i < output ==> Absorbed(Value(), outputs[i])
      {
        ghost var g := Value();
        OutputAsked(blocks, given, k, outputs[output]);
        var added := Enter(outputs[output], given, open);
        if added.None? {
          return false;
        }
        ExtendsTrans(old(Value()), g, Value());
        EarlierAbsorbed(g, Value(), outputs[..output]);
        NewRefers(g, Value(), blocks, k);
        output := output + 1;
      }
      return true;
    }

    /** `process`: reads and validates a block once, then enqueues everything it refers to. */
    method Process(index: nat, ghost given: set<Requirement>) returns (ok: bool, r: Option<Block>)
      requires index < |nodes| && Walking(Value(), blocks, sets, limit, given, {})
      modifies this
      ensures old(nodes[index].processed) ==> ok && r == None && Value() == old(Value())
      ensures ok && !old(nodes[index].processed) ==>
        var k := KeyOf(old(nodes)[index].requirement);
        && Walking(Value(), blocks, sets, limit, given, {}) && Grows(old(Value()), Value())
        && index < |nodes| && nodes[index].processed && Processed(Value()) == Processed(old(Value())) + 1
        && r == blocks(k.reference, k.kind) && r.Some?
        && (forall n :: |old(nodes)| <= n < |nodes| ==> Refers(blocks, k, KeyOf(nodes[n].requirement)))
      ensures !ok ==> Refusable(blocks, sets, limit, given)
    {
      hide Walking, Expanded, Processed, Grows, Extends, Acceptable, AllMatch, Refers;
      if nodes[index].processed {
        return true, None;
      }
      var requirement := nodes[index].requirement;
      ghost var g := Value();
      r := blocks(requirement.reference, requirement.kind);
      if r.None? || (requirement.exact && r.value.snapshot != requirement.snapshot)
         || (requirement.bodySize != 0 && r.value.bodySize != requirement.bodySize) {
        UnfitIsDefect(g, blocks, sets, limit, given, {}, index);
        return false, None;
      }
      nodes := nodes[index := Node(requirement, true)];
      MarkWalks(g, blocks, sets, limit, given, index);
      NodeReached(g, blocks, sets, limit, given, index);
      ok := Expand(KeyOf(requirement), r.value.outputs, given, {index});
      if !ok {
        return false, None;
      }
      DoneWalks(g, Value(), blocks, sets, limit, given, index);
      SameSize(Marked(g, index), Value());
    }

    /** `visitManifestChain`: from the newest manifest block back to the oldest, each seen once. */
    method VisitManifestChain(newest: Reference, oldest: Reference, count: nat, ghost given: set<Requirement>)
      returns (ok: bool)
      requires Walking(Value(), blocks, sets, limit, given, {}) && Value() == EMPTY
      requires forall i :: 0 <= i < |ManifestChain(blocks, newest, count)| ==>
                 ManifestRequirement(ManifestChain(blocks, newest, count)[i]) in given
      modifies this
      ensures ok ==>
        var chain := ManifestChain(blocks, newest, count);
        && Walking(Value(), blocks, sets, limit, given, {}) && Stacked(EMPTY, Value())
        && (forall i :: 0 <= i < |chain| ==> Absorbed(Value(), ManifestRequirement(chain[i])))
        && |chain| == count && ChainOK(blocks, chain, oldest, count)
        && (count > 0 ==> chain[count - 1] == Key(oldest, Kind.Manifest))
      ensures !ok ==>
        Refusable(blocks, sets, limit, given) || !ChainOK(blocks, ManifestChain(blocks, newest, count), oldest, count)
    {
      hide Walking, ManifestChain, Stacked, Visited, LinkOK, Refusable, Absorbed;
      var current := newest;
      var ordinal := 0;
      ghost var chain := ManifestChain(blocks, newest, count);
      NoneVisited(Value(), blocks, chain);
      ChainHead(blocks, newest, count);
      assert chain[0..] == chain;
      while ordinal < count
        invariant ordinal <= count && Walking(Value(), blocks, sets, limit, given, {}) && Stacked(EMPTY, Value())
        invariant ordinal <= |chain| && chain[ordinal..] == ManifestChain(blocks, current, count - ordinal)
        invariant Visited(Value(), blocks, chain, ordinal)
        invariant forall n: nat :: n < ordinal ==> LinkOK(blocks, chain, n, oldest, count)
        invariant ordinal == count > 0 ==> chain[count - 1] == Key(oldest, Kind.Manifest)
      {
        ChainHead(blocks, current, count - ordinal);
        SliceNext(chain, ordinal);
        ghost var revisits := Revisits(blocks, chain, ordinal);
        var result := VisitManifest(current, chain, ordinal, given);
        if result.None? {
          assert revisits ==> !LinkOK(blocks, chain, ordinal, oldest, count) by {
            BadLink(blocks, chain, ordinal, oldest, count);
          }
          return false;
        }
        assert Readable(blocks, chain[ordinal]);
        CheckLink(blocks, chain, ordinal, oldest, count);
        var previous := result.value.previous;
        ordinal := ordinal + 1;
        if ordinal == count {
          if current != oldest || previous != NO_REFERENCE {
            return false;
          }
        } else {
          if previous == NO_REFERENCE {
            return false;
          }
        }
        current := previous;
      }
      ChainHead(blocks, current, 0);
      assert chain[ordinal..] == [] && |chain| == count;
      VisitedAbsorbed(Value(), blocks, chain);
      return true;
    }

    /** One manifest block: not met before, entered as a root and processed. */
    method VisitManifest(current: Reference, ghost chain: seq<Key>, ghost n: nat, ghost given: set<Requirement>)
      returns (result: Option<Block>)
      requires Walking(Value(), blocks, sets, limit, given, {}) && Stacked(EMPTY, Value())
      requires n < |chain| && chain[n] == Key(current, Kind.Manifest) && ManifestRequirement(chain[n]) in given
      requires Visited(Value(), blocks, chain, n)
      modifies this
      ensures result.Some? ==>
        && Walking(Value(), blocks, sets, limit, given, {}) && Stacked(EMPTY, Value())
        && Visited(Value(), blocks, chain, n + 1) && !Revisits(blocks, chain, n) && blocks(current, Kind.Manifest) == result
      ensures result.None? ==> Refusable(blocks, sets, limit, given) || Revisits(blocks, chain, n)
    {
      hide Walking, Grows, Extends, Stacked, Processed, Visited, Revisits, Acceptable, AllMatch, Refers, Asked, Absorbed;
      ghost var g := Value();
      if current.address in byAddress {
        MetBefore(g, blocks, sets, limit, given, chain, n);
        return None;
      }
      NotMetBefore(g, blocks, sets, limit, given, chain, n);
      GivenAsked(blocks, given, ManifestRequirement(chain[n]));
      var index := Enter(ManifestRequirement(Key(current, Kind.Manifest)), given, {});
      if index.None? {
        return None;
      }
      ghost var h := Value();
      NewUnprocessed(g, h, index.value);
      var ok, block := Process(index.value, given);
      if !ok {
        return None;
      }
      VisitedMore(g, h, Value(), blocks, chain, n, index.value);
      return block;
    }

    /** `visitStack`: expands nodes until none is left; every expansion uses up one of at most `limit` nodes. */
    method VisitStack(ghost given: set<Requirement>) returns (ok: bool)
      requires Walking(Value(), blocks, sets, limit, given, {}) && AllListed(Value())
      modifies this
      ensures ok ==>
        && Walking(Value(), blocks, sets, limit, given, {})
        && (forall k :: 0 <= k < |nodes| ==> nodes[k].processed)
        && (forall r :: old(Absorbed(Value(), r)) ==> Absorbed(Value(), r))
      ensures !ok ==> Refusable(blocks, sets, limit, given)
    {
      hide Walking, Absorbed, Processed, Grows, Stacked, Refusable, AllListed, Refers;
      while |stack| > 0
        invariant Walking(Value(), blocks, sets, limit, given, {}) && AllListed(Value())
        invariant forall r :: old(Absorbed(Value(), r)) ==> Absorbed(Value(), r)
        decreases limit - Processed(Value()), |stack|
      {
        ghost var g := Value();
        var index := stack[|stack| - 1];
        stack := stack[..|stack| - 1];
        ghost var h := Value();
        PopWalks(g, blocks, sets, limit, given);
        if nodes[index].processed {
          PopListed(g);
        } else {
          var result;
          ok, result := Process(index, given);
          if !ok {
            return false;
          }
          ProcessListed(g, Value());
          ProcessedBound(Value(), blocks, sets, limit, given);
          forall r | Absorbed(h, r)
            ensures Absorbed(Value(), r)
          {
            GrowsAbsorbed(h, Value(), r);
          }
        }
      }
      NoneLeft(Value());
      return true;
    }
  }

  lemma OutputAsked(blocks: Storage, given: set<Requirement>, k: Key, r: Requirement)
    requires Readable(blocks, k) && r in blocks(k.reference, k.kind).value.outputs && Reached(blocks, KeysOf(given), k)
    ensures Asked(blocks, given, r) && Refers(blocks, k, KeyOf(r))
  {
    assert OutputOf(blocks, k, r);
    var i :| 0 <= i < |blocks(k.reference, k.kind).value.outputs| && blocks(k.reference, k.kind).value.outputs[i] == r;
  }

  lemma GivenAsked(blocks: Storage, given: set<Requirement>, r: Requirement)
    requires r in given
    ensures Asked(blocks, given, r)
  {
  }

  lemma EarlierAbsorbed(g: Graph, h: Graph, rs: seq<Requirement>)
    requires Extends(g, h)
    ensures forall i :: 0 <= i < |rs| && Absorbed(g, rs[i]) ==> Absorbed(h, rs[i])
  {
    hide Grows, Absorbed;
    forall i | 0 <= i < |rs| && Absorbed(g, rs[i]) ensures Absorbed(h, rs[i]) { GrowsAbsorbed(g, h, rs[i]); }
  }

  lemma NewRefers(g: Graph, h: Graph, blocks: Storage, k: Key)
    requires Extends(g, h)
    ensures |g.nodes| <= |h.nodes|
    ensures forall n :: 0 <= n < |g.nodes| ==> KeyOf(h.nodes[n].requirement) == KeyOf(g.nodes[n].requirement)
  {
  }

  lemma NodeReached(g: Graph, blocks: Storage, s: Sets, limit: nat, given: set<Requirement>, k: nat)
    requires Walking(g, blocks, s, limit, given, {}) && k < |g.nodes|
    ensures Reached(blocks, KeysOf(given), KeyOf(g.nodes[k].requirement))
  {
    hide Indexed, Closed, Reached, Asked;
    assert Backed(blocks, given, g.nodes[k].requirement);
    var r :| Asked(blocks, given, r) && KeyOf(r) == KeyOf(g.nodes[k].requirement);
    AskedReached(blocks, given, r);
  }

  lemma SameSize(g: Graph, h: Graph)
    requires Extends(g, h)
    ensures |g.nodes| <= |h.nodes|
  {
  }

  lemma ProcessedBound(g: Graph, blocks: Storage, s: Sets, limit: nat, given: set<Requirement>)
    requires Walking(g, blocks, s, limit, given, {})
    ensures Processed(g) <= limit
  {
  }

  lemma NoneLeft(g: Graph)
    requires AllListed(g) && g.stack == []
    ensures forall k :: 0 <= k < |g.nodes| ==> g.nodes[k].processed
  {
  }

  lemma SliceNext(chain: seq<Key>, n: nat)
    requires n <= |chain| && chain[n..] != []
    ensures n < |chain| && chain[n] == chain[n..][0] && chain[n..][1..] == chain[n + 1..]
  {
  }

  // ---- the manifest chain ------------------------------------------------------------------------------

  /** The first `n` manifest blocks are processed, and every node comes from them. */
  ghost predicate Visited(g: Graph, blocks: Storage, chain: seq<Key>, n: nat) {
    && n <= |chain|
    && (forall m :: 0 <= m < n ==> Has(g, chain[m]) && g.nodes[g.byAddress[chain[m].reference.address]].processed)
    && (forall k :: 0 <= k < |g.nodes| ==> FromChain(blocks, chain, n, KeyOf(g.nodes[k].requirement)))
  }

  lemma NoneVisited(g: Graph, blocks: Storage, chain: seq<Key>)
    requires g == EMPTY
    ensures Visited(g, blocks, chain, 0) && Stacked(EMPTY, g)
  {
  }

  lemma VisitedAbsorbed(g: Graph, blocks: Storage, chain: seq<Key>)
    requires Visited(g, blocks, chain, |chain|)
    ensures forall i :: 0 <= i < |chain| ==> Absorbed(g, ManifestRequirement(chain[i]))
  {
    forall i | 0 <= i < |chain| ensures Absorbed(g, ManifestRequirement(chain[i])) {
      assert Has(g, chain[i]);
    }
  }

  lemma MetBefore(g: Graph, blocks: Storage, s: Sets, limit: nat, given: set<Requirement>, chain: seq<Key>, n: nat)
    requires Walking(g, blocks, s, limit, given, {}) && Visited(g, blocks, chain, n) && n < |chain|
    requires chain[n].reference.address in g.byAddress
    ensures Revisits(blocks, chain, n)
  {
    hide FromChain, Closed, Grounded, Has;
    assert AddressAt(g, s, chain[n].reference.address);
    var k := g.byAddress[chain[n].reference.address];
    assert FromChain(blocks, chain, n, KeyOf(g.nodes[k].requirement));
  }

  lemma NotMetBefore(g: Graph, blocks: Storage, s: Sets, limit: nat, given: set<Requirement>, chain: seq<Key>, n: nat)
    requires Walking(g, blocks, s, limit, given, {}) && Visited(g, blocks, chain, n) && n < |chain|
    requires chain[n].reference.address !in g.byAddress
    ensures !Revisits(blocks, chain, n)
  {
    hide Indexed, Grounded, Expanded, Refers;
    forall k | FromChain(blocks, chain, n, k)
      ensures k.reference.address in g.byAddress
    {
      var m :| 0 <= m < n <= |chain| && (chain[m] == k || Refers(blocks, chain[m], k));
      assert Has(g, chain[m]);
      if chain[m] != k {
        assert Expanded(g, blocks, KeyOf(g.nodes[g.byAddress[chain[m].reference.address]].requirement));
        ExpandedHas(g, blocks, chain[m], k);
      }
    }
  }

  lemma NewUnprocessed(g: Graph, h: Graph, index: nat)
    requires Extends(g, h) && index == |g.nodes| < |h.nodes|
    ensures !h.nodes[index].processed
  {
  }

  lemma GrowsVisited(g: Graph, q: Graph, blocks: Storage, chain: seq<Key>, n: nat, m: nat)
    requires Grows(g, q) && Visited(g, blocks, chain, n) && m < n
    ensures Has(q, chain[m]) && q.nodes[q.byAddress[chain[m].reference.address]].processed
  {
    hide FromChain, Stacked;
    assert Has(g, chain[m]);
    var k := g.byAddress[chain[m].reference.address];
    assert Refines(q.nodes[k].requirement, g.nodes[k].requirement);
  }

  lemma FromMore(blocks: Storage, chain: seq<Key>, n: nat, k: Key)
    requires n < |chain| && (FromChain(blocks, chain, n, k) || k == chain[n] || Refers(blocks, chain[n], k))
    ensures FromChain(blocks, chain, n + 1, k)
  {
  }

  lemma VisitedMore(g: Graph, h: Graph, q: Graph, blocks: Storage, chain: seq<Key>, n: nat, index: nat)
    requires Visited(g, blocks, chain, n) && n < |chain| && Stacked(EMPTY, g)
    requires Extends(g, h) && Absorbed(h, ManifestRequirement(chain[n])) && h.byAddress[chain[n].reference.address] == index
    requires index == |g.nodes| < |h.nodes|
    requires forall k :: |g.nodes| <= k < |h.nodes| ==> h.nodes[k].requirement == ManifestRequirement(chain[n])
    requires Grows(h, q) && q.nodes[index].processed
    requires forall k :: |h.nodes| <= k < |q.nodes| ==> Refers(blocks, chain[n], KeyOf(q.nodes[k].requirement))
    ensures Visited(q, blocks, chain, n + 1) && Stacked(EMPTY, q)
  {
    hide FromChain, Refers;
    GrowsTrans(g, h, q);
    StackedTrans(EMPTY, g, q);
    forall m | 0 <= m < n + 1
      ensures Has(q, chain[m]) && q.nodes[q.byAddress[chain[m].reference.address]].processed
    {
      if m < n {
        GrowsVisited(g, q, blocks, chain, n, m);
      } else {
        GrowsAbsorbed(h, q, ManifestRequirement(chain[n]));
      }
    }
    forall k | 0 <= k < |q.nodes|
      ensures FromChain(blocks, chain, n + 1, KeyOf(q.nodes[k].requirement))
    {
      if k < |g.nodes| {
        assert Refines(q.nodes[k].requirement, g.nodes[k].requirement);
      } else if k < |h.nodes| {
        assert Refines(q.nodes[k].requirement, h.nodes[k].requirement);
      }
      FromMore(blocks, chain, n, KeyOf(q.nodes[k].requirement));
    }
  }

  lemma BadLink(blocks: Storage, chain: seq<Key>, n: nat, oldest: Reference, count: nat)
    requires n < |chain|
    ensures Revisits(blocks, chain, n) ==> !LinkOK(blocks, chain, n, oldest, count)
  {
  }

  /** The check at the end of a round decides whether the link is right. */
  lemma CheckLink(blocks: Storage, chain: seq<Key>, n: nat, oldest: Reference, count: nat)
    requires n < |chain| && Readable(blocks, chain[n]) && !Revisits(blocks, chain, n)
    ensures var previous := blocks(chain[n].reference, chain[n].kind).value.previous;
      LinkOK(blocks, chain, n, oldest, count) <==>
        if n + 1 == count then chain[n].reference == oldest && previous == NO_REFERENCE else previous != NO_REFERENCE
  {
    hide Revisits;
  }

  // ---- the result -----------------------------------------------------------------------------------------

  /**
    `checkpointApplicationReachability`.  A success marks exactly the blocks that
    some chain of references from the manifest blocks and the root arrives at,
    all of them in use and at most `limit`.  It needs a well-formed manifest
    chain and an acceptable checkpoint; and if every block is what is asked for
    it, those are also enough, so that nothing else is ever refused.
   */
  method Resolve(blocks: Storage, sets: Sets, limit: nat, newest: Reference, oldest: Reference, count: nat,
                 root: Option<Requirement>)
    returns (r: Option<set<nat>>)
    ensures r.Some? ==>
      var given := Given(blocks, newest, count, root);
      && (forall i: nat :: i in r.value <==> NeededBlock(blocks, KeysOf(given), i))
      && (forall i :: i in r.value ==> InUse(sets, i)) && |r.value| <= limit
      && |ManifestChain(blocks, newest, count)| == count
      && (count > 0 ==> ManifestChain(blocks, newest, count)[count - 1] == Key(oldest, Kind.Manifest))
    ensures r.Some? ==>
      && Acceptable(blocks, sets, limit, Given(blocks, newest, count, root))
      && ChainOK(blocks, ManifestChain(blocks, newest, count), oldest, count)
    ensures AllMatch(blocks, Given(blocks, newest, count, root)) ==>
      (r.Some? <==> Acceptable(blocks, sets, limit, Given(blocks, newest, count, root))
                    && ChainOK(blocks, ManifestChain(blocks, newest, count), oldest, count))
  {
    hide Walking, AllListed, NeededBlock, InUse, ManifestChain, Acceptable, AllMatch, ChainOK, Absorbed, Asked;
    ghost var given := Given(blocks, newest, count, root);
    ghost var chain := ManifestChain(blocks, newest, count);
    var graph := new CheckpointGraph(blocks, sets, limit);
    EmptyWalk(blocks, sets, limit, given);
    var ok := graph.VisitManifestChain(newest, oldest, count, given);
    if !ok {
      return None;
    }
    ghost var g := graph.Value();
    AllStacked(g);
    if root.Some? {
      GivenAsked(blocks, given, root.value);
      var index := graph.Enter(root.value, given, {});
      if index.None? {
        return None;
      }
      ExtendsListed(g, graph.Value());
      ChainAbsorbed(g, graph.Value(), chain);
    }
    GivenAbsorbed(graph.Value(), blocks, newest, count, root, chain);
    ok := graph.VisitStack(given);
    if !ok {
      return None;
    }
    assert Finished(graph.Value(), blocks, sets, limit, given);
    FinishedMarks(graph.Value(), blocks, sets, limit, given);
    FinishedAccepts(graph.Value(), blocks, sets, limit, given);
    return Some(graph.reachable);
  }

  lemma ChainAbsorbed(g: Graph, h: Graph, chain: seq<Key>)
    requires Extends(g, h) && forall i :: 0 <= i < |chain| ==> Absorbed(g, ManifestRequirement(chain[i]))
    ensures forall i :: 0 <= i < |chain| ==> Absorbed(h, ManifestRequirement(chain[i]))
  {
    hide Grows, Absorbed;
    forall i | 0 <= i < |chain| ensures Absorbed(h, ManifestRequirement(chain[i])) {
      GrowsAbsorbed(g, h, ManifestRequirement(chain[i]));
    }
  }

  lemma GivenAbsorbed(g: Graph, blocks: Storage, newest: Reference, count: nat, root: Option<Requirement>, chain: seq<Key>)
    requires chain == ManifestChain(blocks, newest, count)
    requires forall i :: 0 <= i < |chain| ==> Absorbed(g, ManifestRequirement(chain[i]))
    requires root.Some? ==> Absorbed(g, root.value)
    ensures forall q :: q in Given(blocks, newest, count, root) ==> Absorbed(g, q)
  {
    hide Absorbed;
    forall q | q in Given(blocks, newest, count, root)
      ensures Absorbed(g, q)
    {
      if i :| 0 <= i < |chain| && ManifestRequirement(chain[i]) == q {
        assert Absorbed(g, ManifestRequirement(chain[i]));
      }
    }
  }

  lemma FinishedMarks(g: Graph, blocks: Storage, s: Sets, limit: nat, given: set<Requirement>)
    requires Finished(g, blocks, s, limit, given)
    ensures forall i: nat :: i in g.reachable <==> NeededBlock(blocks, KeysOf(given), i)
    ensures (forall i :: i in g.reachable ==> InUse(s, i)) && |g.reachable| <= limit
  {
    hide Walking, NeededBlock, InUse;
    forall i: nat
      ensures i in g.reachable <==> NeededBlock(blocks, KeysOf(given), i)
      ensures i in g.reachable ==> InUse(s, i)
    {
      if i in g.reachable { MarkedIsNeeded(g, blocks, s, limit, given, {}, i); }
      if NeededBlock(blocks, KeysOf(given), i) { NeededIsMarked(g, blocks, s, limit, given, i); }
    }
    FinishedSize(g, blocks, s, limit, given);
  }
}
