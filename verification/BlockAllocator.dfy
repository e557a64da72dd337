/** The allocator as the object the replica drives: its scans, its retry loop and its two-phase release. */
module BlockAllocator {
  import opened Blocks
  import opened Chains
  import opened Allocator
  import opened AllocatorRuns

  /** The first `k` addresses are blocks. */
  predicate InRange(addresses: seq<nat>, count: nat, k: nat) {
    forall j :: 0 <= j < k && j < |addresses| ==> addresses[j] < count
  }

  function Ceiling(n: nat, d: nat): (r: nat)
    requires d > 0
  {
    (n + d - 1) / d
  }

  /** Encoded size in bytes of a set over a number of blocks. */
  type Encoding = (set<nat>, nat) -> nat

  /** How many trailer blocks the sets need if `addresses` hold them. */
  function Needed(s: Sets, addresses: seq<nat>, size: Encoding, payload: nat, sessionBlocks: nat): (r: nat)
    requires payload > 0
  {
    Ceiling(size(CheckpointAcquired(s, addresses), s.count), payload)
    + Ceiling(size(CheckpointReleased(s, addresses), s.count), payload) + sessionBlocks
  }

  // ---- reserving and giving up on top of a set of reservations -------------------------------

  ghost predicate Base(s: Sets) {
    Sound(s) && s.reserved == {} && !s.active
  }

  predicate HoldableSet(s: Sets, a: set<nat>, count: nat) {
    s.count <= count && forall i :: i in a ==> i < count && (i >= s.count || Available(s, i))
  }

  lemma HoldMore(s: Sets, a: set<nat>, count: nat, i: nat)
    requires Base(s) && HoldableSet(s, a, count) && Reservable(HoldingSet(s, a, count), i)
    ensures i !in a
    ensures var n := if i == count then count + 1 else count;
      Reserved(HoldingSet(s, a, count), i) == HoldingSet(s, a + {i}, n) && HoldableSet(s, a + {i}, n)
  {
    var n := if i == count then count + 1 else count;
    var q := Reserved(HoldingSet(s, a, count), i);
    assert q.released == s.released - (a + {i});
    assert q.reservedReleased == (a + {i}) * s.released;
    assert q.reserved == a + {i};
  }

  lemma HoldLess(s: Sets, a: set<nat>, count: nat, i: nat)
    requires Base(s) && HoldableSet(s, a, count) && i in a
    ensures Reserves(HoldingSet(s, a, count), i)
    ensures Forfeited(HoldingSet(s, a, count), i) == HoldingSet(s, a - {i}, count) && HoldableSet(s, a - {i}, count)
  {
    var q := Forfeited(HoldingSet(s, a, count), i);
    assert q.released == s.released - (a - {i});
    assert q.reservedReleased == (a - {i}) * s.released;
  }

  lemma HoldNothing(s: Sets)
    requires Base(s)
    ensures HoldingSet(s, {}, s.count) == s.(reservedReleased := {}) && s.reservedReleased == {}
  {
    assert s.released - {} == s.released;
  }

  lemma ElementsGrow(list: seq<nat>, i: nat)
    ensures Elements(list + [i]) == Elements(list) + {i}
  {
  }

  class BlockAllocator {
    const maximum: nat
    var count: nat
    var acquired: set<nat>
    var released: set<nat>
    var reserved: set<nat>
    var pending: set<nat>
    var reservedReleased: set<nat>
    var checkpoint: set<nat>
    var active: bool
    var generation: nat

    ghost function Value(): (s: Sets)
      reads this
    {
      Sets(count, maximum, acquired, released, reserved, pending, reservedReleased, checkpoint, active, generation)
    }

    /** `OpenBlockAllocator` on sets whose released blocks are all acquired. */
    constructor (maximum: nat, count: nat, acquired: set<nat>, released: set<nat>)
      requires released <= acquired
      ensures Value() == Opened(maximum, count, acquired, released)
    {
      this.maximum := maximum;
      this.count := count;
      this.acquired := acquired;
      this.released := released;
      reserved, pending, reservedReleased, checkpoint := {}, {}, {}, {};
      active, generation := false, 0;
    }

    /** `Reserve`: the lowest available block; a new one only when there is none. */
    method Reserve() returns (r: Option<nat>)
      modifies this
      ensures r.Some? ==> old(Reservable(Value(), r.value)) && Value() == Reserved(old(Value()), r.value)
      ensures r.Some? ==>
        && (r.value < old(count) ==> (r.value !in old(acquired) || r.value in old(released)) && r.value !in old(reserved))
        && (r.value >= old(count) ==> r.value == old(count) < maximum)
        && forall j: nat :: j < r.value ==> j in old(reserved) || (j in old(acquired) && j !in old(released))
      ensures r.Some? ==> reserved == old(reserved) + {r.value} && count == old(count) + if r.value == old(count) then 1 else 0
      ensures r.None? ==> Value() == old(Value()) && forall i :: !Reservable(Value(), i)
      ensures r.None? ==> count >= maximum && forall j: nat :: j < count ==> j in reserved || (j in acquired && j !in released)
    {
      var index := 0;
      while index < count
        invariant index <= count && Value() == old(Value())
        invariant forall j :: 0 <= j < index ==> !Available(Value(), j)
        invariant forall j: nat :: j < index ==> j in reserved || (j in acquired && j !in released)
      {
        if (index !in acquired || index in released) && index !in reserved {
          reserved := reserved + {index};
          if index in released {
            reservedReleased := reservedReleased + {index};
          }
          released := released - {index};
          return Some(index);
        }
        index := index + 1;
      }
      if count >= maximum {
        return None;
      }
      reserved := reserved + {count};
      released := released - {count};
      count := count + 1;
      return Some(index);
    }

    method Publish(index: nat) returns (ok: bool)
      modifies this
      ensures ok == old(Reserves(Value(), index)) == (index < old(count) && index in old(reserved))
      ensures ok ==> index in acquired && index !in released && reserved == old(reserved) - {index}
      ensures Value() == if ok then Published(old(Value()), index) else old(Value())
    {
      if index >= count || index !in reserved {
        return false;
      }
      reserved := reserved - {index};
      reservedReleased := reservedReleased - {index};
      released := released - {index};
      acquired := acquired + {index};
      return true;
    }

    method Forfeit(index: nat) returns (ok: bool)
      modifies this
      ensures ok == old(Reserves(Value(), index)) == (index < old(count) && index in old(reserved))
      ensures ok ==> acquired == old(acquired) && reserved == old(reserved) - {index}
      ensures Value() == if ok then Forfeited(old(Value()), index) else old(Value())
    {
      if index >= count || index !in reserved {
        return false;
      }
      reserved := reserved - {index};
      if index in reservedReleased {
        released := released + {index};
        reservedReleased := reservedReleased - {index};
      } else {
        assert reservedReleased == reservedReleased - {index};
      }
      return true;
    }

    method Release(index: nat) returns (ok: bool)
      modifies this
      ensures ok == old(Releasable(Value(), index))
      ensures ok <==> index < count && index in acquired && index !in reserved && index !in released && index !in old(pending)
      ensures Value() == if ok then old(Value()).(pending := old(pending) + {index}) else old(Value())
    {
      ok := index < count && index in acquired && index !in reserved && index !in released && index !in pending;
      if ok {
        pending := pending + {index};
      }
    }

    method CancelRelease(index: nat) returns (ok: bool)
      modifies this
      ensures ok == old(Cancellable(Value(), index))
      ensures ok <==> index < count && index in acquired && index !in reserved && index !in released && index in old(pending)
      ensures Value() == if ok then old(Value()).(pending := old(pending) - {index}) else old(Value())
    {
      ok := index < count && index in acquired && index !in reserved && index !in released && index in pending;
      if ok {
        pending := pending - {index};
      }
    }

    /** Reserves up to `wanted` addresses in all; stops early when storage is exhausted. */
    method ReserveUpTo(addresses: seq<nat>, wanted: nat, ghost s: Sets) returns (list: seq<nat>, ok: bool)
      requires Base(s) && Distinct(addresses) && HoldableSet(s, Elements(addresses), count)
      requires Value() == HoldingSet(s, Elements(addresses), count)
      modifies this
      ensures Distinct(list) && HoldableSet(s, Elements(list), count) && Value() == HoldingSet(s, Elements(list), count)
      ensures ok ==> |list| == if |addresses| >= wanted then |addresses| else wanted
    {
      list, ok := addresses, true;
      while |list| < wanted
        invariant |addresses| <= |list| && (|list| <= wanted || |list| == |addresses|)
        invariant Distinct(list) && HoldableSet(s, Elements(list), count) && Value() == HoldingSet(s, Elements(list), count)
        decreases wanted - |list|
      {
        ghost var before := count;
        var r := Reserve();
        if r.None? {
          ok := false;
          return;
        }
        HoldMore(s, Elements(list), before, r.value);
        ElementsGrow(list, r.value);
        list := list + [r.value];
      }
    }

    /** `forfeitAddresses` on the addresses from `k` on. */
    method ForfeitFrom(addresses: seq<nat>, k: nat, ghost s: Sets)
      requires Base(s) && Distinct(addresses) && k <= |addresses| && HoldableSet(s, Elements(addresses), count)
      requires Value() == HoldingSet(s, Elements(addresses), count)
      modifies this
      ensures HoldableSet(s, Elements(addresses[..k]), count) && Value() == HoldingSet(s, Elements(addresses[..k]), count)
      ensures count == old(count)
    {
      ghost var a := Elements(addresses);
      var j := k;
      while j < |addresses|
        invariant k <= j <= |addresses| && count == old(count)
        invariant HoldableSet(s, a, count) && Value() == HoldingSet(s, a, count)
        invariant forall m :: 0 <= m < |addresses| ==> (addresses[m] in a <==> m < k || m >= j)
        invariant forall i :: i in a ==> i in addresses
      {
        HoldLess(s, a, count, addresses[j]);
        var _ := Forfeit(addresses[j]);
        a := a - {addresses[j]};
        j := j + 1;
      }
      assert a == Elements(addresses[..k]);
    }

    /**
      `PrepareCheckpoint`: reserves trailer blocks until their number is exactly
      what the sets that include them need.  Success is a fixed point; failure
      leaves everything as it was, but for blocks added at the end of storage.
     */
    method PrepareCheckpoint(sessionSize: nat, payload: nat, size: Encoding) returns (r: Option<Candidate>)
      requires Sound(Value())
      modifies this
      ensures r.None? ==> count >= old(count) && Value() == old(Value()).(count := count)
      ensures r.Some? ==>
        var s := old(Value());
        var a := r.value.addresses;
        && payload > 0 && sessionSize > 0 && Base(s) && Distinct(a) && Holdable(s, a, count)
        && Value() == Prepared(Holding(s, a, count)) && r.value == CandidateOf(Holding(s, a, count), a)
        && |a| == Needed(Holding(s, a, count), a, size, payload, Ceiling(sessionSize, payload))
    {
      if active || reserved != {} {
        return None;
      }
      if payload == 0 || sessionSize == 0 {
        return None;
      }
      ghost var s := Value();
      HoldNothing(s);
      assert Elements([]) == {};
      var sessionBlocks := Ceiling(sessionSize, payload);
      var addresses, ok := ReserveUpTo([], sessionBlocks + 2, s);
      if !ok {
        GiveUp(addresses, s);
        return None;
      }
      var attempt := 0;
      while attempt < 64
        invariant Distinct(addresses) && HoldableSet(s, Elements(addresses), count) && s == old(Value())
        invariant Value() == HoldingSet(s, Elements(addresses), count)
      {
        var a := set i: nat | i in addresses;
        var required := Ceiling(size(acquired + a, count), payload)
                        + Ceiling(size((released + pending) - a, count), payload) + sessionBlocks;
        assert required == Needed(Holding(s, addresses, count), addresses, size, payload, sessionBlocks);
        if required > |addresses| {
          addresses, ok := ReserveUpTo(addresses, required, s);
          if !ok {
            GiveUp(addresses, s);
            return None;
          }
        } else if required < |addresses| {
          ForfeitFrom(addresses, required, s);
          addresses := addresses[..required];
        } else {
          r := Some(Candidate(generation + 1, count, acquired + a, (released + pending) - a, addresses));
          assert forall k :: 0 <= k < |addresses| ==> addresses[k] in Elements(addresses);
          checkpoint, active, generation := pending, true, generation + 1;
          return;
        }
        attempt := attempt + 1;
      }
      GiveUp(addresses, s);
      return None;
    }

    /** Giving up every reservation restores the sets. */
    method GiveUp(addresses: seq<nat>, ghost s: Sets)
      requires Base(s) && Distinct(addresses) && HoldableSet(s, Elements(addresses), count)
      requires Value() == HoldingSet(s, Elements(addresses), count)
      modifies this
      ensures count == old(count) && Value() == s.(count := count)
    {
      ForfeitFrom(addresses, 0, s);
      HoldNothing(s);
      assert Elements(addresses[..0]) == {};
      assert s.released - {} == s.released;
    }

    /** `CheckpointDurable`: refused unless every trailer is stored and nothing to be released is reachable. */
    method CheckpointDurable(c: Candidate, reachable: set<nat>) returns (ok: bool)
      modifies this
      ensures ok <==> old(Completable(Value(), c, reachable))
      ensures ok ==> !active && checkpoint == {} && acquired == old(acquired) && reserved == old(reserved)
      ensures ok ==> forall i: nat :: i in released <==> i in old(released) || (i in old(checkpoint) && i < c.count)
      ensures ok ==> forall i: nat :: i in pending <==> i in old(pending) && !(i in old(checkpoint) && i < c.count)
      ensures Value() == if ok then Completed(old(Value()), c) else old(Value())
    {
      if !active || c.generation != generation || c.count > count {
        return false;
      }
      for k := 0 to |c.addresses|
        invariant Value() == old(Value())
        invariant forall j :: 0 <= j < k ==> TrailerStored(Value(), c.addresses[j])
      {
        var index := c.addresses[k];
        if index >= count || index in reserved || index !in acquired || index in released || index in pending {
          assert !TrailerStored(Value(), c.addresses[k]);
          return false;
        }
      }
      for index := 0 to c.count
        invariant Value() == old(Value())
        invariant forall i :: i in checkpoint && i < index ==> i !in reachable
      {
        if index in checkpoint && index in reachable {
          return false;
        }
      }
      ghost var done: set<nat> := {};
      for index := 0 to c.count
        invariant forall i :: i in done <==> i in checkpoint && i < index
        invariant Value() == old(Value()).(pending := old(pending) - done, released := old(released) + done)
      {
        if index in checkpoint {
          pending := pending - {index};
          released := released + {index};
          done := done + {index};
        }
      }
      assert done == set i | i in old(checkpoint) && i < c.count;
      checkpoint, active := {}, false;
      return true;
    }

    /**
      `AbortCheckpoint`: gives up the trailers of the current checkpoint.  At an
      address that is not a block it stops, with the checkpoint still active and
      only the addresses before it given up.
     */
    method AbortCheckpoint(c: Candidate) returns (ok: bool)
      modifies this
      ensures ok == old(active && c.generation == generation && InRange(c.addresses, count, |c.addresses|))
      ensures ok ==> Value() == Aborted(old(Value()), c.addresses) && !active && checkpoint == {} && acquired == old(acquired)
      ensures !old(active && c.generation == generation) ==> Value() == old(Value())
      ensures !ok && old(active && c.generation == generation) ==>
        exists k :: 0 <= k < |c.addresses| && c.addresses[k] >= count && InRange(c.addresses, count, k)
                    && Value() == AbortedUpTo(old(Value()), c.addresses, k)
    {
      if !active || c.generation != generation {
        return false;
      }
      for k := 0 to |c.addresses|
        invariant count == old(count) && acquired == old(acquired) && Value() == AbortedUpTo(old(Value()), c.addresses, k)
        invariant InRange(c.addresses, count, k)
      {
        var index := c.addresses[k];
        if index >= count {
          return false;
        }
        if index in reserved {
          var _ := Forfeit(index);
        } else if index in acquired && index !in pending && index !in released {
          var _ := Release(index);
        }
      }
      checkpoint, active := {}, false;
      return true;
    }
  }
}
