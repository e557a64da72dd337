/**
  The session table in slots (replication/sessions.go): with one reply being
  stored at a time it behaves as the map of module Sessions.
 */
module SessionTable {
  import opened Chains
  import opened Sessions

  datatype Slot = Free | Used(client: Client, record: Record)

  predicate DistinctClients(slots: seq<Slot>) {
    forall i, j :: 0 <= i < j < |slots| && slots[i].Used? && slots[j].Used? ==> slots[i].client != slots[j].client
  }

  /** The table the first `n` slots hold. */
  function Held(slots: seq<Slot>, n: nat): (t: Table)
    requires n <= |slots|
  {
    if n == 0 then map[]
    else if slots[n - 1].Used? then Held(slots, n - 1)[slots[n - 1].client := slots[n - 1].record]
    else Held(slots, n - 1)
  }

  function UsedUpTo(slots: seq<Slot>, n: nat): (r: nat)
    requires n <= |slots|
    ensures r <= n
  {
    if n == 0 then 0 else UsedUpTo(slots, n - 1) + if slots[n - 1].Used? then 1 else 0
  }

  function AsTable(slots: seq<Slot>): (t: Table) {
    Held(slots, |slots|)
  }

  predicate Holds(slots: seq<Slot>, n: nat, c: Client) {
    exists i :: 0 <= i < n <= |slots| && slots[i].Used? && slots[i].client == c
  }

  lemma {:induction false} HeldKeys(slots: seq<Slot>, n: nat, c: Client)
    requires n <= |slots|
    ensures c in Held(slots, n) <==> Holds(slots, n, c)
  {
    if n > 0 { HeldKeys(slots, n - 1, c); }
  }

  lemma {:induction false} HeldAt(slots: seq<Slot>, n: nat, i: nat)
    requires i < n <= |slots| && slots[i].Used? && DistinctClients(slots)
    ensures slots[i].client in Held(slots, n) && Held(slots, n)[slots[i].client] == slots[i].record
  {
    if i < n - 1 { HeldAt(slots, n - 1, i); }
  }

  /** As many clients as used slots. */
  lemma {:induction false} HeldSize(slots: seq<Slot>, n: nat)
    requires n <= |slots| && DistinctClients(slots)
    ensures |Held(slots, n)| == UsedUpTo(slots, n)
  {
    if n > 0 {
      HeldSize(slots, n - 1);
      if slots[n - 1].Used? {
        HeldKeys(slots, n - 1, slots[n - 1].client);
        var t := Held(slots, n - 1);
        assert Held(slots, n).Keys == t.Keys + {slots[n - 1].client};
      }
    }
  }

  lemma {:induction false} FullyUsed(slots: seq<Slot>, n: nat)
    requires n <= |slots|
    ensures UsedUpTo(slots, n) == n <==> forall i :: 0 <= i < n ==> slots[i].Used?
  {
    if n > 0 { FullyUsed(slots, n - 1); }
  }

  lemma {:induction false} UsedAfter(slots: seq<Slot>, slot: nat, x: Slot, n: nat)
    requires slot < |slots| && n <= |slots| && x.Used?
    ensures UsedUpTo(slots[slot := x], n) == UsedUpTo(slots, n) + if slot < n && slots[slot].Free? then 1 else 0
  {
    if n > 0 { UsedAfter(slots, slot, x, n - 1); }
  }

  /** The slot a reply goes to: the client's own, or a free one, or the oldest client's when none is free. */
  predicate Chosen(slots: seq<Slot>, c: Client, slot: nat) {
    && slot < |slots|
    && (if Holds(slots, |slots|, c) then slots[slot].Used? && slots[slot].client == c
        else slots[slot].Free? ||
             (UsedUpTo(slots, |slots|) == |slots| && slots[slot].Used? && IsOldest(AsTable(slots), slots[slot].client)))
  }

  /** Membership and values of the table after one slot is rewritten. */
  lemma AfterWrite(slots: seq<Slot>, slot: nat, c: Client, r: Record, d: Client)
    requires slot < |slots| && DistinctClients(slots)
    requires forall i :: 0 <= i < |slots| && i != slot && slots[i].Used? ==> slots[i].client != c
    ensures var q := slots[slot := Used(c, r)];
      && DistinctClients(q)
      && (d in AsTable(q) <==> d == c || (d in AsTable(slots) && !(slots[slot].Used? && slots[slot].client == d)))
      && (d == c ==> AsTable(q)[d] == r)
      && (d in AsTable(q) && d != c ==> d in AsTable(slots) && AsTable(q)[d] == AsTable(slots)[d])
  {
    var q := slots[slot := Used(c, r)];
    HeldKeys(q, |q|, d);
    HeldKeys(slots, |slots|, d);
    HeldAt(q, |q|, slot);
    if i :| 0 <= i < |slots| && i != slot && slots[i].Used? && slots[i].client == d {
      assert q[i] == slots[i];
      HeldAt(q, |q|, i);
      HeldAt(slots, |slots|, i);
    }
  }

  /** Writing the chosen slot is storing the reply in the map. */
  lemma WriteStores(slots: seq<Slot>, slot: nat, c: Client, r: Record)
    requires DistinctClients(slots) && Chosen(slots, c, slot)
    ensures var q := slots[slot := Used(c, r)];
      DistinctClients(q) && AsTable(q) == Stored(AsTable(slots), c, r, |slots|)
  {
    var q := slots[slot := Used(c, r)];
    var t := AsTable(slots);
    HeldKeys(slots, |slots|, c);
    HeldSize(slots, |slots|);
    FullyUsed(slots, |slots|);
    forall i | 0 <= i < |slots| && i != slot && slots[i].Used?
      ensures slots[i].client != c
    {
    }
    if slots[slot].Used? && c !in t {
      OldestUnique(t, slots[slot].client, Oldest(t));
    }
    forall d
      ensures d in AsTable(q) <==> d in Stored(t, c, r, |slots|)
      ensures d in AsTable(q) ==> AsTable(q)[d] == Stored(t, c, r, |slots|)[d]
    {
      AfterWrite(slots, slot, c, r, d);
    }
  }

  datatype Plan = Plan(slot: nat, generation: nat, client: Client, session: nat, checksum: int)

  class Slots {
    var records: seq<Slot>
    var busy: seq<bool>
    var generations: seq<nat>
    var count: nat

    ghost predicate Counted()
      reads this
    {
      |records| == |busy| == |generations| > 0 && count == UsedUpTo(records, |records|)
    }

    ghost predicate Valid()
      reads this
    {
      Counted() && DistinctClients(records)
    }

    /** The plan is the last one made for its slot, and was neither used nor given up. */
    ghost predicate Current(plan: Plan)
      reads this
    {
      plan.slot < |records| == |busy| == |generations| && busy[plan.slot] && generations[plan.slot] == plan.generation
    }

    /** No slot has a plan. */
    ghost predicate Idle()
      reads this
    {
      forall i :: 0 <= i < |busy| ==> !busy[i]
    }

    constructor (clientsMax: nat)
      requires clientsMax > 0
      ensures Valid() && |records| == clientsMax && AsTable(records) == map[] && Idle()
    {
      records := seq(clientsMax, _ => Free);
      busy := seq(clientsMax, _ => false);
      generations := seq(clientsMax, _ => 0);
      count := 0;
      new;
      NoneUsed(records, |records|);
    }

    /** `lookup`: the client's slot, or the first free slot that no plan holds. */
    method Lookup(client: Client) returns (slot: nat, found: bool)
      requires Valid()
      ensures found <==> Holds(records, |records|, client)
      ensures found ==> slot < |records| && records[slot].Used? && records[slot].client == client
      ensures !found && slot < |records| ==> records[slot].Free? && !busy[slot]
      ensures !found && slot >= |records| ==> slot == |records| && forall i :: 0 <= i < |records| ==> records[i].Used? || busy[i]
    {
      var free := |records|;
      slot := 0;
      while slot < |records|
        invariant slot <= |records| && !Holds(records, slot, client)
        invariant free == |records| || (0 <= free < slot && records[free].Free? && !busy[free])
        invariant free == |records| ==> forall i :: 0 <= i < slot ==> records[i].Used? || busy[i]
      {
        if records[slot].Free? {
          if free == |records| && !busy[slot] {
            free := slot;
          }
        } else if records[slot].client == client {
          return slot, true;
        }
        slot := slot + 1;
      }
      return free, false;
    }

    /** `evictionSlot`: the client with the least op, and among those the least id. */
    method EvictionSlot() returns (selected: nat)
      requires Valid() && count == |records|
      ensures selected < |records| && records[selected].Used? && IsOldest(AsTable(records), records[selected].client)
    {
      FullyUsed(records, |records|);
      selected := 0;
      var slot := 1;
      while slot < |records|
        invariant 1 <= slot <= |records| && selected < slot
        invariant forall i :: 0 <= i < slot && i != selected ==> Before(records[selected], records[i])
      {
        var candidate, current := records[slot], records[selected];
        if candidate.record.op < current.record.op || (candidate.record.op == current.record.op && candidate.client < current.client) {
          selected := slot;
        }
        slot := slot + 1;
      }
      LeastIsOldest(records, selected);
    }

    /** `PlanCommit`: picks the slot the map would use, and always finds one when no slot has a plan. */
    method PlanCommit(client: Client, session: nat, checksum: int) returns (r: Option<Plan>)
      requires Valid()
      modifies this`busy, this`generations
      ensures Valid() && (r.None? ==> busy == old(busy) && generations == old(generations))
      ensures r.Some? ==> r.value.client == client && r.value.session == session && r.value.checksum == checksum
      ensures r.Some? ==> Current(r.value) && Chosen(records, client, r.value.slot)
      ensures r.Some? ==> !old(busy)[r.value.slot] && busy == old(busy)[r.value.slot := true]
      ensures r.Some? ==> generations == old(generations)[r.value.slot := r.value.generation]
                          && r.value.generation == old(generations)[r.value.slot] + 1
      ensures old(Idle()) ==> r.Some?
    {
      var slot, found := Lookup(client);
      FullyUsed(records, |records|);
      if found {
        if busy[slot] {
          return None;
        }
      } else if count == |records| {
        slot := EvictionSlot();
        if busy[slot] {
          return None;
        }
      } else if slot == |records| {
        return None;
      }
      assert Chosen(records, client, slot);
      generations := generations[slot := generations[slot] + 1];
      busy := busy[slot := true];
      return Some(Plan(slot, generations[slot], client, session, checksum));
    }

    /**
      `CommitAt`: refused unless the plan is current and fits the reply.  Into the
      slot the map would use, which is what the plan names if nothing was stored
      since, it stores what the map stores.  No client gets two slots exactly if
      no other slot holds this one.
     */
    method CommitAt(plan: Plan, client: Client, r: Record) returns (ok: bool)
      requires Valid()
      modifies this`records, this`busy, this`count
      ensures ok <==> old(Current(plan)) && plan.client == client && plan.session == r.session && plan.checksum == r.checksum
      ensures !ok ==> records == old(records) && busy == old(busy) && count == old(count)
      ensures ok ==> records == old(records)[plan.slot := Used(client, r)] && busy == old(busy)[plan.slot := false]
      ensures Counted()
      ensures ok && old(Chosen(records, client, plan.slot)) ==>
        Valid() && AsTable(records) == Stored(old(AsTable(records)), client, r, |records|)
      ensures ok ==> (Valid() <==> forall i :: 0 <= i < |records| && i != plan.slot && records[i].Used? ==>
                                     records[i].client != client)
    {
      if plan.slot >= |records| || !busy[plan.slot] {
        return false;
      }
      if generations[plan.slot] != plan.generation || plan.client != client {
        return false;
      }
      if plan.session != r.session || plan.checksum != r.checksum {
        return false;
      }
      if Chosen(records, client, plan.slot) {
        WriteStores(records, plan.slot, client, r);
      }
      UsedAfter(records, plan.slot, Used(client, r), |records|);
      DistinctAfter(records, plan.slot, client, r);
      if records[plan.slot].Free? {
        count := count + 1;
      }
      records := records[plan.slot := Used(client, r)];
      busy := busy[plan.slot := false];
      return true;
    }

    /** `Abort`: forgets a current plan, and nothing else. */
    method Abort(plan: Plan)
      requires Valid()
      modifies this`busy
      ensures Valid() && busy == if old(Current(plan)) then old(busy)[plan.slot := false] else old(busy)
    {
      if plan.slot < |records| && busy[plan.slot] && generations[plan.slot] == plan.generation {
        busy := busy[plan.slot := false];
      }
    }
  }

  lemma DistinctAfter(slots: seq<Slot>, slot: nat, c: Client, r: Record)
    requires slot < |slots| && DistinctClients(slots)
    ensures var q := slots[slot := Used(c, r)];
      DistinctClients(q) <==> forall i :: 0 <= i < |q| && i != slot && q[i].Used? ==> q[i].client != c
  {
    var q := slots[slot := Used(c, r)];
    if DistinctClients(q) {
      forall i | 0 <= i < |q| && i != slot && q[i].Used? ensures q[i].client != c {
        assert q[slot].client == c;
      }
    }
  }

  predicate Before(a: Slot, b: Slot) {
    a.Used? && b.Used? && (a.record.op < b.record.op || (a.record.op == b.record.op && a.client < b.client))
  }

  lemma LeastIsOldest(slots: seq<Slot>, selected: nat)
    requires DistinctClients(slots) && selected < |slots| && slots[selected].Used?
    requires forall i :: 0 <= i < |slots| && i != selected ==> Before(slots[selected], slots[i])
    ensures IsOldest(AsTable(slots), slots[selected].client)
  {
    var t := AsTable(slots);
    HeldAt(slots, |slots|, selected);
    forall d | d in t && d != slots[selected].client
      ensures Older(t, slots[selected].client, d)
    {
      HeldKeys(slots, |slots|, d);
      var i :| 0 <= i < |slots| && slots[i].Used? && slots[i].client == d;
      HeldAt(slots, |slots|, i);
    }
  }

  lemma {:induction false} NoneUsed(slots: seq<Slot>, n: nat)
    requires n <= |slots| && forall i :: 0 <= i < n ==> slots[i].Free?
    ensures UsedUpTo(slots, n) == 0 && Held(slots, n) == map[]
  {
    if n > 0 { NoneUsed(slots, n - 1); }
  }
}
