/**
  The block repair budget (replication/block_repair_budget.go): credit per peer
  for blocks asked for, and requests that bundle such blocks until they arrive
  or expire.
 */
module RepairBudget {
  import opened Blocks
  import opened Chains

  datatype Entry = Entry(reference: Reference, started: nat)

  /** A request keeps its references in place; one that has arrived is blanked. */
  datatype Record = Record(peer: nat, started: nat, references: seq<Reference>)

  // ---- busy slots --------------------------------------------------------------------------------

  function Busy<T>(list: seq<Option<T>>): (n: nat)
    ensures n <= |list|
  {
    if list == [] then 0 else Busy(list[..|list| - 1]) + if list[|list| - 1].Some? then 1 else 0
  }

  lemma {:induction false} BusyUpdate<T>(list: seq<Option<T>>, k: nat, x: Option<T>)
    requires k < |list|
    ensures Busy(list[k := x]) == Busy(list) + (if x.Some? then 1 else 0) - (if list[k].Some? then 1 else 0)
  {
    var i := |list| - 1;
    if k == i {
      assert list[k := x][..i] == list[..i];
    } else {
      assert list[k := x][..i] == list[..i][k := x];
      BusyUpdate(list[..i], k, x);
    }
  }

  lemma {:induction false} BusyNone<T>(list: seq<Option<T>>)
    ensures Busy(list) == 0 <==> forall k :: 0 <= k < |list| ==> list[k].None?
    ensures Busy(list) == |list| <==> forall k :: 0 <= k < |list| ==> list[k].Some?
  {
    if list != [] { BusyNone(list[..|list| - 1]); }
  }

  /** The busy entries of all peers. */
  function Total(entries: seq<seq<Option<Entry>>>): (n: nat) {
    if entries == [] then 0 else Total(entries[..|entries| - 1]) + Busy(entries[|entries| - 1])
  }

  lemma {:induction false} TotalUpdate(entries: seq<seq<Option<Entry>>>, p: nat, list: seq<Option<Entry>>)
    requires p < |entries|
    ensures Total(entries[p := list]) + Busy(entries[p]) == Total(entries) + Busy(list)
  {
    var i := |entries| - 1;
    if p == i {
      assert entries[p := list][..i] == entries[..i];
    } else {
      assert entries[p := list][..i] == entries[..i][p := list];
      TotalUpdate(entries[..i], p, list);
    }
  }

  /** The first free slot, or the length. */
  method FirstFree<T>(list: seq<Option<T>>) returns (k: nat)
    ensures k <= |list| && (k < |list| ==> list[k].None?) && (k == |list| <==> Busy(list) == |list|)
  {
    BusyNone(list);
    k := 0;
    while k < |list|
      invariant k <= |list| && forall j :: 0 <= j < k ==> list[j].Some?
    {
      if list[k].None? {
        return;
      }
      k := k + 1;
    }
  }

  // ---- what is outstanding ------------------------------------------------------------------------

  predicate Lists(list: seq<Option<Entry>>, e: Entry) {
    exists k :: 0 <= k < |list| && list[k] == Some(e)
  }

  /** No block is asked of one peer twice at a time. */
  predicate OncePerPeer(list: seq<Option<Entry>>) {
    forall i, j :: 0 <= i < j < |list| && list[i].Some? && list[j].Some? ==> list[i].value.reference != list[j].value.reference
  }

  predicate Wants(r: Record, x: Reference) {
    x != NO_REFERENCE && x in r.references
  }

  datatype State = State(entries: seq<seq<Option<Entry>>>, requests: seq<Option<Record>>, available: seq<int>, requestsAvailable: int)

  /** Request `i` is busy and covers entry `e` of `peer`. */
  predicate Covers(s: State, i: nat, peer: nat, e: Entry) {
    i < |s.requests| && s.requests[i].Some? && s.requests[i].value.peer == peer
    && s.requests[i].value.started == e.started && Wants(s.requests[i].value, e.reference)
  }

  /** Every busy entry is covered by exactly one busy request, and every wanted reference has its entry. */
  ghost predicate Matched(s: State) {
    && (forall p :: 0 <= p < |s.entries| ==> OncePerPeer(s.entries[p]))
    && (forall p, e :: 0 <= p < |s.entries| && Lists(s.entries[p], e) ==> exists i: nat :: Covers(s, i, p, e))
    && (forall i: nat, j: nat, p: nat, e, f :: Covers(s, i, p, e) && Covers(s, j, p, f) && e.reference == f.reference ==> i == j)
    && (forall i: nat, p: nat, e :: Covers(s, i, p, e) ==> p < |s.entries| && Lists(s.entries[p], e))
    && (forall i :: 0 <= i < |s.requests| && s.requests[i].Some? ==> exists x :: Wants(s.requests[i].value, x))
  }

  /** The two sums that `valid` checks. */
  predicate Balanced(s: State, perPeer: nat) {
    && |s.available| == |s.entries|
    && s.requestsAvailable + Busy(s.requests) == |s.requests|
    && (forall p :: 0 <= p < |s.entries| ==> |s.entries[p]| == perPeer && s.available[p] + Busy(s.entries[p]) == perPeer)
  }

  ghost predicate Sound(s: State, perPeer: nat) {
    Matched(s) && Balanced(s, perPeer)
  }

  /** With no request busy, every peer has its full credit. */
  lemma IdleIsFull(s: State, perPeer: nat, p: nat)
    requires Sound(s, perPeer) && s.requestsAvailable == |s.requests| && p < |s.entries|
    ensures s.available[p] == perPeer
  {
    BusyNone(s.requests);
    BusyNone(s.entries[p]);
    forall k | 0 <= k < |s.entries[p]|
      ensures s.entries[p][k].None?
    {
      if s.entries[p][k].Some? {
        assert Lists(s.entries[p], s.entries[p][k].value);
      }
    }
  }

  // ---- what each operation does to what is outstanding -------------------------------------------------

  /** After a reservation: one entry more per reference, and one request that wants exactly those. */
  ghost predicate Reserves(s: State, q: State, p: nat, references: seq<Reference>, now: nat, i: nat) {
    && p < |s.entries| == |q.entries| && i < |s.requests| && s.requests[i].None?
    && q.requests == s.requests[i := Some(Record(p, now, references))]
    && (forall m :: 0 <= m < |s.entries| && m != p ==> q.entries[m] == s.entries[m])
    && OncePerPeer(q.entries[p])
    && (forall e :: Lists(q.entries[p], e) <==> Lists(s.entries[p], e) || (e.started == now && e.reference in references))
  }

  /** What `referencesEligible` promises about the peer itself. */
  predicate Askable(list: seq<Option<Entry>>, references: seq<Reference>) {
    && references != [] && NO_REFERENCE !in references
    && (forall i, j :: 0 <= i < j < |references| ==> references[i] != references[j])
    && forall k :: 0 <= k < |list| && list[k].Some? ==> list[k].value.reference !in references
  }

  lemma ReserveMatched(s: State, q: State, p: nat, references: seq<Reference>, now: nat, i: nat)
    requires Matched(s) && Reserves(s, q, p, references, now, i) && Askable(s.entries[p], references)
    ensures Matched(q)
  {
    var record := Record(p, now, references);
    assert forall j: nat, m: nat, e :: j != i ==> (Covers(q, j, m, e) <==> Covers(s, j, m, e));
    assert forall m: nat, e :: Covers(q, i, m, e) <==> m == p && e.started == now && Wants(record, e.reference);
    forall m, e | 0 <= m < |q.entries| && Lists(q.entries[m], e)
      ensures exists j: nat :: Covers(q, j, m, e)
    {
      if m == p && e.started == now && e.reference in references {
        assert Covers(q, i, m, e);
      } else {
        assert Lists(s.entries[m], e);
        var j: nat :| Covers(s, j, m, e);
        assert Covers(q, j, m, e);
      }
    }
    forall j: nat, k: nat, m: nat, e, f | Covers(q, j, m, e) && Covers(q, k, m, f) && e.reference == f.reference
      ensures j == k
    {
      assert j != i ==> Covers(s, j, m, e);
      assert k != i ==> Covers(s, k, m, f);
    }
    forall j | 0 <= j < |q.requests| && q.requests[j].Some?
      ensures exists x :: Wants(q.requests[j].value, x)
    {
      if j == i { assert Wants(record, references[0]); }
    }
  }

  function Blanked(references: seq<Reference>, x: Reference): (r: seq<Reference>)
    ensures |r| == |references|
  {
    seq(|references|, i requires 0 <= i < |references| => if references[i] == x then NO_REFERENCE else references[i])
  }

  lemma BlankedWants(r: Record, x: Reference, y: Reference)
    ensures Wants(r.(references := Blanked(r.references, x)), y) <==> Wants(r, y) && y != x
  {
    var b := Blanked(r.references, x);
    if Wants(r, y) && y != x {
      var i :| 0 <= i < |r.references| && r.references[i] == y;
      assert b[i] == y;
    }
    if y in b && y != NO_REFERENCE {
      var i :| 0 <= i < |b| && b[i] == y;
      assert r.references[i] == y;
    }
  }

  predicate Wanting(r: Record) {
    exists k :: 0 <= k < |r.references| && r.references[k] != NO_REFERENCE
  }

  /** What becomes of a request when block `x` arrives. */
  function Answered(r: Option<Record>, x: Reference): (q: Option<Record>) {
    if r.None? then None
    else
      var b := r.value.(references := Blanked(r.value.references, x));
      if Wanting(b) then Some(b) else None
  }

  /** Exactly the entries for `x` are gone. */
  ghost predicate Dropped(given: seq<Option<Entry>>, list: seq<Option<Entry>>, x: Reference) {
    forall e :: Lists(list, e) <==> Lists(given, e) && e.reference != x
  }

  ghost predicate Fulfils(s: State, q: State, x: Reference) {
    && |q.entries| == |s.entries| && |q.requests| == |s.requests|
    && (forall i :: 0 <= i < |s.requests| ==> q.requests[i] == Answered(s.requests[i], x))
    && (forall p :: 0 <= p < |s.entries| ==> OncePerPeer(q.entries[p]))
    && (forall p :: 0 <= p < |s.entries| ==> Dropped(s.entries[p], q.entries[p], x))
  }

  lemma FulfilsAt(s: State, q: State, x: Reference, p: nat, e: Entry)
    requires Fulfils(s, q, x) && p < |s.entries|
    ensures Lists(q.entries[p], e) <==> Lists(s.entries[p], e) && e.reference != x
  {
    assert Dropped(s.entries[p], q.entries[p], x);
  }

  lemma AnsweredCovers(s: State, q: State, x: Reference, i: nat, p: nat, e: Entry)
    requires Fulfils(s, q, x)
    ensures Covers(q, i, p, e) <==> Covers(s, i, p, e) && e.reference != x
  {
    if i < |s.requests| && s.requests[i].Some? {
      var r := s.requests[i].value;
      BlankedWants(r, x, e.reference);
      if Covers(s, i, p, e) && e.reference != x {
        var b := r.(references := Blanked(r.references, x));
        var k :| 0 <= k < |b.references| && b.references[k] == e.reference;
        assert Wanting(b);
      }
    }
  }

  lemma FulfilMatched(s: State, q: State, x: Reference)
    requires Matched(s) && Fulfils(s, q, x)
    ensures Matched(q)
  {
    hide Lists;
    forall i: nat, p: nat, e
      ensures Covers(q, i, p, e) <==> Covers(s, i, p, e) && e.reference != x
    {
      AnsweredCovers(s, q, x, i, p, e);
    }
    forall m, e | 0 <= m < |q.entries| && Lists(q.entries[m], e)
      ensures exists j: nat :: Covers(q, j, m, e)
    {
      FulfilsAt(s, q, x, m, e);
      var j: nat :| Covers(s, j, m, e);
      assert Covers(q, j, m, e);
    }
    forall i: nat, p: nat, e | Covers(q, i, p, e)
      ensures p < |q.entries| && Lists(q.entries[p], e)
    {
      FulfilsAt(s, q, x, p, e);
    }
    forall i | 0 <= i < |q.requests| && q.requests[i].Some?
      ensures exists y :: Wants(q.requests[i].value, y)
    {
      var b := q.requests[i].value;
      var k :| 0 <= k < |b.references| && b.references[k] != NO_REFERENCE;
      assert Wants(b, b.references[k]);
    }
  }

  /** A request gone, and its entries with it. */
  ghost predicate Expires(s: State, q: State, i: nat) {
    && |q.entries| == |s.entries| && i < |s.requests| && s.requests[i].Some? && q.requests == s.requests[i := None]
    && (forall p :: 0 <= p < |s.entries| ==> OncePerPeer(q.entries[p]))
    && (forall p: nat, e :: p < |s.entries| ==> (Lists(q.entries[p], e) <==> Lists(s.entries[p], e) && !Covers(s, i, p, e)))
  }

  lemma ExpireMatched(s: State, q: State, i: nat)
    requires Matched(s) && Expires(s, q, i)
    ensures Matched(q)
  {
    assert forall j: nat, p: nat, e :: Covers(q, j, p, e) <==> Covers(s, j, p, e) && j != i;
    forall m, e | 0 <= m < |q.entries| && Lists(q.entries[m], e)
      ensures exists j: nat :: Covers(q, j, m, e)
    {
      assert Lists(s.entries[m], e);
      var j: nat :| Covers(s, j, m, e);
      assert Covers(q, j, m, e);
    }
    forall j: nat, p: nat, e | Covers(q, j, p, e)
      ensures p < |q.entries| && Lists(q.entries[p], e)
    {
      assert Covers(s, j, p, e) && Lists(s.entries[p], e);
    }
  }

  // ---- the loops over one peer's entries ------------------------------------------------------------------

  lemma ListsUpdate(list: seq<Option<Entry>>, k: nat, e: Entry, f: Entry)
    requires k < |list| && list[k].None?
    ensures Lists(list[k := Some(e)], f) <==> Lists(list, f) || f == e
  {
    var r := list[k := Some(e)];
    if Lists(list, f) {
      var j :| 0 <= j < |list| && list[j] == Some(f);
      assert r[j] == Some(f);
    }
    assert r[k] == Some(e);
  }

  lemma ListsClear(list: seq<Option<Entry>>, k: nat, f: Entry)
    requires k < |list| && list[k].Some? && OncePerPeer(list)
    ensures Lists(list[k := None], f) <==> Lists(list, f) && f != list[k].value
  {
    var r := list[k := None];
    if Lists(list, f) && f != list[k].value {
      var j :| 0 <= j < |list| && list[j] == Some(f);
      assert r[j] == Some(f);
    }
    if Lists(r, f) {
      var j :| 0 <= j < |r| && r[j] == Some(f);
      assert list[j] == Some(f) && j != k;
    }
  }

  /** The first loop of `Reserve`. */
  method TakeEntries(given: seq<Option<Entry>>, references: seq<Reference>, now: nat) returns (list: seq<Option<Entry>>)
    requires OncePerPeer(given) && Askable(given, references) && Busy(given) + |references| <= |given|
    ensures |list| == |given| && Busy(list) == Busy(given) + |references| && OncePerPeer(list)
    ensures forall e :: Lists(list, e) <==> Lists(given, e) || (e.started == now && e.reference in references)
  {
    list := given;
    var n := 0;
    while n < |references|
      invariant 0 <= n <= |references| && |list| == |given| && Busy(list) == Busy(given) + n && OncePerPeer(list)
      invariant forall k :: 0 <= k < |list| && list[k].Some? ==> list[k].value.reference !in references[n..]
      invariant forall e :: Lists(list, e) <==> Lists(given, e) || (e.started == now && e.reference in references[..n])
    {
      var k := FirstFree(list);
      var e := Entry.Entry(references[n], now);
      BusyUpdate(list, k, Some(e));
      ghost var before := list;
      forall f
        ensures Lists(list[k := Some(e)], f) <==> Lists(list, f) || f == e
      {
        ListsUpdate(list, k, e, f);
      }
      assert references[n] in references[n..];
      list := list[k := Some(e)];
      assert references[..n + 1] == references[..n] + [references[n]];
      forall i | 0 <= i < |list| && list[i].Some?
        ensures list[i].value.reference !in references[n + 1..]
      {
        if i == k {
          NotLater(references, n);
        } else {
          assert before[i].value.reference !in references[n..];
        }
      }
      n := n + 1;
    }
    assert references[..n] == references;
  }

  lemma NotLater(references: seq<Reference>, n: nat)
    requires n < |references| && forall i, j :: 0 <= i < j < |references| ==> references[i] != references[j]
    ensures references[n] !in references[n + 1..]
  {
  }

  /** One peer's part of `Fulfill`. */
  method DropReference(given: seq<Option<Entry>>, x: Reference) returns (list: seq<Option<Entry>>, released: nat)
    requires OncePerPeer(given)
    ensures |list| == |given| && Busy(list) + released == Busy(given) && OncePerPeer(list)
    ensures Dropped(given, list, x)
  {
    list, released := given, 0;
    var k := 0;
    while k < |list|
      invariant k <= |list| == |given| && Busy(list) + released == Busy(given)
      invariant forall j :: 0 <= j < |given| ==>
                  list[j] == if j < k && given[j].Some? && given[j].value.reference == x then None else given[j]
    {
      if list[k].Some? && list[k].value.reference == x {
        BusyUpdate(list, k, None);
        list := list[k := None];
        released := released + 1;
      }
      k := k + 1;
    }
    forall e
      ensures Lists(list, e) <==> Lists(given, e) && e.reference != x
    {
      if Lists(given, e) && e.reference != x {
        var j :| 0 <= j < |given| && given[j] == Some(e);
        assert list[j] == Some(e);
      }
      if Lists(list, e) {
        var j :| 0 <= j < |list| && list[j] == Some(e);
        assert given[j] == Some(e);
      }
    }
  }

  /** One request's part of `Fulfill`: blank the reference; a request that wants nothing more is released. */
  method Answer(r: Option<Record>, x: Reference) returns (q: Option<Record>)
    ensures q == Answered(r, x) && (r.None? ==> q.None?)
  {
    if r.None? {
      return None;
    }
    var blanked := r.value.(references := Blanked(r.value.references, x));
    if Wanting(blanked) {
      return Some(blanked);
    }
    return None;
  }

  /** `releaseEntry` */
  method DropEntry(given: seq<Option<Entry>>, e: Entry) returns (list: seq<Option<Entry>>, ok: bool)
    requires OncePerPeer(given)
    ensures ok <==> Lists(given, e)
    ensures |list| == |given| && Busy(list) + (if ok then 1 else 0) == Busy(given) && OncePerPeer(list)
    ensures forall f :: Lists(list, f) <==> Lists(given, f) && f != e
  {
    var k := 0;
    while k < |given|
      invariant k <= |given| && forall j :: 0 <= j < k ==> given[j] != Some(e)
    {
      if given[k] == Some(e) {
        BusyUpdate(given, k, None);
        forall f
          ensures Lists(given[k := None], f) <==> Lists(given, f) && f != e
        {
          ListsClear(given, k, f);
        }
        return given[k := None], true;
      }
      k := k + 1;
    }
    return given, false;
  }

  // ---- the budget ---------------------------------------------------------------------------------------------

  const RETRY_AFTER := 100_000_000
  const EXPIRES := 250_000_000

  function Elapsed(started: nat, now: nat): (t: nat) {
    if now >= started then now - started else 0
  }

  /** `referencesEligible`: proper, distinct, not asked of this peer, and not asked of another too recently. */
  predicate Eligible(entries: seq<seq<Option<Entry>>>, peer: nat, references: seq<Reference>, now: nat) {
    && peer < |entries|
    && (forall i :: 0 <= i < |references| ==> references[i].address != 0 && references[i].checksum != 0)
    && (forall i, j :: 0 <= i < j < |references| ==> references[i] != references[j])
    && forall i, p :: 0 <= i < |references| && 0 <= p < |entries| ==> Spared(entries[p], references[i], p == peer, now)
  }

  predicate Spared(list: seq<Option<Entry>>, x: Reference, same: bool, now: nat) {
    forall k :: 0 <= k < |list| && list[k].Some? && list[k].value.reference == x ==>
      !same && Elapsed(list[k].value.started, now) >= RETRY_AFTER
  }

  /**
    A block may be asked of `peer` if it is proper, named once, not already
    asked of `peer`, and asked of nobody else within the last 100 ms.
   */
  lemma EligibleByFields(entries: seq<seq<Option<Entry>>>, peer: nat, references: seq<Reference>, now: nat)
    ensures Eligible(entries, peer, references, now) <==>
      && peer < |entries|
      && (forall x :: x in references ==> x.address != 0 && x.checksum != 0)
      && (forall i, j :: 0 <= i < j < |references| ==> references[i] != references[j])
      && forall p, e :: 0 <= p < |entries| && Some(e) in entries[p] && e.reference in references ==>
           p != peer && now >= e.started + 100_000_000
  {
    if Eligible(entries, peer, references, now) {
      forall p, e | 0 <= p < |entries| && Some(e) in entries[p] && e.reference in references
        ensures p != peer && now >= e.started + 100_000_000
      {
        var i :| 0 <= i < |references| && references[i] == e.reference;
        assert Spared(entries[p], references[i], p == peer, now);
      }
    }
    forall i, p | 0 <= i < |references| && 0 <= p < |entries| && !Spared(entries[p], references[i], p == peer, now)
      ensures exists e :: Some(e) in entries[p] && e.reference in references && !(p != peer && now >= e.started + 100_000_000)
    {
      var k :| 0 <= k < |entries[p]| && entries[p][k].Some? && entries[p][k].value.reference == references[i]
            && !(p != peer && Elapsed(entries[p][k].value.started, now) >= RETRY_AFTER);
      assert Some(entries[p][k].value) in entries[p];
    }
  }

  method CheckPeer(list: seq<Option<Entry>>, x: Reference, same: bool, now: nat) returns (ok: bool)
    ensures ok <==> Spared(list, x, same, now)
  {
    for k := 0 to |list|
      invariant forall j :: 0 <= j < k && list[j].Some? && list[j].value.reference == x ==>
        !same && Elapsed(list[j].value.started, now) >= RETRY_AFTER
    {
      if list[k].Some? && list[k].value.reference == x && (same || Elapsed(list[k].value.started, now) < RETRY_AFTER) {
        return false;
      }
    }
    return true;
  }

  method CheckEligible(entries: seq<seq<Option<Entry>>>, peer: nat, references: seq<Reference>, now: nat) returns (ok: bool)
    requires peer < |entries|
    ensures ok <==> Eligible(entries, peer, references, now)
  {
    hide Spared;
    for i := 0 to |references|
      invariant forall j :: 0 <= j < i ==> references[j].address != 0 && references[j].checksum != 0
      invariant forall j, k :: 0 <= j < k < i ==> references[j] != references[k]
      invariant forall j, p :: 0 <= j < i && 0 <= p < |entries| ==> Spared(entries[p], references[j], p == peer, now)
    {
      if references[i].address == 0 || references[i].checksum == 0 {
        return false;
      }
      for prior := 0 to i
        invariant forall j :: 0 <= j < prior ==> references[j] != references[i]
      {
        if references[prior] == references[i] {
          return false;
        }
      }
      for p := 0 to |entries|
        invariant forall m :: 0 <= m < p ==> Spared(entries[m], references[i], m == peer, now)
      {
        var spared := CheckPeer(entries[p], references[i], p == peer, now);
        if !spared {
          return false;
        }
      }
    }
    return true;
  }

  lemma EligibleAskable(entries: seq<seq<Option<Entry>>>, peer: nat, references: seq<Reference>, now: nat)
    requires Eligible(entries, peer, references, now) && references != []
    ensures Askable(entries[peer], references)
  {
    forall i, k | 0 <= i < |references| && 0 <= k < |entries[peer]| && entries[peer][k].Some?
      ensures entries[peer][k].value.reference != references[i]
    {
      assert Spared(entries[peer], references[i], true, now);
    }
  }

  class Budget {
    const local: nat
    const batchMax: nat
    const perPeer: nat
    var entries: seq<seq<Option<Entry>>>
    var requests: seq<Option<Record>>
    var available: seq<int>
    var requestsAvailable: int

    ghost function Value(): (s: State)
      reads this
    {
      State(entries, requests, available, requestsAvailable)
    }

    ghost predicate Valid()
      reads this
    {
      Sound(Value(), perPeer) && |requests| == batchMax
    }

    constructor (memberCount: nat, local: nat, batchMax: nat)
      requires memberCount > 0 && batchMax > 0
      ensures Valid() && |entries| == memberCount && |requests| == requestsAvailable == batchMax && |available| == memberCount
      ensures forall p :: 0 <= p < memberCount ==> available[p] == perPeer == batchMax + 1
      ensures this.local == local && this.batchMax == batchMax
    {
      this.local, this.batchMax, this.perPeer := local, batchMax, batchMax + 1;
      var none: seq<Option<Entry>> := seq(batchMax + 1, _ => None);
      entries := seq(memberCount, _ => none);
      requests := seq(batchMax, _ => None);
      available := seq(memberCount, _ => batchMax + 1);
      requestsAvailable := batchMax;
      new;
      BusyNone(none);
      BusyNone(requests);
    }

    /** `valid`, which the source uses as a self-check. */
    method Check() returns (ok: bool)
      requires |available| == |entries| && (forall p :: 0 <= p < |entries| ==> |entries[p]| == perPeer)
      ensures ok <==> Balanced(Value(), perPeer)
    {
      if Busy(requests) + requestsAvailable != |requests| {
        return false;
      }
      for p := 0 to |entries|
        invariant forall m :: 0 <= m < p ==> available[m] + Busy(entries[m]) == perPeer
      {
        if Busy(entries[p]) + available[p] != perPeer {
          return false;
        }
      }
      return true;
    }

    /** `Reserve`: spends credit for every reference, or refuses and spends nothing. */
    method Reserve(peer: nat, references: seq<Reference>, now: nat) returns (ok: bool)
      requires Valid()
      modifies this
      ensures Valid()
      ensures ok <==>
        && peer < |old(entries)| && peer != local && 0 < |references| <= batchMax && old(requestsAvailable) > 0
        && old(available)[peer] >= |references| && Eligible(old(entries), peer, references, now)
      ensures ok ==>
        && requestsAvailable == old(requestsAvailable) - 1
        && available == old(available)[peer := old(available)[peer] - |references|]
        && exists i: nat :: Reserves(old(Value()), Value(), peer, references, now, i)
      ensures !ok ==> Value() == old(Value())
    {
      if peer >= |entries| || peer == local || |references| == 0 || |references| > batchMax {
        return false;
      }
      if requestsAvailable == 0 || available[peer] < |references| {
        return false;
      }
      ok := CheckEligible(entries, peer, references, now);
      if !ok {
        return;
      }
      EligibleAskable(entries, peer, references, now);
      ghost var i := Grant(peer, references, now);
      ReserveMatched(old(Value()), Value(), peer, references, now, i);
      hide Matched, Reserves;
      var balanced := Check();
      assert balanced;
    }

    /** What `Reserve` does once it has decided to. */
    method Grant(peer: nat, references: seq<Reference>, now: nat) returns (ghost i: nat)
      requires Balanced(Value(), perPeer) && peer < |entries| && requestsAvailable > 0 && available[peer] >= |references|
      requires OncePerPeer(entries[peer]) && Askable(entries[peer], references)
      modifies this
      ensures Balanced(Value(), perPeer) && |requests| == |old(requests)| && Reserves(old(Value()), Value(), peer, references, now, i)
      ensures requestsAvailable == old(requestsAvailable) - 1
      ensures available == old(available)[peer := old(available)[peer] - |references|]
    {
      hide OncePerPeer, Lists, Askable;
      var list := TakeEntries(entries[peer], references, now);
      var k := FirstFree(requests);
      BusyUpdate(requests, k, Some(Record(peer, now, references)));
      entries := entries[peer := list];
      available := available[peer := available[peer] - |references|];
      requests := requests[k := Some(Record(peer, now, references))];
      requestsAvailable := requestsAvailable - 1;
      i := k;
    }

    /** The first loop of `Fulfill`: every peer that was asked for the block. */
    method DropFromPeers(x: Reference) returns (released: nat)
      requires |available| == |entries|
      requires forall m :: 0 <= m < |entries| ==> Charged(entries[m], available[m], perPeer) && OncePerPeer(entries[m])
      modifies this`entries, this`available
      ensures |entries| == |old(entries)| == |available|
      ensures forall m :: 0 <= m < |entries| ==> Charged(entries[m], available[m], perPeer) && OncePerPeer(entries[m])
      ensures forall m :: 0 <= m < |entries| ==> Dropped(old(entries)[m], entries[m], x)
      ensures Total(entries) + released == Total(old(entries))
    {
      hide Dropped, OncePerPeer, Total;
      released := 0;
      var p := 0;
      while p < |entries|
        invariant 0 <= p <= |entries| == |old(entries)| == |available|
        invariant forall m :: 0 <= m < |entries| ==> Charged(entries[m], available[m], perPeer) && OncePerPeer(entries[m])
        invariant forall m :: p <= m < |entries| ==> entries[m] == old(entries)[m]
        invariant forall m :: 0 <= m < p ==> Dropped(old(entries)[m], entries[m], x)
        invariant Total(entries) + released == Total(old(entries))
      {
        var list, n := DropReference(entries[p], x);
        TotalUpdate(entries, p, list);
        entries := entries[p := list];
        available := available[p := available[p] + n];
        released := released + n;
        p := p + 1;
      }
    }

    /** The second loop of `Fulfill`: every request that wanted the block. */
    method AnswerRequests(x: Reference)
      requires requestsAvailable + Busy(requests) == |requests|
      modifies this`requests, this`requestsAvailable
      ensures |requests| == |old(requests)| && requestsAvailable + Busy(requests) == |requests|
      ensures forall m :: 0 <= m < |requests| ==> requests[m] == Answered(old(requests)[m], x)
    {
      hide Answered;
      var i := 0;
      while i < |requests|
        invariant 0 <= i <= |requests| == |old(requests)| && requestsAvailable + Busy(requests) == |requests|
        invariant forall m :: 0 <= m < |requests| ==> requests[m] == if m < i then Answered(old(requests)[m], x) else old(requests)[m]
      {
        var answered := Answer(requests[i], x);
        BusyUpdate(requests, i, answered);
        if requests[i].Some? && answered.None? {
          requestsAvailable := requestsAvailable + 1;
        }
        requests := requests[i := answered];
        i := i + 1;
      }
    }

    /** `Fulfill`: the block has arrived; every peer asked for it gets its credit back. */
    method Fulfill(x: Reference) returns (released: nat)
      requires Valid()
      modifies this
      ensures Valid() && Fulfils(old(Value()), Value(), x) && Total(entries) + released == Total(old(entries))
    {
      hide Total;
      released := DropFromPeers(x);
      AnswerRequests(x);
      assert Fulfils(old(Value()), Value(), x);
      FulfilMatched(old(Value()), Value(), x);
      hide Matched, Fulfils;
      var balanced := Check();
      assert balanced;
    }

    /** One expired request: its entries are released, then the request itself. */
    method ExpireOne(i: nat) returns (expired: nat)
      requires Valid() && i < |requests| && requests[i].Some?
      modifies this
      ensures Valid() && Expires(old(Value()), Value(), i) && Total(entries) + expired == Total(old(entries))
    {
      hide Total;
      expired := 0;
      var record := requests[i].value;
      var p := record.peer;
      RequestPeer(Value(), i);
      var list := entries[p];
      var n := 0;
      while n < |record.references|
        invariant 0 <= n <= |record.references| && |list| == perPeer && OncePerPeer(list) && Value() == old(Value())
        invariant Busy(list) + expired == Busy(entries[p])
        invariant forall e :: Lists(list, e) <==>
          Lists(entries[p], e) && !(e.started == record.started && e.reference != NO_REFERENCE && e.reference in record.references[..n])
      {
        assert record.references[..n + 1] == record.references[..n] + [record.references[n]];
        if record.references[n] != NO_REFERENCE {
          var ok;
          list, ok := DropEntry(list, Entry.Entry(record.references[n], record.started));
          if ok {
            expired := expired + 1;
          }
        }
        n := n + 1;
      }
      assert record.references[..n] == record.references;
      BusyUpdate(requests, i, None);
      TotalUpdate(entries, p, list);
      entries := entries[p := list];
      available := available[p := available[p] + expired];
      requests := requests[i := None];
      requestsAvailable := requestsAvailable + 1;
      assert Expires(old(Value()), Value(), i);
      ExpireMatched(old(Value()), Value(), i);
    }

    /** `Expire`: every request that has waited too long is given up. */
    method Expire(now: nat) returns (expired: nat)
      requires Valid()
      modifies this
      ensures Valid() && |requests| == |old(requests)|
      ensures forall i :: 0 <= i < |requests| ==> requests[i] == Kept(old(requests)[i], now)
      ensures Total(entries) + expired == Total(old(entries))
    {
      hide Total;
      expired := 0;
      var i := 0;
      while i < |requests|
        invariant 0 <= i <= |requests| == |old(requests)| && Valid() && Total(entries) + expired == Total(old(entries))
        invariant forall m :: 0 <= m < |requests| ==> requests[m] == if m < i then Kept(old(requests)[m], now) else old(requests)[m]
      {
        if requests[i].Some? && Elapsed(requests[i].value.started, now) >= EXPIRES {
          var n := ExpireOne(i);
          expired := expired + n;
        }
        i := i + 1;
      }
      var balanced := Check();
      assert balanced;
    }
  }

  /** A request that has waited too long is gone. */
  function Kept(r: Option<Record>, now: nat): (q: Option<Record>) {
    if r.Some? && Elapsed(r.value.started, now) >= EXPIRES then None else r
  }

  /** Exactly the requests that are 250 ms old or older are given up. */
  lemma KeptByFields(r: Option<Record>, now: nat)
    ensures Kept(r, now) == if r.Some? && now >= r.value.started + 250_000_000 then None else r
  {
  }

  predicate Charged(list: seq<Option<Entry>>, available: int, perPeer: nat) {
    |list| == perPeer && available + Busy(list) == perPeer
  }

  /** A busy request wants something, so its peer is one of the members. */
  lemma RequestPeer(s: State, i: nat)
    requires Matched(s) && i < |s.requests| && s.requests[i].Some?
    ensures s.requests[i].value.peer < |s.entries|
  {
    var r := s.requests[i].value;
    var x :| Wants(r, x);
    assert Covers(s, i, r.peer, Entry.Entry(x, r.started));
  }
}
