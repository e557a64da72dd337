/**
  The block allocator (replication/block_allocator.go): which blocks are
  acquired, released, reserved and waiting to be released, and the two-phase
  release that a checkpoint completes.  Bit sets are sets of block indices.
 */
module Allocator {

  datatype Sets = Sets(
    count: nat, maximum: nat,
    acquired: set<nat>, released: set<nat>, reserved: set<nat>, pending: set<nat>, reservedReleased: set<nat>,
    checkpoint: set<nat>, active: bool, generation: nat)

  /** The two sets a checkpoint stores, and the blocks that hold its trailers. */
  datatype Candidate = Candidate(generation: nat, count: nat, acquired: set<nat>, released: set<nat>, addresses: seq<nat>)

  function Elements(addresses: seq<nat>): (r: set<nat>) {
    set i: nat | i in addresses
  }

  /** Blocks a stored pair of sets still needs. */
  function Live(acquired: set<nat>, released: set<nat>): (r: set<nat>) {
    acquired - released
  }

  predicate Available(s: Sets, i: nat) {
    (i !in s.acquired || i in s.released) && i !in s.reserved
  }

  // ---- operations ---------------------------------------------------------------------------

  /** What `Reserve` may return: the lowest available block, or a new one at the end if there is room. */
  predicate Reservable(s: Sets, i: nat) {
    || (i < s.count && Available(s, i) && forall j :: 0 <= j < i ==> !Available(s, j))
    || (i == s.count < s.maximum && forall j :: 0 <= j < s.count ==> !Available(s, j))
  }

  function Reserved(s: Sets, i: nat): (q: Sets) {
    s.(count := if i == s.count then s.count + 1 else s.count,
       reserved := s.reserved + {i},
       reservedReleased := if i < s.count && i in s.released then s.reservedReleased + {i} else s.reservedReleased,
       released := s.released - {i})
  }

  predicate Reserves(s: Sets, i: nat) {
    i < s.count && i in s.reserved
  }

  function Published(s: Sets, i: nat): (q: Sets) {
    s.(reserved := s.reserved - {i}, reservedReleased := s.reservedReleased - {i},
       released := s.released - {i}, acquired := s.acquired + {i})
  }

  /** Publishing every block of a set. */
  function PublishedAll(s: Sets, a: set<nat>): (q: Sets) {
    s.(acquired := s.acquired + a, released := s.released - a,
       reserved := s.reserved - a, reservedReleased := s.reservedReleased - a)
  }

  function Forfeited(s: Sets, i: nat): (q: Sets) {
    s.(reserved := s.reserved - {i}, reservedReleased := s.reservedReleased - {i},
       released := if i in s.reservedReleased then s.released + {i} else s.released)
  }

  predicate Releasable(s: Sets, i: nat) {
    i < s.count && i in s.acquired && i !in s.reserved && i !in s.released && i !in s.pending
  }

  predicate Cancellable(s: Sets, i: nat) {
    i < s.count && i in s.acquired && i !in s.reserved && i !in s.released && i in s.pending
  }

  /** `checkpointSets` */
  function CheckpointAcquired(s: Sets, addresses: seq<nat>): (r: set<nat>) {
    s.acquired + Elements(addresses)
  }

  function CheckpointReleased(s: Sets, addresses: seq<nat>): (r: set<nat>) {
    (s.released + s.pending) - Elements(addresses)
  }

  /** What preparing a checkpoint does once its trailer blocks are reserved. */
  function Prepared(s: Sets): (q: Sets) {
    s.(checkpoint := s.pending, active := true, generation := s.generation + 1)
  }

  function CandidateOf(s: Sets, addresses: seq<nat>): (c: Candidate) {
    Candidate(s.generation + 1, s.count, CheckpointAcquired(s, addresses), CheckpointReleased(s, addresses), addresses)
  }

  predicate TrailerStored(s: Sets, i: nat) {
    i < s.count && i !in s.reserved && i in s.acquired && i !in s.released && i !in s.pending
  }

  /** The checks of `CheckpointDurable`. */
  predicate Completable(s: Sets, c: Candidate, reachable: set<nat>) {
    && s.active && c.generation == s.generation && c.count <= s.count
    && (forall k :: 0 <= k < |c.addresses| ==> TrailerStored(s, c.addresses[k]))
    && (forall i :: i in s.checkpoint && i < c.count ==> i !in reachable)
  }

  function Completed(s: Sets, c: Candidate): (q: Sets) {
    var done := set i | i in s.checkpoint && i < c.count;
    s.(pending := s.pending - done, released := s.released + done, checkpoint := {}, active := false)
  }

  /** One address of an aborted checkpoint: a reservation is given up, a stored block is queued for release. */
  function AbortedOne(s: Sets, i: nat): (q: Sets) {
    if i in s.reserved then Forfeited(s, i)
    else if i in s.acquired && i !in s.pending && i !in s.released then s.(pending := s.pending + {i})
    else s
  }

  function AbortedUpTo(s: Sets, addresses: seq<nat>, k: nat): (q: Sets)
    requires k <= |addresses|
  {
    if k == 0 then s else AbortedOne(AbortedUpTo(s, addresses, k - 1), addresses[k - 1])
  }

  function Aborted(s: Sets, addresses: seq<nat>): (q: Sets) {
    AbortedUpTo(s, addresses, |addresses|).(checkpoint := {}, active := false)
  }

  /** `OpenBlockAllocator` on stored sets. */
  function Opened(maximum: nat, count: nat, acquired: set<nat>, released: set<nat>): (s: Sets) {
    Sets(count, maximum, acquired, released, {}, {}, {}, {}, false, 0)
  }

  // ---- what every operation keeps -------------------------------------------------------------

  ghost predicate Sound(s: Sets) {
    && (forall i :: i in s.acquired ==> i < s.count) && (forall i :: i in s.reserved ==> i < s.count)
    && s.released <= s.acquired && s.pending <= s.acquired
    && s.pending !! s.released && s.reserved !! s.released && s.reserved !! s.pending
    && (forall i :: i in s.reservedReleased <==> i in s.reserved && i in s.acquired)
    && (s.active ==> s.checkpoint <= s.pending)
  }

  lemma ReserveSound(s: Sets, i: nat)
    requires Sound(s) && Reservable(s, i)
    ensures Sound(Reserved(s, i)) && i !in s.reserved && i !in s.pending
    ensures i in s.acquired ==> i in s.released
  {
  }

  lemma PublishSound(s: Sets, i: nat)
    requires Sound(s) && Reserves(s, i)
    ensures Sound(Published(s, i))
  {
  }

  lemma ForfeitSound(s: Sets, i: nat)
    requires Sound(s) && Reserves(s, i)
    ensures Sound(Forfeited(s, i))
  {
  }

  /** Reserving and giving up again changes nothing but the number of blocks. */
  lemma ForfeitUndoesReserve(s: Sets, i: nat)
    requires Sound(s) && Reservable(s, i)
    ensures var q := Forfeited(Reserved(s, i), i);
      q == s.(count := q.count)
  {
    var q := Forfeited(Reserved(s, i), i);
    assert q.reserved == s.reserved && q.reservedReleased == s.reservedReleased && q.released == s.released;
  }

  lemma CompleteSound(s: Sets, c: Candidate)
    requires Sound(s) && s.active
    ensures Sound(Completed(s, c))
  {
  }

  lemma AbortOneSound(s: Sets, i: nat)
    requires Sound(s) && i < s.count
    ensures Sound(AbortedOne(s, i)) && AbortedOne(s, i).count == s.count
    ensures AbortedOne(s, i).active == s.active && AbortedOne(s, i).checkpoint == s.checkpoint
  {
  }

  lemma {:induction false} AbortSound(s: Sets, addresses: seq<nat>, k: nat)
    requires Sound(s) && k <= |addresses| && forall j :: 0 <= j < |addresses| ==> addresses[j] < s.count
    ensures var q := AbortedUpTo(s, addresses, k);
      Sound(q) && q.count == s.count && q.active == s.active && q.checkpoint == s.checkpoint
  {
    if k > 0 {
      AbortSound(s, addresses, k - 1);
      AbortOneSound(AbortedUpTo(s, addresses, k - 1), addresses[k - 1]);
    }
  }

  // ---- the life of a block -----------------------------------------------------------------------

  /** Free to be reserved; held by a reservation; in use; or in use until a checkpoint lets it go. */
  datatype Life = Free | Held | Used | Leaving

  function LifeOf(s: Sets, i: nat): (l: Life) {
    if i in s.reserved then Held
    else if i !in s.acquired || i in s.released then Free
    else if i in s.pending then Leaving else Used
  }

  /**
    A reservation takes the lowest free block or a new one, publishing puts it to
    use, and giving it up frees it; no other block moves.
   */
  lemma ReservedLife(s: Sets, i: nat, j: nat)
    requires Sound(s)
    ensures Reservable(s, i) <==>
      && i <= s.count && (i == s.count ==> i < s.maximum) && (i < s.count ==> LifeOf(s, i) == Free)
      && forall k: nat :: k < i ==> LifeOf(s, k) != Free
    ensures Reservable(s, i) ==> LifeOf(s, i) == Free && LifeOf(Reserved(s, i), j) == if j == i then Held else LifeOf(s, j)
    ensures Reserves(s, i) <==> LifeOf(s, i) == Held
    ensures Reserves(s, i) ==> LifeOf(Published(s, i), j) == if j == i then Used else LifeOf(s, j)
    ensures Reserves(s, i) ==> LifeOf(Forfeited(s, i), j) == if j == i then Free else LifeOf(s, j)
  {
    assert forall k: nat :: LifeOf(s, k) == Free <==> Available(s, k);
  }

  /** Exactly a block in use can be released, exactly a leaving one kept after all, and completion frees those that left. */
  lemma ReleasedLife(s: Sets, i: nat, j: nat, c: Candidate)
    requires Sound(s)
    ensures Releasable(s, i) <==> LifeOf(s, i) == Used
    ensures Releasable(s, i) ==> LifeOf(s.(pending := s.pending + {i}), j) == if j == i then Leaving else LifeOf(s, j)
    ensures Cancellable(s, i) <==> LifeOf(s, i) == Leaving
    ensures Cancellable(s, i) ==> LifeOf(s.(pending := s.pending - {i}), j) == if j == i then Used else LifeOf(s, j)
    ensures s.active ==>
      LifeOf(Completed(s, c), j) == if j in s.checkpoint && j < c.count then Free else LifeOf(s, j)
  {
  }

  /**
    A checkpoint can be completed exactly if it is the current one, its trailers
    are in use, and nothing that leaves is reachable.
   */
  lemma CompletableLife(s: Sets, c: Candidate, reachable: set<nat>)
    requires Sound(s)
    ensures Completable(s, c, reachable) <==>
      && s.active && c.generation == s.generation && c.count <= s.count
      && (forall i: nat :: i in c.addresses ==> LifeOf(s, i) == Used)
      && forall i: nat :: i in s.checkpoint && i in reachable ==> i >= c.count
  {
    forall k | 0 <= k < |c.addresses|
      ensures TrailerStored(s, c.addresses[k]) <==> LifeOf(s, c.addresses[k]) == Used
    {
    }
    if forall i: nat :: i in c.addresses ==> LifeOf(s, i) == Used {
      forall k | 0 <= k < |c.addresses|
        ensures LifeOf(s, c.addresses[k]) == Used
      {
        assert c.addresses[k] in c.addresses;
      }
    }
  }

  /** An aborted checkpoint loses no block: what its trailers held is free, and what they stored is leaving. */
  lemma {:induction false} AbortedLife(s: Sets, addresses: seq<nat>, k: nat, j: nat)
    requires Sound(s) && k <= |addresses| && forall i :: 0 <= i < |addresses| ==> addresses[i] < s.count
    ensures LifeOf(AbortedUpTo(s, addresses, k), j) ==
      if j !in addresses[..k] then LifeOf(s, j)
      else match LifeOf(s, j)
        case Held => Free
        case Used => Leaving
        case other => other
  {
    if k > 0 {
      AbortedLife(s, addresses, k - 1, j);
      AbortSound(s, addresses, k - 1);
      var q, i := AbortedUpTo(s, addresses, k - 1), addresses[k - 1];
      assert addresses[..k] == addresses[..k - 1] + [i];
      AbortedOneLife(q, i, j);
    }
  }

  lemma AbortedOneLife(s: Sets, i: nat, j: nat)
    requires Sound(s) && i < s.count
    ensures LifeOf(AbortedOne(s, i), j) ==
      if j != i then LifeOf(s, j) else match LifeOf(s, j) case Held => Free case Used => Leaving case other => other
  {
  }
}
