/**
  One checkpoint from staging its releases to the release of the trailers it
  supersedes (replication/replica_checkpoint.go), and reopening from it
  (replication/checkpoint_reachability.go).
 */
module CheckpointCycle {
  import opened Allocator
  import opened AllocatorRuns

  /** The conditions under which a checkpoint starts: what is reachable and the current trailers are in use. */
  ghost predicate Ready(s: Sets, reachable: set<nat>, trailers: set<nat>) {
    && Sound(s) && !s.active && s.reserved == {} && reachable !! trailers
    && forall i :: i in reachable || i in trailers ==> i in s.acquired && i !in s.released && i !in s.pending
  }

  /**
    `stageCheckpointReleases`, and `restoreCheckpointReleases` after reopening:
    everything in use that is neither reachable nor a current trailer.
   */
  function Staged(s: Sets, reachable: set<nat>, trailers: set<nat>): (q: Sets) {
    s.(pending := s.pending + (set i | i in s.acquired && i !in s.released && i !in s.pending && i !in reachable && i !in trailers))
  }

  /** Writing the trailers publishes their blocks one after the other. */
  function PublishedUpTo(s: Sets, addresses: seq<nat>, k: nat): (q: Sets)
    requires k <= |addresses|
  {
    if k == 0 then s else Published(PublishedUpTo(s, addresses, k - 1), addresses[k - 1])
  }

  /** The allocator when the superblock is about to be written. */
  function Written(s: Sets, reachable: set<nat>, trailers: set<nat>, addresses: seq<nat>, count: nat): (q: Sets) {
    PublishedUpTo(Prepared(Holding(Staged(s, reachable, trailers), addresses, count)), addresses, |addresses|)
  }

  function Stored(s: Sets, reachable: set<nat>, trailers: set<nat>, addresses: seq<nat>, count: nat): (c: Candidate) {
    CandidateOf(Holding(Staged(s, reachable, trailers), addresses, count), addresses)
  }

  /** The superseded trailers are released once the new checkpoint is durable. */
  function Superseding(s: Sets, trailers: set<nat>): (q: Sets) {
    s.(pending := s.pending + trailers)
  }

  lemma {:induction false} PublishAll(s: Sets, addresses: seq<nat>, k: nat)
    requires k <= |addresses|
    ensures PublishedUpTo(s, addresses, k) == PublishedAll(s, Elements(addresses[..k]))
  {
    if k == 0 {
      assert Elements(addresses[..0]) == {};
    } else {
      PublishAll(s, addresses, k - 1);
      assert Elements(addresses[..k]) == Elements(addresses[..k - 1]) + {addresses[k - 1]} by {
        assert addresses[..k] == addresses[..k - 1] + [addresses[k - 1]];
      }
      var e, f := Elements(addresses[..k - 1]), Elements(addresses[..k]);
      assert s.acquired + f == s.acquired + e + {addresses[k - 1]};
      assert s.released - f == s.released - e - {addresses[k - 1]};
      assert s.reserved - f == s.reserved - e - {addresses[k - 1]};
      assert s.reservedReleased - f == s.reservedReleased - e - {addresses[k - 1]};
    }
  }

  lemma WrittenSets(s: Sets, reachable: set<nat>, trailers: set<nat>, addresses: seq<nat>, count: nat)
    requires Ready(s, reachable, trailers) && Holdable(Staged(s, reachable, trailers), addresses, count)
    ensures var t := Staged(s, reachable, trailers);
      var a := Elements(addresses);
      Written(s, reachable, trailers, addresses, count) ==
        Prepared(t).(count := count, acquired := t.acquired + a, released := t.released - a, reserved := {}, reservedReleased := {})
  {
    var t := Staged(s, reachable, trailers);
    var a := Elements(addresses);
    PublishAll(Prepared(Holding(t, addresses, count)), addresses, |addresses|);
    assert addresses[..|addresses|] == addresses;
    assert (t.released - a) - a == t.released - a && a - a == {} && (a * t.released) - a == {};
  }

  /**
    Preparing and publishing is a true fixed point: completing the checkpoint
    leaves exactly the sets it stored, which include its own trailer blocks,
    and nothing waiting to be released.
   */
  lemma CompletionYieldsStored(s: Sets, reachable: set<nat>, trailers: set<nat>, addresses: seq<nat>, count: nat)
    requires Ready(s, reachable, trailers) && Holdable(Staged(s, reachable, trailers), addresses, count)
    ensures var c := Stored(s, reachable, trailers, addresses, count);
      var w := Written(s, reachable, trailers, addresses, count);
      && Elements(addresses) <= Live(c.acquired, c.released)
      && Completable(w, c, reachable + Elements(addresses))
      && Completed(w, c).acquired == c.acquired && Completed(w, c).released == c.released
      && Completed(w, c).pending == {} && Completed(w, c).reserved == {} && Completed(w, c).count == c.count
  {
    var t := Staged(s, reachable, trailers);
    var a := Elements(addresses);
    var c := Stored(s, reachable, trailers, addresses, count);
    var w := Written(s, reachable, trailers, addresses, count);
    WrittenSets(s, reachable, trailers, addresses, count);
    StagedSound(s, reachable, trailers);
    HoldingSound(t, addresses, count);
    assert forall i :: i in a <==> i in addresses;
    assert forall i :: i in a ==> i !in t.pending;
    var done := set i | i in w.checkpoint && i < c.count;
    assert done == t.pending;
    assert Completed(w, c).released == c.released;
    assert Completed(w, c).acquired == c.acquired;
  }

  lemma StagedSound(s: Sets, reachable: set<nat>, trailers: set<nat>)
    requires Ready(s, reachable, trailers)
    ensures var t := Staged(s, reachable, trailers);
      && Sound(t) && t.reserved == {} && !t.active
      && forall i :: i in t.acquired && i !in t.released && i !in t.pending <==> i in reachable || i in trailers
  {
  }

  /**
    Restart equals continuing: the replica that kept running through the
    completion of a checkpoint, and one that crashed once it was durable,
    reopened from it and restored its releases, have the same acquired,
    released and pending blocks.
   */
  lemma RestartEqualsContinuing(s: Sets, reachable: set<nat>, trailers: set<nat>, addresses: seq<nat>, count: nat)
    requires Ready(s, reachable, trailers) && Holdable(Staged(s, reachable, trailers), addresses, count)
    ensures var c := Stored(s, reachable, trailers, addresses, count);
      var running := Superseding(Completed(Written(s, reachable, trailers, addresses, count), c), trailers);
      var reopened := Staged(Opened(s.maximum, c.count, c.acquired, c.released), reachable, Elements(addresses));
      && running.acquired == reopened.acquired && running.released == reopened.released
      && running.pending == reopened.pending && running.reserved == reopened.reserved && running.count == reopened.count
  {
    var t := Staged(s, reachable, trailers);
    var a := Elements(addresses);
    var c := Stored(s, reachable, trailers, addresses, count);
    CompletionYieldsStored(s, reachable, trailers, addresses, count);
    WrittenSets(s, reachable, trailers, addresses, count);
    StagedSound(s, reachable, trailers);
    HoldingSound(t, addresses, count);
    assert forall i :: i in a <==> i in addresses;
    var reopened := Staged(Opened(s.maximum, c.count, c.acquired, c.released), reachable, a);
    forall i
      ensures i in reopened.pending <==> i in trailers
    {
      assert i in reopened.pending <==> i in c.acquired && i !in c.released && i !in reachable && i !in a;
    }
    assert reopened.pending == trailers;
  }

  /** The next checkpoint can start from there: the new trailers and what is reachable are in use. */
  lemma CycleReady(s: Sets, reachable: set<nat>, trailers: set<nat>, addresses: seq<nat>, count: nat)
    requires Ready(s, reachable, trailers) && Holdable(Staged(s, reachable, trailers), addresses, count)
    ensures var c := Stored(s, reachable, trailers, addresses, count);
      Ready(Superseding(Completed(Written(s, reachable, trailers, addresses, count), c), trailers), reachable, Elements(addresses))
  {
    var t := Staged(s, reachable, trailers);
    CompletionYieldsStored(s, reachable, trailers, addresses, count);
    WrittenSets(s, reachable, trailers, addresses, count);
    StagedSound(s, reachable, trailers);
    HoldingSound(t, addresses, count);
    assert forall i :: i in Elements(addresses) <==> i in addresses;
  }
}
