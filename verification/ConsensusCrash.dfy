/** Recovery from a crash keeps the invariant. */
module ConsensusCrash {
  import opened Chains
  import opened Consensus
  import opened ConsensusInvariant
  import opened ConsensusFacts
  import opened ConsensusLocal

  /** Recovery found no damaged slot above the checkpoint. */
  predicate NoDamage(r: Replica, disk: map<nat, Slot>) {
    forall op :: op in disk && op > |r.checkpoint| ==> disk[op] != Bad
  }

  lemma CrashSlots(r: Replica, q: Replica, kept: set<nat>, damaged: set<nat>, op: nat, c: Chain)
    requires kept <= r.dirty && q.disk == Crashed(r, kept, damaged)
    requires op !in r.dirty && SlotHas(r, op, c)
    ensures SlotHas(q, op, c)
  {
  }

  lemma CrashDisk(p: Params, s: Cluster, i: nat, r: Replica, q: Replica, kept: set<nat>, damaged: set<nat>)
    requires ValidParams(p) && |s.rs| == p.n && InvLogs(p, s) && DiskOK(s, r) && Known(s, r.head)
    requires forall op :: op in r.dirty ==> 1 <= op <= |r.head|
    requires r.dirty != {} ==> Legit(s, r.logView, r.durableView, r.head)
    requires kept <= r.dirty && q.disk == Crashed(r, kept, damaged)
    requires q.checkpoint == r.checkpoint && q.durableCommit == r.durableCommit && q.durableHead == r.durableHead
    requires q.logView == r.logView && q.durableView == r.durableView
    ensures DiskOK(s, q)
  {
    hide InvLogs, Known, Legit;
    forall op | op in q.disk && q.disk[op].Good? ensures SlotOK(s, q, op, q.disk[op].chain) {
      var c := q.disk[op].chain;
      if op in kept && c == r.head[..op] {
        KnownPrefix(p, s, r.head, c);
        LegitPrefix(s, r.logView, r.durableView, r.head, c);
      } else {
        assert SlotOK(s, r, op, c);
      }
    }
  }

  lemma CrashDurable(r: Replica, q: Replica, kept: set<nat>, damaged: set<nat>, h: Chain)
    requires Durable(r, h) && Above(r.dirty, |h|) && kept <= r.dirty && q.disk == Crashed(r, kept, damaged)
    requires q.checkpoint == r.checkpoint && q.durableCommit == r.durableCommit && q.durableHead == r.durableHead
    requires q.logView == r.logView
    ensures Durable(q, h)
  {
    if !(h <= r.checkpoint) {
      forall x: nat | |q.checkpoint| < x <= |h| && x >= q.durableCommit ensures SlotHas(q, x, h[..x]) {
        assert SlotHas(r, x, h[..x]);
        CrashSlots(r, q, kept, damaged, x, h[..x]);
      }
    }
  }

  lemma CrashOwed(p: Params, s: Cluster, i: nat, r: Replica, q: Replica, kept: set<nat>, damaged: set<nat>)
    requires |s.rs| == p.n && OwedDurable(p, s, i, r) && (r.dirty != {} ==> OwedClean(p, s, i, r))
    requires kept <= r.dirty && q.disk == Crashed(r, kept, damaged)
    requires q.checkpoint == r.checkpoint && q.durableCommit == r.durableCommit && q.durableHead == r.durableHead
    requires q.logView == r.logView
    ensures OwedDurable(p, s, i, q)
  {
    hide Owes, Durable;
    forall w: nat, h: Chain | Owes(p, s, i, q.logView, w, h) ensures Durable(q, h) {
      assert Durable(r, h) && Above(r.dirty, |h|);
      CrashDurable(r, q, kept, damaged, h);
    }
  }

  lemma RecoveredKnown(p: Params, s: Cluster, q: Replica, head: Chain)
    requires ValidParams(p) && |s.rs| == p.n && InvLogs(p, s) && DiskOK(s, q) && Known(s, q.checkpoint)
    requires IsRecovered(q, q.disk, head)
    ensures Known(s, head)
  {
    if |head| > |q.checkpoint| {
      assert Usable(q, q.disk, |head|, head[..|head|]);
      assert head[..|head|] == head;
      assert SlotOK(s, q, |head|, head);
    }
  }

  /** A cleanly recovered log is legitimate. */
  lemma RecoveredLegit(p: Params, s: Cluster, q: Replica, head: Chain)
    requires ValidParams(p) && |s.rs| == p.n && InvLogs(p, s) && DiskOK(s, q)
    requires IsRecovered(q, q.disk, head) && q.durableCommit <= |head|
    requires q.logView in s.logs && q.logView <= q.durableView && ChosenBy(p, s, q.durableView, q.checkpoint)
    ensures Legit(s, q.logView, q.durableView, head)
  {
    hide InvLogs;
    if |head| > |q.checkpoint| {
      assert Usable(q, q.disk, |head|, head[..|head|]);
      assert head[..|head|] == head;
      assert SlotOK(s, q, |head|, head);
    } else {
      assert head == q.checkpoint;
      if head != [] {
        var u: nat :| u <= q.durableView && Chosen(p, s, u, head);
        ChosenIsChoosable(p, s, u, head);
        if u <= q.logView {
          CanonCovers(p, s, q.logView, u, head);
        } else {
          assert Source(s, u, head);
        }
      } else {
        assert InLog(s, q.logView, head);
      }
    }
  }

  /** Recovery reaches everything the replica owes. */
  lemma RecoveredReaches(p: Params, s: Cluster, i: nat, q: Replica, w: nat, h: Chain)
    requires ValidParams(p) && |s.rs| == p.n && InvLogs(p, s) && q.logView in s.logs
    requires Legit(s, q.logView, q.durableView, q.head) && IsRecovered(q, q.disk, q.head)
    requires NoDamage(q, q.disk) && q.durableCommit <= |q.head|
    requires Owes(p, s, i, q.logView, w, h) && Durable(q, h)
    ensures h <= q.head
  {
    hide InvLogs, Legit, Choosable;
    LegitComparable(p, s, q.logView, q.durableView, q.head, w, h);
    if |h| > |q.head| {
      NextUsable(q, h);
      assert false;
    }
  }

  /** If something durable continues past `head`, so would recovery. */
  lemma NextUsable(q: Replica, h: Chain)
    requires q.checkpoint <= q.head && NoDamage(q, q.disk) && q.durableCommit <= |q.head|
    requires q.head <= h && |h| > |q.head| && Durable(q, h)
    ensures Continues(q, q.disk, q.head)
  {
    var next := |q.head| + 1;
    var c := h[..next];
    assert SlotHas(q, next, c);
    assert c[..|c| - 1] == q.head;
    assert ViewOf(c) == h[next - 1].view;
  }

  lemma RecoveredClean(p: Params, s: Cluster, i: nat, q: Replica)
    requires ValidParams(p) && |s.rs| == p.n && InvLogs(p, s) && q.logView in s.logs
    requires Legit(s, q.logView, q.durableView, q.head) && IsRecovered(q, q.disk, q.head)
    requires NoDamage(q, q.disk) && q.durableCommit <= |q.head| && q.dirty == {} && OwedDurable(p, s, i, q)
    ensures OwedClean(p, s, i, q)
  {
    hide InvLogs, Owes, Durable, Legit;
    forall w: nat, h: Chain | Owes(p, s, i, q.logView, w, h) ensures h <= q.head && Above(q.dirty, |h|) {
      RecoveredReaches(p, s, i, q, w, h);
    }
  }

  lemma RecoveredStored(q: Replica)
    requires IsRecovered(q, q.disk, q.head)
    ensures Stored(q, q.head, |q.head|, q.dirty) && Recent(q.head, Max(q.durableHead, |q.checkpoint|), q.logView)
  {
    forall op: nat | |q.checkpoint| < op <= |q.head| ensures SlotHas(q, op, q.head[..op]) {
      assert Usable(q, q.disk, op, q.head[..op]);
    }
    forall k: nat | Max(q.durableHead, |q.checkpoint|) <= k < |q.head| ensures q.head[k].view >= q.logView {
      assert Usable(q, q.disk, k + 1, q.head[..k + 1]);
    }
  }

  // ---- what recovery may commit ------------------------------------------------------

  /** The header behind the durable commit bound is in the recovered log. */
  lemma RecoveredBound(p: Params, s: Cluster, i: nat, r: Replica, q: Replica, kept: set<nat>, damaged: set<nat>)
    requires ValidParams(p) && |s.rs| == p.n && InvLogs(p, s) && CommitKnown(p, s, r, r.durableCommit)
    requires kept <= r.dirty && q.disk == Crashed(r, kept, damaged) && q.dirty == {} && Live(q)
    requires q.checkpoint == r.checkpoint && q.durableCommit == r.durableCommit
    requires q.logView == r.logView && q.durableView == r.durableView && q.logView in s.logs
    requires Legit(s, q.logView, q.durableView, q.head) && IsRecovered(q, q.disk, q.head)
    requires NoDamage(q, q.disk) && q.durableCommit <= |q.head| && |q.checkpoint| <= q.durableCommit
    requires q.logView <= q.durableView && ChosenBy(p, s, q.durableView, q.checkpoint)
    ensures KnownBy(p, s, q, q.head[..q.durableCommit]) && ChosenBy(p, s, q.durableView, q.head[..q.durableCommit])
  {
    hide InvLogs, Legit;
    var k :| |k| == r.durableCommit && KnownBy(p, s, r, k);
    var c := q.head[..q.durableCommit];
    if ChosenBy(p, s, r.logView, k) {
      LegitChosenComparable(p, s, q.logView, q.durableView, q.head, k);
    } else if k <= r.checkpoint {
      PrefixTrans(k, q.checkpoint, q.head);
    } else if |k| > |q.checkpoint| {
      CrashSlots(r, q, kept, damaged, |k|, k);
      assert Usable(q, q.disk, |k|, q.head[..|k|]);
    } else {
      ByIsAny(p, s, q.durableView, k);
      ByIsAny(p, s, q.durableView, q.checkpoint);
      AnyChosenComparable(p, s, k, q.checkpoint);
      PrefixTrans(k, q.checkpoint, q.head);
    }
    assert k == c;
    assert |c| > |q.checkpoint| ==> SlotHas(q, |c|, c) by {
      if |c| > |q.checkpoint| { assert Usable(q, q.disk, |c|, q.head[..|c|]); }
    }
  }

  lemma RecoveredCommitChosen(p: Params, s: Cluster, q: Replica)
    requires ValidParams(p) && |s.rs| == p.n && InvLogs(p, s) && Known(s, q.head)
    requires ViewOf(q.head) <= q.durableView && q.durableCommit <= |q.head|
    requires ChosenBy(p, s, q.durableView, q.head[..q.durableCommit])
    requires RecoveredCommit(p, q, q.head) <= |q.head|
    ensures ChosenBy(p, s, q.durableView, q.head[..RecoveredCommit(p, q, q.head)])
  {
    hide InvLogs, Known;
    var n := RecoveredCommit(p, q, q.head);
    if n > q.durableCommit {
      KnownCommit(p, s, q.head);
      ChosenByPrefix(p, s, ViewOf(q.head), q.head[..CommitOf(q.head)], q.head[..n]);
    }
  }

  lemma RecoveredLive(p: Params, s: Cluster, q: Replica, n: nat)
    requires IsRecovered(q, q.disk, q.head) && q.dirty == {} && n <= |q.head| && |q.checkpoint| <= n
    requires ChosenBy(p, s, q.durableView, q.head[..n])
    ensures CommitKnown(p, s, q, n)
  {
    hide ChosenBy;
    var k := q.head[..n];
    if n > |q.checkpoint| {
      assert Usable(q, q.disk, n, q.head[..n]);
    } else {
      assert k == q.checkpoint;
    }
    assert KnownBy(p, s, q, k);
  }

  // ---- the whole replica --------------------------------------------------------------

  /** What a crashed replica's invariant says about its disk and superblock. */
  lemma CrashFacts(p: Params, s: Cluster, i: nat, r: Replica)
    requires ValidParams(p) && |s.rs| == p.n && ReplicaOK(p, s, i, r)
    ensures DiskOK(s, r) && Known(s, r.head) && r.checkpoint <= r.head && OwedDurable(p, s, i, r)
    ensures forall op :: op in r.dirty ==> 1 <= op <= |r.head|
    ensures r.dirty != {} ==> Legit(s, r.logView, r.durableView, r.head) && OwedClean(p, s, i, r)
    ensures CommitKnown(p, s, r, r.durableCommit) && |r.checkpoint| <= r.durableCommit
    ensures r.logView in s.logs && r.logView <= r.durableView && ChosenBy(p, s, r.durableView, r.checkpoint)
  {
    hide Known, ChosenBy, Owes, Legit, Stored, CommitKnown;
  }

  /** The disk-level part, shared by both outcomes. */
  lemma CrashBase(p: Params, s: Cluster, i: nat, r: Replica, kept: set<nat>, damaged: set<nat>, head: Chain, faulty: bool)
    requires ValidParams(p) && |s.rs| == p.n && InvLogs(p, s) && ReplicaOK(p, s, i, r)
    requires kept <= r.dirty && IsRecovered(r, Crashed(r, kept, damaged), head)
    ensures var q := Reopen(p, i, r, Crashed(r, kept, damaged), head, faulty);
            DiskOK(s, q) && OwedDurable(p, s, i, q) && Known(s, head) && IsRecovered(q, q.disk, head)
  {
    var q := Reopen(p, i, r, Crashed(r, kept, damaged), head, faulty);
    hide InvLogs, ReplicaOK, Known, OwedDurable, OwedClean, Legit, DiskOK;
    CrashFacts(p, s, i, r);
    CrashDisk(p, s, i, r, q, kept, damaged);
    CrashOwed(p, s, i, r, q, kept, damaged);
    KnownPrefix(p, s, r.head, r.checkpoint);
    RecoveredSame(r, q, head);
    RecoveredKnown(p, s, q, head);
  }

  lemma RecoveredSame(r: Replica, q: Replica, head: Chain)
    requires IsRecovered(r, q.disk, head) && q.checkpoint == r.checkpoint
    requires q.durableHead == r.durableHead && q.logView == r.logView
    ensures IsRecovered(q, q.disk, head)
  {
    forall op | |q.checkpoint| < op <= |head| ensures Usable(q, q.disk, op, head[..op]) {
      assert Usable(r, q.disk, op, head[..op]);
    }
  }

  lemma RestartFaulty(p: Params, s: Cluster, i: nat, r: Replica, kept: set<nat>, damaged: set<nat>, head: Chain)
    requires ValidParams(p) && |s.rs| == p.n && InvLogs(p, s) && ReplicaOK(p, s, i, r)
    requires kept <= r.dirty && IsRecovered(r, Crashed(r, kept, damaged), head)
    ensures ReplicaOK(p, s, i, Reopen(p, i, r, Crashed(r, kept, damaged), head, true))
  {
    var q := Reopen(p, i, r, Crashed(r, kept, damaged), head, true);
    hide InvLogs, ReplicaOK, Known, OwedDurable, OwedClean, Legit, DiskOK, ChosenBy, Stored, IsRecovered, Crashed;
    CrashFacts(p, s, i, r);
    CrashBase(p, s, i, r, kept, damaged, head, true);
    RecoveredStored(q);
    CrashKnown(p, s, r, q, kept, damaged);
    RecoveredAbove(q, head);
    FaultyWhole(p, s, i, q);
  }

  lemma RecoveredAbove(q: Replica, head: Chain)
    requires IsRecovered(q, q.disk, head)
    ensures q.checkpoint <= head
  {
  }

  lemma CrashKnown(p: Params, s: Cluster, r: Replica, q: Replica, kept: set<nat>, damaged: set<nat>)
    requires CommitKnown(p, s, r, r.durableCommit) && !Live(q)
    requires kept <= r.dirty && q.disk == Crashed(r, kept, damaged) && q.dirty == {}
    requires q.checkpoint == r.checkpoint && q.durableCommit == r.durableCommit
    requires q.logView == r.logView && q.durableView == r.durableView
    ensures CommitKnown(p, s, q, q.durableCommit)
  {
    hide ChosenBy;
    CommitKnownStays(p, s, r, q, r.durableCommit);
  }

  lemma FaultyWhole(p: Params, s: Cluster, i: nat, q: Replica)
    requires ValidParams(p) && |s.rs| == p.n && q.faulty && q.repair.NoRepair? && q.nonce == 0 && q.dirty == {}
    requires q.status == RecoveringHead && q.view == q.durableView && q.commitMin == |q.checkpoint|
    requires q.commitMax == Max(q.durableCommit, |q.checkpoint|)
    requires DiskOK(s, q) && OwedDurable(p, s, i, q) && Known(s, q.head) && q.checkpoint <= q.head
    requires CommitKnown(p, s, q, q.durableCommit) && Stored(q, q.head, |q.head|, q.dirty)
    requires q.logView in s.logs && q.logView <= q.durableView && ChosenBy(p, s, q.durableView, q.checkpoint)
    requires |q.checkpoint| <= q.durableCommit
    ensures ReplicaOK(p, s, i, q)
  {
    hide Known, OwedDurable, OwedClean, Legit, DiskOK, ChosenBy, Stored, CommitKnown, LiveOK;
  }

  lemma RestartClean(p: Params, s: Cluster, i: nat, r: Replica, kept: set<nat>, damaged: set<nat>, head: Chain)
    requires ValidParams(p) && |s.rs| == p.n && InvLogs(p, s) && ReplicaOK(p, s, i, r)
    requires kept <= r.dirty && IsRecovered(r, Crashed(r, kept, damaged), head)
    requires NoDamage(r, Crashed(r, kept, damaged))
    requires r.durableCommit <= |head| && RecoveredCommit(p, r, head) <= |head|
    ensures ReplicaOK(p, s, i, Reopen(p, i, r, Crashed(r, kept, damaged), head, false))
    ensures AnyChosen(p, s, head[..RecoveredCommit(p, r, head)])
  {
    hide InvLogs, ReplicaOK, Known, OwedDurable, OwedClean, Legit, DiskOK, ChosenBy, Stored, IsRecovered, Crashed,
         NoDamage, Recent, CommitKnown, KnownBy, AnyChosen, RecoveredCommit;
    var q := Reopen(p, i, r, Crashed(r, kept, damaged), head, false);
    var n := RecoveredCommit(p, r, head);
    ReopenClean(p, i, r, Crashed(r, kept, damaged), head);
    CrashFacts(p, s, i, r);
    CrashBase(p, s, i, r, kept, damaged, head, false);
    RecoveredAbove(q, head);
    RecoveredStored(q);
    RecoveredLegit(p, s, q, head);
    RecoveredClean(p, s, i, q);
    RecoveredBound(p, s, i, r, q, kept, damaged);
    LegitView(p, s, q.logView, q.durableView, head);
    RecoveredCommitChosen(p, s, q);
    ByIsAny(p, s, q.durableView, head[..n]);
    RecoveredFloor(p, q, head);
    RecoveredLive(p, s, q, n);
    RecoveredLive(p, s, q, q.durableCommit);
    CleanWhole(p, s, i, q);
  }

  lemma ReopenClean(p: Params, i: nat, r: Replica, disk: map<nat, Slot>, head: Chain)
    requires ValidParams(p) && NoDamage(r, disk)
    ensures var q := Reopen(p, i, r, disk, head, false);
      && NoDamage(q, q.disk) && RecoveredCommit(p, q, q.head) == RecoveredCommit(p, r, head)
      && q.commitMin == RecoveredCommit(p, r, head) == q.commitMax
  {
  }

  lemma RecoveredFloor(p: Params, q: Replica, head: Chain)
    ensures RecoveredCommit(p, q, head) >= q.durableCommit
  {
  }

  lemma CleanWhole(p: Params, s: Cluster, i: nat, q: Replica)
    requires ValidParams(p) && |s.rs| == p.n && Live(q) && q.nonce == 0 && q.dirty == {}
    requires q.status == Normal || q.status == ViewChange
    requires q.status == Normal ==> q.view == q.logView && Primary(p, q.view) != i
    requires q.status == ViewChange ==> q.view > q.logView
    requires q.logView <= q.durableView <= q.view && q.logView in s.logs
    requires |q.checkpoint| <= q.durableCommit <= q.commitMin == q.commitMax <= |q.head|
    requires DiskOK(s, q) && OwedDurable(p, s, i, q) && OwedClean(p, s, i, q) && Known(s, q.head)
    requires q.checkpoint <= q.head && ChosenBy(p, s, q.durableView, q.checkpoint)
    requires CommitKnown(p, s, q, q.durableCommit) && CommitKnown(p, s, q, q.commitMax)
    requires Stored(q, q.head, |q.head|, q.dirty) && Recent(q.head, Max(q.durableHead, |q.checkpoint|), q.logView)
    requires Legit(s, q.logView, q.durableView, q.head) && ChosenBy(p, s, q.durableView, q.head[..q.commitMin])
    ensures ReplicaOK(p, s, i, q)
  {
    hide Known, OwedDurable, OwedClean, Legit, DiskOK, ChosenBy, Stored, CommitKnown, Recent, PrimaryOK;
  }
}
