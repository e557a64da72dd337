/** Persisting a view, repairing towards a canonical suffix, installing it, checkpointing. */
module ConsensusRepair {
  import opened Chains
  import opened Consensus
  import opened ConsensusInvariant
  import opened ConsensusFacts
  import opened ConsensusLocal

  // ---- persisting a view ----------------------------------------------------------

  lemma PersistDisk(p: Params, s: Cluster, i: nat, r: Replica, q: Replica)
    requires r.dirty == {} && DiskOK(s, r) && Legit(s, r.logView, r.durableView, r.head)
    requires Stored(r, r.head, |r.head|, r.dirty)
    requires q == r.(durableView := q.durableView, durableHead := |r.head|, durableCommit := q.durableCommit)
    requires q.durableView >= r.durableView && q.durableCommit >= r.durableCommit
    ensures DiskOK(s, q)
  {
    forall op | op in q.disk && q.disk[op].Good? ensures SlotOK(s, q, op, q.disk[op].chain) {
      var c := q.disk[op].chain;
      assert SlotOK(s, r, op, c);
      if op > |q.checkpoint| && op >= q.durableCommit && !Obsolete(op, c, q.durableHead, q.logView) {
        if op <= |r.head| {
          assert SlotHas(r, op, r.head[..op]);
          LegitPrefix(s, r.logView, r.durableView, r.head, r.head[..op]);
        }
        assert Legit(s, r.logView, r.durableView, c);
      }
    }
  }

  lemma PersistOwed(p: Params, s: Cluster, i: nat, r: Replica, q: Replica)
    requires |s.rs| == p.n && OwedDurable(p, s, i, r) && OwedClean(p, s, i, r)
    requires q == r.(durableView := q.durableView, durableHead := |r.head|, durableCommit := q.durableCommit)
    requires q.durableCommit >= r.durableCommit
    ensures OwedDurable(p, s, i, q) && OwedClean(p, s, i, q)
  {
    hide Owes;
    forall w: nat, h: Chain | Owes(p, s, i, q.logView, w, h)
      ensures Durable(q, h) && h <= q.head && Above(q.dirty, |h|)
    {
      assert Durable(r, h) && h <= r.head && Above(r.dirty, |h|);
      assert Stored(r, h, |h|, {}) ==> Stored(q, h, |h|, {});
    }
  }

  lemma PersistLocal(p: Params, s: Cluster, i: nat, r: Replica)
    requires ValidParams(p) && |s.rs| == p.n && ReplicaOK(p, s, i, r)
    requires r.status == ViewChange && r.dirty == {}
    ensures ReplicaOK(p, s, i, r.(durableView := r.view, durableHead := |r.head|,
                                  durableCommit := Max(r.durableCommit, r.commitMax)))
  {
    hide DiskOK, OwedDurable, OwedClean, NonceOK, BasicOK, LiveOK, Stored, CommitKnown, Legit;
    var q := r.(durableView := r.view, durableHead := |r.head|, durableCommit := Max(r.durableCommit, r.commitMax));
    ChangingIsLive(p, s, i, r);
    PersistBasic(p, s, i, r, q);
    PersistDisk(p, s, i, r, q);
    PersistOwed(p, s, i, r, q);
    PersistLegit(s, r.logView, r.durableView, r.view, r.head);
    if r.nonce != 0 { NonceLive(p, s, i, r, q); }
  }

  lemma ChangingIsLive(p: Params, s: Cluster, i: nat, r: Replica)
    requires BasicOK(p, s, i, r) && r.status == ViewChange
    ensures Live(r)
  {
  }

  lemma PersistLegit(s: Cluster, l: nat, d: nat, d': nat, c: Chain)
    requires Legit(s, l, d, c) && d <= d'
    ensures Legit(s, l, d', c)
  {
  }

  lemma PersistBasic(p: Params, s: Cluster, i: nat, r: Replica, q: Replica)
    requires r.status == ViewChange && r.dirty == {} && BasicOK(p, s, i, r) && LiveOK(p, s, r)
    requires Stored(r, r.head, |r.head|, r.dirty)
    requires q == r.(durableView := r.view, durableHead := |r.head|, durableCommit := Max(r.durableCommit, r.commitMax))
    ensures Live(r) && q.durableCommit == r.commitMax && r.durableView <= r.view && r.durableCommit <= r.commitMax
    ensures BasicOK(p, s, i, q) && LiveOK(p, s, q) && CommitKnown(p, s, q, q.durableCommit)
    ensures Stored(q, q.head, |q.head|, q.dirty)
  {
    hide Known;
    CommitKnownStays(p, s, r, q, r.commitMax);
  }

  // ---- entering repair --------------------------------------------------------------

  ghost predicate TargetOK(p: Params, s: Cluster, i: nat, r: Replica, v: nat, t: Chain)
    requires ValidParams(p) && |s.rs| == p.n
  {
    && Known(s, t) && OwedWithin(p, s, i, r.logView, t)
    && if Primary(p, v) == i then v > r.logView && (v, t) in s.selections
       else v in s.logs && v in s.canon && t <= s.logs[v] && (v > r.logView ==> s.canon[v] <= t)
  }

  lemma AncestorStored(p: Params, s: Cluster, r: Replica, t: Chain, a: nat)
    requires Stored(r, r.head, |r.head|, r.dirty) && AncestorAt(r, t, a)
    ensures Stored(r, t, a, r.dirty)
  {
    forall op: nat | |r.checkpoint| < op <= a && op <= |t| && op >= r.durableCommit && op !in r.dirty
      ensures SlotHas(r, op, t[..op])
    {
      if a <= |r.head| && r.head[..a] == t[..a] {
        assert r.head[..a][..op] == r.head[..op] && t[..a][..op] == t[..op];
        assert SlotHas(r, op, r.head[..op]);
      }
    }
  }

  lemma EnterRepairOK(p: Params, s: Cluster, i: nat, r: Replica, q: Replica)
    requires ValidParams(p) && |s.rs| == p.n && InvLogs(p, s) && BasicOK(p, s, i, r)
    requires r.repair.NoRepair? && Stored(r, r.head, |r.head|, r.dirty)
    requires q.repair.Repair? && !q.repair.rebuilt
    requires q == r.(status := RecoveringHead, commitMax := q.commitMax, nonce := q.nonce, repair := q.repair)
    requires var t := q.repair.target; var v := q.repair.view;
      && v == r.view == r.durableView && AncestorAt(r, t, q.repair.ancestor) && TargetOK(p, s, i, r, v, t)
      && r.commitMin <= q.repair.commit <= |t| && q.repair.commit <= q.commitMax
      && ChosenBy(p, s, v, t[..q.repair.commit])
      && (exists k :: |k| == q.commitMax && ChosenBy(p, s, v, k))
      && (q.commitMax == q.repair.commit || (v == r.logView && |t| == q.repair.commit))
    ensures RepairOK(p, s, i, q)
  {
    hide InvLogs, Known, ChosenBy, OwedWithin;
    var t := q.repair.target;
    var a := q.repair.ancestor;
    AncestorStored(p, s, r, t, a);
    assert Stored(q, t, a, q.dirty) by {
      forall op: nat | |q.checkpoint| < op <= a && op <= |t| && op >= q.durableCommit && op !in q.dirty
        ensures SlotHas(q, op, t[..op])
      {
        assert SlotHas(r, op, t[..op]);
      }
    }
    ByIsAny(p, s, r.durableView, r.checkpoint);
    ByIsAny(p, s, r.durableView, t[..q.repair.commit]);
    AnyChosenComparable(p, s, r.checkpoint, t[..q.repair.commit]);
    PrefixTrans(r.checkpoint, t[..q.repair.commit], t);
  }

  /** The invariant for everything but the repair itself, when a repair starts. */
  lemma EnterRepair(p: Params, s: Cluster, i: nat, r: Replica, q: Replica)
    requires ValidParams(p) && |s.rs| == p.n && ReplicaOK(p, s, i, r)
    requires r.repair.NoRepair? && q.repair.Repair? && !q.repair.rebuilt
    requires q == r.(status := RecoveringHead, commitMax := q.commitMax, nonce := q.nonce, repair := q.repair)
    requires q.commitMax >= r.commitMax
    requires q.nonce == 0 || (q.nonce == r.nonce && !r.faulty)
    requires RepairOK(p, s, i, q)
    ensures ReplicaOK(p, s, i, q)
  {
    hide Known, ChosenBy, Legit, RepairOK, Stored, Owes;
    CommitKnownStays(p, s, r, q, r.durableCommit);
    DiskStays(s, r, q);
    SameDurable(p, s, i, r, q);
    if q.nonce != 0 { NonceLive(p, s, i, r, q); }
  }

  lemma SameDurable(p: Params, s: Cluster, i: nat, r: Replica, q: Replica)
    requires |s.rs| == p.n && OwedDurable(p, s, i, r)
    requires q.disk == r.disk && q.checkpoint == r.checkpoint && q.durableCommit == r.durableCommit
    requires q.durableHead == r.durableHead && q.logView == r.logView
    ensures OwedDurable(p, s, i, q)
  {
    hide Owes;
    forall w: nat, h: Chain | Owes(p, s, i, q.logView, w, h) ensures Durable(q, h) {
      assert Durable(r, h);
      assert Stored(r, h, |h|, {}) ==> Stored(q, h, |h|, {}) by {
        if Stored(r, h, |h|, {}) {
          forall op: nat | |q.checkpoint| < op <= |h| && op >= q.durableCommit ensures SlotHas(q, op, h[..op]) {
            assert SlotHas(r, op, h[..op]);
          }
        }
      }
    }
  }

  // ---- during repair -------------------------------------------------------------------

  lemma TargetLegit(p: Params, s: Cluster, i: nat, r: Replica, k: Chain)
    requires ValidParams(p) && |s.rs| == p.n && r.repair.Repair? && RepairOK(p, s, i, r) && k <= r.repair.target
    requires r.logView <= r.durableView
    ensures Legit(s, r.logView, r.durableView, k)
  {
    var v := r.repair.view;
    var t := r.repair.target;
    if Primary(p, v) == i {
      assert Source(s, v, k);
    } else {
      PrefixTrans(k, t, s.logs[v]);
      assert InLog(s, v, k);
      assert v > r.logView ==> Source(s, v, k);
    }
  }

  /** Rewriting towards the target never disturbs the header behind the durable commit bound. */
  lemma RewriteCommitKnown(p: Params, s: Cluster, i: nat, r: Replica, q: Replica, op: nat)
    requires ValidParams(p) && |s.rs| == p.n && InvLogs(p, s) && r.repair.Repair? && RepairOK(p, s, i, r)
    requires CommitKnown(p, s, r, r.durableCommit) && r.durableCommit <= r.commitMax
    requires op <= |r.repair.target| && q == r.(disk := r.disk[op := Good(r.repair.target[..op])])
    ensures CommitKnown(p, s, q, q.durableCommit)
  {
    hide InvLogs, OwedWithin, Stored, Known;
    var t := r.repair.target;
    var k :| |k| == r.durableCommit && KnownBy(p, s, r, k);
    if !ChosenBy(p, s, r.logView, k) && op == |k| {
      assert op <= r.repair.commit;
      ByIsAny(p, s, r.durableView, k);
      ByIsAny(p, s, r.durableView, t[..r.repair.commit]);
      AnyChosenComparable(p, s, k, t[..r.repair.commit]);
      assert k == t[..op];
    }
    assert KnownBy(p, s, q, k);
  }

  lemma RewriteOwed(p: Params, s: Cluster, i: nat, r: Replica, q: Replica, op: nat)
    requires |s.rs| == p.n && OwedDurable(p, s, i, r)
    requires r.repair.Repair? && OwedWithin(p, s, i, r.logView, r.repair.target)
    requires op <= |r.repair.target| && q == r.(disk := r.disk[op := Good(r.repair.target[..op])])
    ensures OwedDurable(p, s, i, q)
  {
    hide Owes, Durable;
    var t := r.repair.target;
    forall w: nat, h: Chain | Owes(p, s, i, q.logView, w, h) ensures Durable(q, h) {
      assert Durable(r, h) && h <= t;
      assert op <= |h| ==> t[..op] == h[..op];
      DurableOver(r, q, op, t[..op], h);
    }
  }

  lemma RewriteRepairOK(p: Params, s: Cluster, i: nat, r: Replica, q: Replica, op: nat)
    requires ValidParams(p) && |s.rs| == p.n && r.repair.Repair? && RepairOK(p, s, i, r) && !r.repair.rebuilt
    requires r.repair.ancestor < op <= |r.repair.target|
    requires q == r.(disk := r.disk[op := Good(r.repair.target[..op])])
    ensures RepairOK(p, s, i, q)
  {
    hide Known, ChosenBy, OwedWithin;
    var t := r.repair.target;
    var a := r.repair.ancestor;
    forall x: nat | |q.checkpoint| < x <= a && x <= |t| && x >= q.durableCommit && x !in q.dirty
      ensures SlotHas(q, x, t[..x])
    {
      assert SlotHas(r, x, t[..x]);
    }
  }

  lemma RepairFacts(p: Params, s: Cluster, i: nat, r: Replica)
    requires ValidParams(p) && |s.rs| == p.n && ReplicaOK(p, s, i, r) && r.repair.Repair?
    ensures r.logView <= r.durableView && r.durableCommit <= r.commitMax && !Live(r)
    ensures r.checkpoint <= r.head && r.commitMin <= |r.head|
    ensures RepairOK(p, s, i, r) && Known(s, r.repair.target) && OwedWithin(p, s, i, r.logView, r.repair.target)
  {
    hide Known, ChosenBy, OwedWithin, Stored;
  }

  /** Only the journal changed: everything stated about memory alone carries over. */
  lemma OnlyDisk(p: Params, s: Cluster, i: nat, r: Replica, q: Replica)
    requires ValidParams(p) && |s.rs| == p.n && q == r.(disk := q.disk)
    ensures BasicOK(p, s, i, r) ==> BasicOK(p, s, i, q)
    ensures OwedClean(p, s, i, r) ==> OwedClean(p, s, i, q)
    ensures NonceOK(p, s, i, r) ==> NonceOK(p, s, i, q)
  {
    hide Known, ChosenBy, Owes, OwedWithin, PrimaryOK;
    if BasicOK(p, s, i, r) && r.status == Normal && Primary(p, r.view) == i {
      assert PrimaryOK(p, s, r);
      PrimarySame(p, s, r, q);
    }
  }

  lemma PrimarySame(p: Params, s: Cluster, r: Replica, q: Replica)
    requires PrimaryOK(p, s, r) && q.view == r.view && q.head == r.head && q.commitMax == r.commitMax
    ensures PrimaryOK(p, s, q)
  {
  }

  lemma RewriteDisk(p: Params, s: Cluster, i: nat, r: Replica, q: Replica, op: nat)
    requires ValidParams(p) && |s.rs| == p.n && InvLogs(p, s) && ReplicaOK(p, s, i, r)
    requires r.repair.Repair? && !r.repair.rebuilt && r.repair.ancestor < op <= |r.repair.target|
    requires q == r.(disk := r.disk[op := Good(r.repair.target[..op])])
    ensures DiskOK(s, q)
  {
    hide InvLogs, Known, DiskOK, RepairOK, Legit;
    var t := r.repair.target;
    RepairFacts(p, s, i, r);
    KnownPrefix(p, s, t, t[..op]);
    TargetLegit(p, s, i, r, t[..op]);
    DiskOver(s, r, q, op, t[..op]);
  }

  /** While a repair is running, a new journal that keeps what is stated about the disk keeps the rest. */
  lemma NewDiskLocal(p: Params, s: Cluster, i: nat, r: Replica, q: Replica)
    requires ValidParams(p) && |s.rs| == p.n && ReplicaOK(p, s, i, r) && r.repair.Repair? && !Live(r)
    requires q == r.(disk := q.disk)
    requires DiskOK(s, q) && CommitKnown(p, s, q, q.durableCommit) && OwedDurable(p, s, i, q) && RepairOK(p, s, i, q)
    ensures ReplicaOK(p, s, i, q)
  {
    hide Known, DiskOK, CommitKnown, OwedDurable, OwedClean, OwedWithin, RepairOK, Legit, NonceOK, BasicOK, Stored, LiveOK;
    OnlyDisk(p, s, i, r, q);
  }

  lemma RewriteLocal(p: Params, s: Cluster, i: nat, r: Replica, op: nat)
    requires ValidParams(p) && |s.rs| == p.n && InvLogs(p, s) && ReplicaOK(p, s, i, r)
    requires r.repair.Repair? && !r.repair.rebuilt && r.repair.ancestor < op <= |r.repair.target|
    ensures ReplicaOK(p, s, i, r.(disk := r.disk[op := Good(r.repair.target[..op])]))
  {
    var q := r.(disk := r.disk[op := Good(r.repair.target[..op])]);
    RepairFacts(p, s, i, r);
    assert CommitKnown(p, s, r, r.durableCommit) && OwedDurable(p, s, i, r);
    hide *;
    RewriteDisk(p, s, i, r, q, op);
    RewriteCommitKnown(p, s, i, r, q, op);
    RewriteOwed(p, s, i, r, q, op);
    RewriteRepairOK(p, s, i, r, q, op);
    NewDiskLocal(p, s, i, r, q);
  }

  lemma NonceSame(p: Params, s: Cluster, i: nat, r: Replica, q: Replica)
    requires |s.rs| == p.n && NonceOK(p, s, i, r)
    requires q.nonce == r.nonce && q.logView == r.logView && q.faulty == r.faulty
    ensures NonceOK(p, s, i, q)
  {
    hide OwedWithin;
  }

  lemma RebuildRepairOK(p: Params, s: Cluster, i: nat, r: Replica, q: Replica)
    requires ValidParams(p) && |s.rs| == p.n && r.repair.Repair? && RepairOK(p, s, i, r) && !r.repair.rebuilt
    requires r.dirty == {} && Rewritten(r)
    requires q == r.(head := r.repair.target, view := r.repair.view, repair := r.repair.(rebuilt := true))
    ensures RepairOK(p, s, i, q)
  {
    hide Known, ChosenBy, OwedWithin;
    var t := r.repair.target;
    forall x: nat | |q.checkpoint| < x <= |t| && x >= q.durableCommit ensures SlotHas(q, x, t[..x]) {
      if x <= r.repair.ancestor { assert SlotHas(r, x, t[..x]); }
    }
  }

  lemma RebuildLocal(p: Params, s: Cluster, i: nat, r: Replica)
    requires ValidParams(p) && |s.rs| == p.n && ReplicaOK(p, s, i, r)
    requires r.repair.Repair? && !r.repair.rebuilt && r.dirty == {} && Rewritten(r)
    ensures ReplicaOK(p, s, i, r.(head := r.repair.target, view := r.repair.view, repair := r.repair.(rebuilt := true)))
  {
    var q := r.(head := r.repair.target, view := r.repair.view, repair := r.repair.(rebuilt := true));
    RebuildRepairOK(p, s, i, r, q);
    hide Known, ChosenBy, Legit, Stored, Owes, SlotHas, OwedWithin;
    assert BasicOK(p, s, i, q);
    CommitKnownStays(p, s, r, q, r.durableCommit);
    DiskStays(s, r, q);
    SameDurable(p, s, i, r, q);
    if q.nonce != 0 { NonceSame(p, s, i, r, q); }
  }
}
