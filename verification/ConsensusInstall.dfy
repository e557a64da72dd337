/** Commits and checkpoints during repair, and the installation of a view. */
module ConsensusInstall {
  import opened Chains
  import opened Consensus
  import opened ConsensusInvariant
  import opened ConsensusFacts
  import opened ConsensusLocal
  import opened ConsensusRepair

  // ---- committing before installation ------------------------------------------------

  lemma RepairCommitLocal(p: Params, s: Cluster, i: nat, r: Replica, op: nat)
    requires ValidParams(p) && |s.rs| == p.n && ReplicaOK(p, s, i, r)
    requires r.repair.Repair? && r.repair.rebuilt && r.commitMin < op <= r.repair.commit
    ensures ReplicaOK(p, s, i, r.(commitMin := op, commitMax := Max(r.commitMax, op)))
  {
    hide BasicOK, DiskOK, CommitKnown, OwedDurable, RepairOK, NonceOK, ReplicaOK;
    var q := r.(commitMin := op, commitMax := Max(r.commitMax, op));
    RebuiltIff(p, s, i, r);
    RebuiltIff(p, s, i, q);
    RepairCommitParts(p, s, i, r, q);
    DiskStays(s, r, q);
    SameDurable(p, s, i, r, q);
    CommitKnownStays(p, s, r, q, r.durableCommit);
    if q.nonce != 0 { NonceSame(p, s, i, r, q); }
  }

  lemma RepairCommitParts(p: Params, s: Cluster, i: nat, r: Replica, q: Replica)
    requires r.repair.Repair? && r.repair.rebuilt && r.commitMin <= q.commitMin <= r.repair.commit
    requires q == r.(commitMin := q.commitMin, commitMax := Max(r.commitMax, q.commitMin))
    requires BasicOK(p, s, i, r) && RepairOK(p, s, i, r)
    ensures BasicOK(p, s, i, q) && RepairOK(p, s, i, q)
  {
    hide Known, ChosenBy, OwedWithin, Stored;
    assert q.commitMax == r.commitMax;
    CheckpointStored(r, q, r.head, {});
  }

  // ---- checkpoints ------------------------------------------------------------------------

  /** With a later checkpoint less of the journal matters. */
  lemma CheckpointDurable(r: Replica, q: Replica, h: Chain)
    requires Durable(r, h) && h <= r.head && q.checkpoint <= r.head && r.checkpoint <= q.checkpoint
    requires q == r.(checkpoint := q.checkpoint, durableCommit := q.durableCommit)
    requires q.durableCommit >= r.durableCommit
    ensures Durable(q, h)
  {
    PrefixesComparable(h, q.checkpoint, r.head);
    if !(h <= q.checkpoint) {
      assert !(h <= r.checkpoint);
      forall x: nat | |q.checkpoint| < x <= |h| && x >= q.durableCommit ensures SlotHas(q, x, h[..x]) {
        assert SlotHas(r, x, h[..x]);
      }
    }
  }

  lemma CheckpointOwed(p: Params, s: Cluster, i: nat, r: Replica, q: Replica)
    requires |s.rs| == p.n && OwedDurable(p, s, i, r) && OwedWithin(p, s, i, r.logView, r.head)
    requires q.checkpoint <= r.head && r.checkpoint <= q.checkpoint
    requires q == r.(checkpoint := q.checkpoint, durableCommit := q.durableCommit)
    requires q.durableCommit >= r.durableCommit
    ensures OwedDurable(p, s, i, q)
  {
    hide Owes, Durable;
    forall w: nat, h: Chain | Owes(p, s, i, q.logView, w, h) ensures Durable(q, h) {
      CheckpointDurable(r, q, h);
    }
  }

  lemma CheckpointStored(r: Replica, q: Replica, c: Chain, except: set<nat>)
    requires Stored(r, c, |c|, except) && q.disk == r.disk && |r.checkpoint| <= |q.checkpoint|
    requires q.durableCommit >= r.durableCommit
    ensures Stored(q, c, |c|, except)
  {
    forall x: nat | |q.checkpoint| < x <= |c| && x >= q.durableCommit && x !in except ensures SlotHas(q, x, c[..x]) {
      assert SlotHas(r, x, c[..x]);
    }
  }

  lemma CheckpointBasic(p: Params, s: Cluster, i: nat, r: Replica, q: Replica, op: nat)
    requires ValidParams(p) && |s.rs| == p.n && BasicOK(p, s, i, r)
    requires |r.checkpoint| < op <= r.commitMin && op <= |r.head| && ChosenBy(p, s, r.durableView, r.head[..op])
    requires q == r.(checkpoint := r.head[..op], durableCommit := r.commitMax)
    ensures BasicOK(p, s, i, q)
  {
    hide Known, ChosenBy;
  }

  lemma CheckpointLive(p: Params, s: Cluster, i: nat, r: Replica, op: nat)
    requires ValidParams(p) && |s.rs| == p.n && ReplicaOK(p, s, i, r)
    requires r.status == Normal && |r.checkpoint| < op <= r.commitMin && op <= |r.head|
    ensures ReplicaOK(p, s, i, r.(checkpoint := r.head[..op], durableCommit := Max(r.durableCommit, r.commitMax)))
  {
    var q := r.(checkpoint := r.head[..op], durableCommit := Max(r.durableCommit, r.commitMax));
    assert Live(r) && q.durableCommit == r.commitMax && r.checkpoint <= r.head && r.commitMin <= |r.head|;
    assert q.checkpoint <= r.head && r.checkpoint <= q.checkpoint;
    assert ChosenBy(p, s, r.durableView, q.checkpoint) by {
      ChosenByPrefix(p, s, r.durableView, r.head[..Min(r.commitMin, |r.head|)], q.checkpoint);
    }
    assert LiveOK(p, s, q) by {
      CommitKnownStays(p, s, r, q, r.commitMax);
    }
    hide BasicOK, DiskOK, CommitKnown, OwedDurable, LiveOK, NonceOK, Stored, Legit, Owes, ChosenBy, Above;
    CheckpointBasic(p, s, i, r, q, op);
    CommitKnownStays(p, s, r, q, r.commitMax);
    DiskStays(s, r, q);
    assert OwedWithin(p, s, i, r.logView, r.head);
    CheckpointOwed(p, s, i, r, q);
    CheckpointStored(r, q, r.head, r.dirty);
    if r.nonce != 0 { NonceLive(p, s, i, r, q); }
  }

  lemma CheckpointKnown(p: Params, s: Cluster, i: nat, r: Replica, q: Replica, op: nat)
    requires ValidParams(p) && |s.rs| == p.n && InvLogs(p, s) && r.repair.Repair? && r.repair.rebuilt
    requires RepairOK(p, s, i, r) && r.durableCommit <= r.commitMax && |r.checkpoint| < op <= r.commitMin
    requires r.checkpoint <= r.head && r.commitMin <= |r.head|
    requires q == r.(checkpoint := r.head[..op], durableCommit := r.commitMax)
    ensures CommitKnown(p, s, q, r.commitMax)
  {
    hide InvLogs, Known, OwedWithin;
    var v := r.repair.view;
    var k :| |k| == r.commitMax && ChosenBy(p, s, v, k);
    if v != r.logView {
      ByIsAny(p, s, v, k);
      ByIsAny(p, s, v, r.head[..r.repair.commit]);
      AnyChosenComparable(p, s, k, r.head[..r.repair.commit]);
      assert k == r.head[..|k|];
      assert |k| > |r.checkpoint| && SlotHas(r, |k|, k);
    }
    assert KnownBy(p, s, q, k);
  }

  lemma CheckpointRepairOK(p: Params, s: Cluster, i: nat, r: Replica, q: Replica, op: nat)
    requires ValidParams(p) && |s.rs| == p.n && r.repair.Repair? && r.repair.rebuilt && RepairOK(p, s, i, r)
    requires |r.checkpoint| < op <= r.commitMin && r.commitMin <= |r.head| && r.durableCommit <= r.commitMax
    requires q == r.(checkpoint := r.head[..op], durableCommit := r.commitMax)
    ensures RepairOK(p, s, i, q)
    ensures ChosenBy(p, s, r.durableView, q.checkpoint) && OwedWithin(p, s, i, r.logView, r.head)
  {
    ChosenByPrefix(p, s, r.durableView, r.head[..r.repair.commit], q.checkpoint);
    hide Known, ChosenBy, OwedWithin, Stored;
    CheckpointStored(r, q, r.head, {});
  }

  /** The parts of the invariant that matter once a repair has been rebuilt. */
  ghost predicate RebuiltParts(p: Params, s: Cluster, i: nat, r: Replica)
    requires ValidParams(p) && |s.rs| == p.n
  {
    && r.repair.Repair? && r.repair.rebuilt
    && BasicOK(p, s, i, r) && DiskOK(s, r) && CommitKnown(p, s, r, r.durableCommit) && OwedDurable(p, s, i, r)
    && RepairOK(p, s, i, r) && (r.nonce != 0 ==> NonceOK(p, s, i, r))
  }

  lemma RebuiltIff(p: Params, s: Cluster, i: nat, r: Replica)
    requires ValidParams(p) && |s.rs| == p.n && r.repair.Repair? && r.repair.rebuilt
    ensures ReplicaOK(p, s, i, r) <==> RebuiltParts(p, s, i, r)
  {
    hide BasicOK, DiskOK, CommitKnown, OwedDurable, RepairOK, NonceOK, Legit, OwedClean, LiveOK, Stored;
  }

  lemma CheckpointRepair(p: Params, s: Cluster, i: nat, r: Replica, op: nat)
    requires ValidParams(p) && |s.rs| == p.n && InvLogs(p, s) && ReplicaOK(p, s, i, r)
    requires r.repair.Repair? && r.repair.rebuilt && |r.checkpoint| < op <= r.commitMin && op <= |r.head|
    ensures ReplicaOK(p, s, i, r.(checkpoint := r.head[..op], durableCommit := Max(r.durableCommit, r.commitMax)))
  {
    var q := r.(checkpoint := r.head[..op], durableCommit := Max(r.durableCommit, r.commitMax));
    hide InvLogs, DiskOK, CommitKnown, OwedDurable, OwedWithin, NonceOK, RepairOK, Known, BasicOK, ReplicaOK;
    RebuiltIff(p, s, i, r);
    RebuiltIff(p, s, i, q);
    RepairFacts(p, s, i, r);
    assert q.durableCommit == r.commitMax && q.checkpoint <= r.head && r.checkpoint <= q.checkpoint;
    CheckpointKnown(p, s, i, r, q, op);
    CheckpointRepairOK(p, s, i, r, q, op);
    CheckpointBasic(p, s, i, r, q, op);
    DiskStays(s, r, q);
    CheckpointOwed(p, s, i, r, q);
    if r.nonce != 0 { NonceSame(p, s, i, r, q); }
  }

  // ---- installation ---------------------------------------------------------------------

  /** What a replica owes in the view it installs is within the suffix it installs. */
  lemma InstallOwed(p: Params, s: Cluster, i: nat, r: Replica)
    requires ValidParams(p) && |s.rs| == p.n && InvLogs(p, s)
    requires r.repair.Repair? && OwedWithin(p, s, i, r.logView, r.repair.target)
    requires var v := r.repair.view;
      v in s.logs && v in s.canon && r.logView <= v && (v > r.logView ==> s.canon[v] <= r.repair.target)
    requires forall w: nat, c: Chain :: PrepareOK(w, i, c) in s.msgs ==> w <= r.logView
    ensures OwedWithin(p, s, i, r.repair.view, r.repair.target)
  {
    hide InvLogs, Choosable;
    var v := r.repair.view;
    forall w: nat, h: Chain | Owes(p, s, i, v, w, h) ensures h <= r.repair.target {
      if v == r.logView {
        assert Owes(p, s, i, r.logView, w, h);
      } else {
        assert w < v;
        CanonCovers(p, s, v, w, h);
        PrefixTrans(h, s.canon[v], r.repair.target);
      }
    }
  }

  lemma InstallDisk(p: Params, s: Cluster, i: nat, r: Replica, q: Replica)
    requires ValidParams(p) && |s.rs| == p.n && InvLogs(p, s) && DiskOK(s, r) && r.logView in s.logs
    requires r.repair.Repair? && InLog(s, r.repair.view, r.repair.target)
    requires r.head == r.repair.target && r.logView <= r.repair.view == r.durableView
    requires Stored(r, r.head, |r.head|, {})
    requires q.disk == r.disk && q.checkpoint == r.checkpoint && q.durableCommit >= r.durableCommit
    requires q.durableHead == |r.head| && q.logView == r.repair.view == q.durableView
    ensures DiskOK(s, q)
  {
    hide InvLogs;
    var v := r.repair.view;
    forall op | op in q.disk && q.disk[op].Good? ensures SlotOK(s, q, op, q.disk[op].chain) {
      var c := q.disk[op].chain;
      assert SlotOK(s, r, op, c);
      if op > |q.checkpoint| && op >= q.durableCommit && !Obsolete(op, c, q.durableHead, q.logView) {
        if op <= |r.head| {
          assert SlotHas(r, op, r.head[..op]);
          PrefixTrans(c, r.head, s.logs[v]);
        } else {
          assert ViewOf(c) >= v && Legit(s, r.logView, r.durableView, c);
          LegitView(p, s, r.logView, r.durableView, c);
        }
        assert InLog(s, v, c);
      }
    }
  }

  lemma InstallDurable(p: Params, s: Cluster, i: nat, r: Replica, q: Replica)
    requires |s.rs| == p.n && OwedWithin(p, s, i, q.logView, r.head)
    requires r.checkpoint <= r.head && Stored(r, r.head, |r.head|, {})
    requires q.disk == r.disk && q.checkpoint == r.checkpoint && q.durableCommit >= r.durableCommit
    requires q.durableHead == |r.head| && q.head == r.head && q.dirty == {}
    ensures OwedDurable(p, s, i, q) && OwedClean(p, s, i, q)
  {
    hide Owes;
    forall w: nat, h: Chain | Owes(p, s, i, q.logView, w, h) ensures Durable(q, h) {
      assert h <= r.head;
      PrefixesComparable(h, r.checkpoint, r.head);
      forall x: nat | |q.checkpoint| < x <= |h| && x >= q.durableCommit ensures SlotHas(q, x, h[..x]) {
        assert SlotHas(r, x, r.head[..x]) && r.head[..x] == h[..x];
      }
    }
  }

  lemma InstallKnown(p: Params, s: Cluster, i: nat, r: Replica, q: Replica)
    requires ValidParams(p) && |s.rs| == p.n && r.repair.Repair? && RepairOK(p, s, i, r)
    requires CommitKnown(p, s, r, r.durableCommit) && r.durableCommit <= r.commitMax
    requires r.logView <= r.durableView && q.logView == r.repair.view
    ensures CommitKnown(p, s, q, Max(r.durableCommit, r.repair.commit)) && CommitKnown(p, s, q, r.commitMax)
  {
    hide Known, OwedWithin, Stored;
    var n := Max(r.durableCommit, r.repair.commit);
    if n == r.repair.commit {
      assert KnownBy(p, s, q, r.repair.target[..n]);
    } else {
      var k :| |k| == n && KnownBy(p, s, r, k);
      assert KnownBy(p, s, q, k);
    }
    var k :| |k| == r.commitMax && ChosenBy(p, s, r.repair.view, k);
    assert KnownBy(p, s, q, k);
  }

  function Installed(r: Replica): (q: Replica)
    requires r.repair.Repair?
  {
    r.(durableView := r.view, logView := r.view, durableHead := |r.head|,
       durableCommit := Max(r.durableCommit, r.repair.commit),
       status := Normal, repair := NoRepair, faulty := false)
  }

  lemma InstallBasic(p: Params, s: Cluster, i: nat, r: Replica)
    requires ValidParams(p) && |s.rs| == p.n && r.repair.Repair? && r.repair.rebuilt
    requires BasicOK(p, s, i, r) && RepairOK(p, s, i, r) && r.commitMin >= r.repair.commit
    requires r.view in s.logs && (Primary(p, r.view) == i ==> s.logs[r.view] == r.head)
    ensures BasicOK(p, s, i, Installed(r)) && LiveOK(p, s, Installed(r)) == CommitKnown(p, s, Installed(r), r.commitMax)
  {
    hide Known, ChosenBy, OwedWithin, Stored, CommitKnown;
    assert r.commitMin == r.repair.commit;
  }

  lemma InstallLocal(p: Params, s: Cluster, i: nat, r: Replica)
    requires ValidParams(p) && |s.rs| == p.n && InvLogs(p, s) && ReplicaOK(p, s, i, r)
    requires r.repair.Repair? && r.repair.rebuilt && r.commitMin >= r.repair.commit
    requires r.view in s.logs && r.view in s.canon && InLog(s, r.view, r.head)
    requires r.view > r.logView ==> s.canon[r.view] <= r.head
    requires Primary(p, r.view) == i ==> s.logs[r.view] == r.head
    requires forall w: nat, c: Chain :: PrepareOK(w, i, c) in s.msgs ==> w <= r.logView
    ensures ReplicaOK(p, s, i, Installed(r))
  {
    var q := Installed(r);
    RepairFacts(p, s, i, r);
    assert r.head == r.repair.target && r.view == r.repair.view == r.durableView && r.dirty == {};
    assert Stored(r, r.head, |r.head|, {}) && r.checkpoint <= r.head && r.logView in s.logs;
    assert Legit(s, q.logView, q.durableView, q.head);
    hide InvLogs, BasicOK, DiskOK, CommitKnown, OwedDurable, OwedClean, OwedWithin, NonceOK, Stored, Legit, RepairOK,
         LiveOK, InLog;
    InstallBasic(p, s, i, r);
    InstallOwed(p, s, i, r);
    InstallDisk(p, s, i, r, q);
    InstallDurable(p, s, i, r, q);
    InstallKnown(p, s, i, r, q);
    CheckpointStored(r, q, r.head, {});
    if r.nonce != 0 { NonceLive(p, s, i, r, q); }
  }
}
