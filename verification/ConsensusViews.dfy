/** Commit, view-change, repair and crash steps keep the invariant. */
module ConsensusViews {
  import opened Chains
  import opened Quorums
  import opened Selection
  import opened Consensus
  import opened ConsensusInvariant
  import opened ConsensusFacts
  import opened ConsensusFrame
  import opened ConsensusLocal
  import opened ConsensusRepair
  import opened ConsensusInstall
  import opened ConsensusSteps

  // ---- commits -----------------------------------------------------------------------

  /** A quorum of acknowledgements counted by the primary makes the header chosen. */
  lemma QuorumChosen(p: Params, s: Cluster, v: nat, c: Chain)
    requires InLog(s, v, c) && |Acks(p, s, v, c)| >= p.replication
    ensures Chosen(p, s, v, c)
  {
    SubsetSize(Acks(p, s, v, c), Ackers(p, s, v, c));
  }

  /** What a backup may commit on its primary's word. */
  lemma BackupCommit(p: Params, s: Cluster, i: nat, r: Replica, op: nat)
    requires ValidParams(p) && |s.rs| == p.n && InvLogs(p, s) && ReplicaOK(p, s, i, r)
    requires r.status == Normal && op <= r.commitMax && op <= |r.head|
    ensures ChosenBy(p, s, r.logView, r.head[..op])
  {
    assert CommitKnown(p, s, r, r.commitMax) && r.logView == r.durableView && r.logView in s.logs
           && Legit(s, r.logView, r.durableView, r.head) by { hide InvLogs; }
    hide InvLogs, ReplicaOK, Legit, ChosenBy;
    var k :| |k| == r.commitMax && KnownBy(p, s, r, k);
    assert ChosenBy(p, s, r.logView, k);
    LegitChosenComparable(p, s, r.logView, r.durableView, r.head, k);
    assert r.head[..op] <= k;
    ChosenByPrefix(p, s, r.logView, k, r.head[..op]);
  }

  lemma StepCommit(p: Params, s: Cluster, i: nat, op: nat)
    requires ValidParams(p) && Inv(p, s) && Enabled(p, s, CommitOp(i, op))
    ensures Inv(p, Apply(p, s, CommitOp(i, op)))
  {
    hide Inv, InvLogs, InvMessages, ReplicaOK, ChosenBy, AnyChosen, Acks, Chosen, Evolves, Bystanders, AcksOnlyFrom;
    var r := s.rs[i];
    var s' := Apply(p, s, CommitOp(i, op));
    InvParts(p, s, i);
    assert Quiet(p, s, s', i);
    QuietEvolves(p, s, s', i);
    if r.status == Normal {
      AckFacts(p, s, i, r);
      NormalHasNoRepair(r);
      NormalCommit(p, s, i, r, op);
      ChosenByGrows(p, s, s', r.logView, r.logView, r.head[..op]);
      NormalCommitLocal(p, s', i, r, op);
    } else {
      RepairCommitLocal(p, s', i, r, op);
      RepairChosen(p, s', i, r, op);
    }
    ByIsAny(p, s', if r.status == Normal then r.logView else r.repair.view, r.head[..op]);
    QuietStep(p, s, s', i);
  }

  lemma RepairChosen(p: Params, s: Cluster, i: nat, r: Replica, op: nat)
    requires ValidParams(p) && |s.rs| == p.n && r.repair.Repair? && r.repair.rebuilt && op <= r.repair.commit
    requires op <= |r.head| && ReplicaOK(p, s, i, r)
    ensures ChosenBy(p, s, r.repair.view, r.head[..op])
  {
    RepairFacts(p, s, i, r);
    ChosenByPrefix(p, s, r.repair.view, r.head[..r.repair.commit], r.head[..op]);
  }

  lemma NormalCommit(p: Params, s: Cluster, i: nat, r: Replica, op: nat)
    requires ValidParams(p) && |s.rs| == p.n && i < p.n && s.rs[i] == r && r.status == Normal && op <= |r.head|
    requires Primary(p, r.view) == i ==> |Acks(p, s, r.view, r.head[..op])| >= p.replication
    requires Primary(p, r.view) != i ==> op <= r.commitMax
    requires Inv(p, s)
    ensures ChosenBy(p, s, r.logView, r.head[..op])
  {
    hide Inv, InvLogs, InvMessages, ReplicaOK, Acks, PrimaryOK;
    InvParts(p, s, i);
    if Primary(p, r.view) == i {
      PrimaryFacts(p, s, i);
      PrimaryInLog(p, s, r, op);
      QuorumChosen(p, s, r.view, r.head[..op]);
    } else {
      BackupCommit(p, s, i, r, op);
    }
  }

  lemma NormalHasNoRepair(r: Replica)
    requires Live(r)
    ensures !r.repair.Repair?
  {
  }

  lemma PrimaryInLog(p: Params, s: Cluster, r: Replica, op: nat)
    requires PrimaryOK(p, s, r) && op <= |r.head|
    ensures InLog(s, r.view, r.head[..op])
  {
  }

  lemma NormalCommitLocal(p: Params, s: Cluster, i: nat, r: Replica, op: nat)
    requires ValidParams(p) && |s.rs| == p.n && ReplicaOK(p, s, i, r) && r.status == Normal
    requires r.commitMin < op <= |r.head| && ChosenBy(p, s, r.logView, r.head[..op])
    ensures ReplicaOK(p, s, i, r.(commitMin := op, commitMax := Max(r.commitMax, op)))
  {
    var q := r.(commitMin := op, commitMax := Max(r.commitMax, op));
    assert r.view == r.logView == r.durableView && CommitKnown(p, s, r, r.commitMax);
    assert Primary(p, r.view) == i ==> PrimaryOK(p, s, q);
    hide ReplicaOK, ChosenBy, PrimaryOK;
    if op >= r.commitMax {
      CommitLocal(p, s, i, r, q, r.head[..op]);
    } else {
      var k :| |k| == r.commitMax && KnownBy(p, s, r, k);
      CommitLocal(p, s, i, r, q, k);
    }
  }

  lemma StepSendCommit(p: Params, s: Cluster, i: nat)
    requires ValidParams(p) && Inv(p, s) && Enabled(p, s, SendCommit(i))
    ensures Inv(p, Apply(p, s, SendCommit(i)))
  {
    hide Inv, InvLogs, InvMessages, ReplicaOK, ChosenBy, Evolves, Bystanders, AcksOnlyFrom;
    var r := s.rs[i];
    var s' := Apply(p, s, SendCommit(i));
    assert Quiet(p, s, s', i);
    QuietEvolves(p, s, s', i);
    PrimaryFacts(p, s, i);
    ChosenByPrefix(p, s, r.view, r.head[..r.commitMax], r.head[..r.commitMin]);
    ChosenByGrows(p, s, s', r.view, r.view, r.head[..r.commitMin]);
    QuietStep(p, s, s', i);
  }

  lemma StepLearnCommit(p: Params, s: Cluster, i: nat, c: Chain)
    requires ValidParams(p) && Inv(p, s) && Enabled(p, s, LearnCommit(i, c))
    ensures Inv(p, Apply(p, s, LearnCommit(i, c)))
  {
    hide Inv, InvLogs, InvMessages, ReplicaOK, ChosenBy, Evolves, Bystanders, AcksOnlyFrom;
    var r := s.rs[i];
    var s' := Apply(p, s, LearnCommit(i, c));
    assert Quiet(p, s, s', i);
    InvParts(p, s, i);
    QuietEvolves(p, s, s', i);
    CommitMessage(p, s, r.view, c);
    ChosenByGrows(p, s, s', r.view, r.view, c);
    LearnLocal(p, s', i, r, c);
    QuietStep(p, s, s', i);
  }

  lemma CommitMessage(p: Params, s: Cluster, v: nat, c: Chain)
    requires |s.rs| == p.n && InvMessages(p, s) && Commit(v, c) in s.msgs
    ensures ChosenBy(p, s, v, c)
  {
    assert MessageOK(p, s, Commit(v, c));
  }

  lemma LearnLocal(p: Params, s: Cluster, i: nat, r: Replica, c: Chain)
    requires ValidParams(p) && |s.rs| == p.n && ReplicaOK(p, s, i, r) && r.status == Normal && Primary(p, r.view) != i
    requires ChosenBy(p, s, r.view, c)
    ensures ReplicaOK(p, s, i, r.(commitMax := Max(r.commitMax, |c|)))
  {
    var q := r.(commitMax := Max(r.commitMax, |c|));
    assert r.view == r.logView == r.durableView && CommitKnown(p, s, r, r.commitMax) && r.commitMin <= |r.head|;
    assert ChosenBy(p, s, r.logView, r.head[..r.commitMin]);
    hide ReplicaOK, ChosenBy, PrimaryOK;
    if |c| >= r.commitMax {
      CommitLocal(p, s, i, r, q, c);
    } else {
      var k :| |k| == r.commitMax && KnownBy(p, s, r, k);
      CommitLocal(p, s, i, r, q, k);
    }
  }

  // ---- status changes -------------------------------------------------------------------

  lemma StepGiveUp(p: Params, s: Cluster, i: nat)
    requires ValidParams(p) && Inv(p, s) && Enabled(p, s, GiveUp(i))
    ensures Inv(p, Apply(p, s, GiveUp(i)))
  {
    hide Inv, InvLogs, InvMessages, ReplicaOK, Evolves, Bystanders, AcksOnlyFrom;
    var r := s.rs[i];
    var s' := Apply(p, s, GiveUp(i));
    assert Quiet(p, s, s', i);
    QuietEvolves(p, s, s', i);
    InvParts(p, s, i);
    AckFacts(p, s, i, r);
    IdleStatus(p, s', i, r, s'.rs[i]);
    QuietStep(p, s, s', i);
  }

  lemma BeginLocal(p: Params, s: Cluster, i: nat, r: Replica, v: nat)
    requires ValidParams(p) && |s.rs| == p.n && ReplicaOK(p, s, i, r) && v > r.view && r.repair.NoRepair? && !r.faulty
    ensures ReplicaOK(p, s, i, r.(status := ViewChange, view := v))
  {
    var q := r.(status := ViewChange, view := v);
    assert BasicOK(p, s, i, q) by { hide Known, ChosenBy, Legit, Stored, OwedDurable, OwedClean, CommitKnown; }
    StatusLocal(p, s, i, r, q);
  }

  lemma StepBegin(p: Params, s: Cluster, i: nat, v: nat)
    requires ValidParams(p) && Inv(p, s) && Enabled(p, s, BeginViewChange(i, v))
    ensures Inv(p, Apply(p, s, BeginViewChange(i, v)))
  {
    hide Inv, InvLogs, InvMessages, ReplicaOK, Evolves, Bystanders, AcksOnlyFrom;
    var s' := Apply(p, s, BeginViewChange(i, v));
    assert Quiet(p, s, s', i);
    QuietEvolves(p, s, s', i);
    BeginLocal(p, s', i, s.rs[i], v);
    QuietStep(p, s, s', i);
  }

  lemma StepPersist(p: Params, s: Cluster, i: nat)
    requires ValidParams(p) && Inv(p, s) && Enabled(p, s, PersistView(i)) && Guarded(p, s, PersistView(i))
    ensures Inv(p, Apply(p, s, PersistView(i)))
  {
    hide Inv, InvLogs, InvMessages, ReplicaOK, Evolves, Bystanders, AcksOnlyFrom;
    var s' := Apply(p, s, PersistView(i));
    assert Quiet(p, s, s', i);
    QuietEvolves(p, s, s', i);
    PersistLocal(p, s', i, s.rs[i]);
    QuietStep(p, s, s', i);
  }

  lemma StepRequest(p: Params, s: Cluster, i: nat, nonce: nat)
    requires ValidParams(p) && Inv(p, s) && Enabled(p, s, RequestView(i, nonce))
    ensures Inv(p, Apply(p, s, RequestView(i, nonce)))
  {
    hide Inv, InvLogs, InvMessages, ReplicaOK, Evolves, Bystanders, AcksOnlyFrom;
    var r := s.rs[i];
    var s' := Apply(p, s, RequestView(i, nonce));
    assert Quiet(p, s, s', i);
    QuietEvolves(p, s, s', i);
    InvParts(p, s, i);
    FreshNonce(p, s, nonce);
    RequestLocal(p, s', i, r, nonce);
    QuietStep(p, s, s', i);
  }

  lemma FreshNonce(p: Params, s: Cluster, nonce: nat)
    requires |s.rs| == p.n && InvMessages(p, s) && nonce != 0 && GetView(nonce) !in s.msgs
    ensures forall v, t, c :: View(v, nonce, t, c) !in s.msgs
  {
    forall m | m in s.msgs ensures !(m.View? && m.nonce == nonce) {
      assert MessageOK(p, s, m);
    }
  }

  lemma RequestLocal(p: Params, s: Cluster, i: nat, r: Replica, nonce: nat)
    requires ValidParams(p) && |s.rs| == p.n && ReplicaOK(p, s, i, r) && nonce != 0 && GetView(nonce) in s.msgs
    requires forall v, t, c :: View(v, nonce, t, c) !in s.msgs
    ensures ReplicaOK(p, s, i, r.(nonce := nonce))
  {
    var q := r.(nonce := nonce);
    hide BasicOK, DiskOK, CommitKnown, OwedDurable, OwedClean, LiveOK, RepairOK, NonceOK, Legit, Stored;
    NonceOnly(p, s, i, r, q);
    DiskStays(s, r, q);
    SameDurable(p, s, i, r, q);
    assert NonceOK(p, s, i, q) by { NewNonce(p, s, i, q); }
    if r.repair.Repair? { NonceRepair(p, s, i, r, q); }
  }

  lemma NewNonce(p: Params, s: Cluster, i: nat, q: Replica)
    requires |s.rs| == p.n && GetView(q.nonce) in s.msgs
    requires forall v, t, c :: View(v, q.nonce, t, c) !in s.msgs
    ensures NonceOK(p, s, i, q)
  {
  }

  lemma NonceOnly(p: Params, s: Cluster, i: nat, r: Replica, q: Replica)
    requires ValidParams(p) && |s.rs| == p.n && q == r.(nonce := q.nonce)
    ensures BasicOK(p, s, i, r) ==> BasicOK(p, s, i, q)
    ensures forall n :: CommitKnown(p, s, r, n) ==> CommitKnown(p, s, q, n)
    ensures OwedClean(p, s, i, r) ==> OwedClean(p, s, i, q)
    ensures LiveOK(p, s, r) ==> LiveOK(p, s, q)
    ensures Stored(r, r.head, |r.head|, r.dirty) ==> Stored(q, q.head, |q.head|, q.dirty)
  {
    hide Known, ChosenBy, Owes, SlotHas;
    assert forall op: nat, k: Chain :: SlotHas(r, op, k) ==> SlotHas(q, op, k) by { NonceSlots(r, q); }
    forall n | CommitKnown(p, s, r, n) ensures CommitKnown(p, s, q, n) {
      var k :| |k| == n && KnownBy(p, s, r, k);
      assert KnownBy(p, s, q, k);
    }
  }

  lemma NonceSlots(r: Replica, q: Replica)
    requires q.disk == r.disk
    ensures forall op: nat, k: Chain :: SlotHas(r, op, k) ==> SlotHas(q, op, k)
  {
  }

  lemma NonceRepair(p: Params, s: Cluster, i: nat, r: Replica, q: Replica)
    requires ValidParams(p) && |s.rs| == p.n && q == r.(nonce := q.nonce) && r.repair.Repair? && RepairOK(p, s, i, r)
    ensures RepairOK(p, s, i, q)
  {
    hide Known, ChosenBy, OwedWithin, SlotHas;
    NonceSlots(r, q);
  }

  // ---- joins ------------------------------------------------------------------------------

  lemma JoinLocal(p: Params, s: Cluster, i: nat, r: Replica)
    requires ValidParams(p) && |s.rs| == p.n && i < p.n && s.rs[i] == r
    requires InvMessages(p, s) && ReplicaOK(p, s, i, r)
    requires r.status == ViewChange && r.durableView == r.view && |r.checkpoint| <= |r.head|
    ensures JoinOK(p, s, r.view, i, JoinOf(p, r))
  {
    var j := JoinOf(p, r);
    hide ReplicaOK, Known, Legit, ChosenBy, OwedClean, OwedWithin, OwedUnnacked, JoinOf, InvMessages;
    JoinShape(p, r);
    JoinParts(p, s, i, r);
    assert r.head[..|r.head|] == r.head;
    assert AcksBounded(s, i, r.view, r.logView) by { AcksOf(p, s, i); }
    JoinOwed(p, s, i, r, j);
  }

  lemma JoinOwed(p: Params, s: Cluster, i: nat, r: Replica, j: Join)
    requires OwedClean(p, s, i, r) && j.logView == r.logView && j.head == |r.head| && |j.nack| <= j.head + 1
    requires forall k: nat :: k < |j.nack| ==> j.nack[k] == ((|r.head| - k) in r.dirty)
    ensures OwedUnnacked(p, s, i, j) && OwedWithin(p, s, i, j.logView, r.head)
  {
    hide Owes;
    forall w: nat, h: Chain, x: nat | Owes(p, s, i, j.logView, w, h) && x < |j.nack| && j.nack[x]
      ensures j.head > |h| + x
    {
      assert Above(r.dirty, |h|);
    }
  }

  lemma JoinParts(p: Params, s: Cluster, i: nat, r: Replica)
    requires ReplicaOK(p, s, i, r) && r.status == ViewChange && r.durableView == r.view
    ensures r.logView < r.view && r.logView in s.logs && Known(s, r.head) && Legit(s, r.logView, r.view, r.head)
    ensures |r.checkpoint| <= r.commitMin <= |r.head| && ChosenBy(p, s, r.view, r.head[..r.commitMin])
    ensures OwedClean(p, s, i, r)
  {
    hide OwedDurable, OwedClean, DiskOK, CommitKnown, Stored, Legit, Known, ChosenBy;
  }

  lemma AcksOf(p: Params, s: Cluster, i: nat)
    requires |s.rs| == p.n && i < p.n && InvMessages(p, s)
    ensures forall w: nat, c: Chain :: PrepareOK(w, i, c) in s.msgs ==> w <= s.rs[i].logView
  {
    forall w: nat, c: Chain | PrepareOK(w, i, c) in s.msgs ensures w <= s.rs[i].logView {
      assert MessageOK(p, s, PrepareOK(w, i, c));
    }
  }

  lemma JoinShape(p: Params, r: Replica)
    requires |r.checkpoint| <= |r.head| && p.pipelineMax >= 1
    ensures var j := JoinOf(p, r);
      && j.head == |r.head| && j.commit == r.commitMin && j.checkpoint == |r.checkpoint| && j.logView == r.logView
      && 1 <= |j.headers| <= p.pipelineMax + 1 && |j.present| == |j.headers| == |j.nack| && |j.headers| - 1 <= j.head
      && (forall k: nat :: k < |j.headers| ==> j.headers[k] == Some(r.head[..|r.head| - k]))
      && (forall k: nat :: k < |j.nack| ==> j.nack[k] == ((|r.head| - k) in r.dirty))
      && (|j.headers| == p.pipelineMax + 1 || j.head - (|j.headers| - 1) == j.checkpoint)
  {
  }

  lemma StepSendJoin(p: Params, s: Cluster, i: nat)
    requires ValidParams(p) && Inv(p, s) && Enabled(p, s, SendJoin(i))
    ensures Inv(p, Apply(p, s, SendJoin(i)))
  {
    hide Inv, InvLogs, InvMessages, ReplicaOK, Evolves, JoinOK, JoinOf, Bystanders, AcksOnlyFrom;
    var r := s.rs[i];
    var s' := Apply(p, s, SendJoin(i));
    assert Quiet(p, s, s', i);
    QuietEvolves(p, s, s', i);
    InvParts(p, s, i);
    JoinLocal(p, s, i, r);
    JoinGrows(p, s, s', r.view, i, JoinOf(p, r));
    QuietStep(p, s, s', i);
  }

  // ---- view messages ------------------------------------------------------------------------

  lemma SendViewEvolves(p: Params, s: Cluster, s': Cluster, i: nat, m: Message)
    requires ValidParams(p) && |s.rs| == p.n && i < p.n && m.View? && s' == s.(msgs := s.msgs + {m})
    requires InvLogs(p, s)
    ensures Evolves(p, s, s') && InvLogs(p, s') && OnlyReplica(p, s, s', i) && AcksOnlyFrom(s, s', i)
  {
    hide InvLogs;
    assert LogsGrow(s, s') && ViewsGrow(p, s, s') && AcksGrow(p, s, s') && NewUnacked(s, s');
    LogsStay(p, s, s');
  }

  /** The answer to a view request contains everything anyone owes in that view. */
  lemma ViewCoversOwed(p: Params, s: Cluster, q: nat, v: nat)
    requires ValidParams(p) && |s.rs| == p.n && InvLogs(p, s) && v in s.logs
    ensures OwedWithin(p, s, q, v, s.logs[v])
  {
    hide InvLogs, Choosable;
    forall w: nat, h: Chain | Owes(p, s, q, v, w, h) ensures h <= s.logs[v] {
      CanonCovers(p, s, v, w, h);
    }
  }

  lemma SendViewNonce(p: Params, s: Cluster, s': Cluster, q: nat, r: Replica, v: nat, n: nat, c: nat)
    requires ValidParams(p) && |s.rs| == |s'.rs| == p.n && v in s.logs && s'.logs == s.logs
    requires s' == s.(msgs := s.msgs + {View(v, n, s.logs[v], c)})
    requires Evolves(p, s, s') && InvLogs(p, s) && InvLogs(p, s') && ReplicaOK(p, s, q, r)
    ensures r.nonce != 0 ==> NonceOK(p, s', q, r)
  {
    hide InvLogs, Evolves, ReplicaOK, OwedWithin;
    NoncePart(p, s, q, r);
    if r.nonce != 0 && r.faulty {
      forall t, k | View(r.logView, r.nonce, t, k) in s'.msgs ensures OwedWithin(p, s', q, r.logView, t) {
        if View(r.logView, r.nonce, t, k) in s.msgs {
          OwedWithinBack(p, s, s', q, r.logView, t);
        } else {
          ViewCoversOwed(p, s', q, v);
        }
      }
    }
  }

  lemma NoncePart(p: Params, s: Cluster, q: nat, r: Replica)
    requires ReplicaOK(p, s, q, r)
    ensures r.logView in s.logs && (r.nonce != 0 ==> NonceOK(p, s, q, r))
  {
    hide OwedWithin, OwedDurable, OwedClean, RepairOK, LiveOK, DiskOK, CommitKnown, Stored, Legit, Known, ChosenBy;
  }

  lemma StepSendView(p: Params, s: Cluster, i: nat, n: nat)
    requires ValidParams(p) && Inv(p, s) && Enabled(p, s, SendView(i, n))
    ensures Inv(p, Apply(p, s, SendView(i, n)))
  {
    hide Inv, InvLogs, InvMessages, ReplicaOK, Evolves, NonceOK, AcksOnlyFrom, ChosenBy, LogOK;
    var r := s.rs[i];
    var s' := Apply(p, s, SendView(i, n));
    var m := View(r.view, n, r.head, r.commitMax);
    PrimaryFacts(p, s, i);
    InvParts(p, s, i);
    SendViewEvolves(p, s, s', i, m);
    forall q: nat | q < p.n ensures s.rs[q].nonce != 0 ==> NonceOK(p, s', q, s.rs[q]) {
      InvParts(p, s, q);
      SendViewNonce(p, s, s', q, s.rs[q], r.view, n, r.commitMax);
    }
    ReplicaGrows(p, s, s', i, r);
    ChosenByGrows(p, s, s', r.view, r.view, r.head[..r.commitMax]);
    LogsParts(p, s', r.view);
    CanonBelow(p, s', r.view);
    assert MessageOK(p, s', m);
    Assemble(p, s, s', i);
  }

  lemma CanonBelow(p: Params, s: Cluster, v: nat)
    requires ValidParams(p) && |s.rs| == p.n && v in s.logs && v in s.canon && LogOK(p, s, v)
    ensures s.canon[v] <= s.logs[v]
  {
  }
}
