/** Every part of the invariant that a step does not touch survives it. */
module ConsensusFrame {
  import opened Chains
  import opened Selection
  import opened Consensus
  import opened ConsensusInvariant
  import opened ConsensusFacts

  /** Replica `q` has acknowledged nothing new in view `l`. */
  ghost predicate SameAcks(s: Cluster, s': Cluster, q: nat, l: nat) {
    forall c :: PrepareOK(l, q, c) in s'.msgs ==> PrepareOK(l, q, c) in s.msgs
  }

  lemma OwedWithinBack(p: Params, s: Cluster, s': Cluster, q: nat, l: nat, t: Chain)
    requires ValidParams(p) && Evolves(p, s, s') && InvLogs(p, s) && l in s.logs
    requires SameAcks(s, s', q, l) && OwedWithin(p, s, q, l, t)
    ensures OwedWithin(p, s', q, l, t)
  {
    assert |s'.rs| == p.n;
    hide InvLogs, Evolves;
    forall w: nat, h: Chain | Owes(p, s', q, l, w, h) ensures h <= t {
      OwesBack(p, s, s', q, l, w, h);
    }
  }

  // ---- messages -----------------------------------------------------------------

  lemma JoinGrows(p: Params, s: Cluster, s': Cluster, v: nat, q: nat, j: Join)
    requires ValidParams(p) && Evolves(p, s, s') && InvLogs(p, s) && JoinOK(p, s, v, q, j)
    ensures JoinOK(p, s', v, q, j)
  {
    hide InvLogs, Owes, Legit, ChosenBy, Known, NewUnacked, LogsGrow;
    var h := j.headers[0].value;
    assert s.rs[q].durableView <= s'.rs[q].durableView;
    KnownGrows(p, s, s', h);
    LegitGrows(p, s, s', j.logView, v, v, h);
    ChosenByGrows(p, s, s', v, v, h[..j.commit]);
    assert SameAcks(s, s', q, j.logView);
    OwedWithinBack(p, s, s', q, j.logView, h);
    forall w: nat, c: Chain, i: nat | Owes(p, s', q, j.logView, w, c) && i < |j.nack| && j.nack[i]
      ensures j.head > |c| + i
    {
      OwesBack(p, s, s', q, j.logView, w, c);
    }
    assert j.logView in s'.logs by { assert LogsGrow(s, s'); InLogGrows(p, s, s', j.logView, s.logs[j.logView]); }
  }

  lemma MessageGrows(p: Params, s: Cluster, s': Cluster, m: Message)
    requires ValidParams(p) && Evolves(p, s, s') && InvLogs(p, s) && MessageOK(p, s, m)
    ensures MessageOK(p, s', m)
  {
    hide InvLogs, Known, ChosenBy, JoinOK, NewUnacked, AcksGrow;
    match m
    case Prepare(c) => KnownGrows(p, s, s', c);
    case PrepareOK(w, q, c) => KnownGrows(p, s, s', c);
    case Commit(v, c) => ChosenByGrows(p, s, s', v, v, c);
    case JoinView(v, q, j) => JoinGrows(p, s, s', v, q, j);
    case GetView(n) =>
    case View(v, n, t, c) =>
      ChosenByGrows(p, s, s', v, v, t[..c]);
      PrefixTrans(t, s.logs[v], s'.logs[v]);
  }

  // ---- replicas -------------------------------------------------------------------

  lemma DiskGrows(p: Params, s: Cluster, s': Cluster, r: Replica)
    requires Evolves(p, s, s') && DiskOK(s, r)
    ensures DiskOK(s', r)
  {
    hide Evolves, Known, Legit;
    forall op | op in r.disk && r.disk[op].Good? ensures SlotOK(s', r, op, r.disk[op].chain) {
      var c := r.disk[op].chain;
      assert SlotOK(s, r, op, c);
      KnownGrows(p, s, s', c);
      if op > |r.checkpoint| && op >= r.durableCommit && !Obsolete(op, c, r.durableHead, r.logView) {
        LegitGrows(p, s, s', r.logView, r.durableView, r.durableView, c);
      }
    }
  }

  lemma CommitKnownGrows(p: Params, s: Cluster, s': Cluster, r: Replica, n: nat)
    requires Evolves(p, s, s') && CommitKnown(p, s, r, n)
    ensures CommitKnown(p, s', r, n)
  {
    hide Evolves, ChosenBy;
    var k :| |k| == n && KnownBy(p, s, r, k);
    if ChosenBy(p, s, r.logView, k) {
      ChosenByGrows(p, s, s', r.logView, r.logView, k);
    } else {
      ChosenByGrows(p, s, s', r.durableView, r.durableView, k);
    }
    assert KnownBy(p, s', r, k);
  }

  lemma BasicGrows(p: Params, s: Cluster, s': Cluster, i: nat, r: Replica)
    requires ValidParams(p) && Evolves(p, s, s') && BasicOK(p, s, i, r)
    requires r.status == Normal && Primary(p, r.view) == i ==> r.view in s'.logs && s'.logs[r.view] == s.logs[r.view]
    ensures BasicOK(p, s', i, r)
  {
    hide Known, ChosenBy, NewUnacked, AcksGrow;
    KnownGrows(p, s, s', r.head);
    ChosenByGrows(p, s, s', r.durableView, r.durableView, r.checkpoint);
    if r.status == Normal && Primary(p, r.view) == i {
      ChosenByGrows(p, s, s', r.view, r.view, r.head[..r.commitMax]);
    }
  }

  lemma RepairGrows(p: Params, s: Cluster, s': Cluster, i: nat, r: Replica)
    requires ValidParams(p) && Evolves(p, s, s') && InvLogs(p, s) && r.logView in s.logs
    requires SameAcks(s, s', i, r.logView) && r.repair.Repair? && RepairOK(p, s, i, r)
    ensures RepairOK(p, s', i, r)
  {
    hide InvLogs, Known, ChosenBy, NewUnacked, AcksGrow, OwedWithin, Stored;
    var t := r.repair.target;
    var v := r.repair.view;
    KnownGrows(p, s, s', t);
    ChosenByGrows(p, s, s', v, v, t[..r.repair.commit]);
    var k :| |k| == r.commitMax && ChosenBy(p, s, v, k);
    ChosenByGrows(p, s, s', v, v, k);
    OwedWithinBack(p, s, s', i, r.logView, t);
    if v in s.logs && t <= s.logs[v] {
      PrefixTrans(t, s.logs[v], s'.logs[v]);
    }
  }

  lemma LiveGrows(p: Params, s: Cluster, s': Cluster, r: Replica)
    requires Evolves(p, s, s') && LiveOK(p, s, r)
    ensures LiveOK(p, s', r)
  {
    hide Evolves, ChosenBy, Recent, CommitKnown;
    CommitKnownGrows(p, s, s', r, r.commitMax);
    ChosenByGrows(p, s, s', r.durableView, r.durableView, r.head[..Min(r.commitMin, |r.head|)]);
  }

  /** No new answer to this replica's pending view request. */
  ghost predicate SameViews(s: Cluster, s': Cluster, r: Replica) {
    forall t, c :: View(r.logView, r.nonce, t, c) in s'.msgs ==> View(r.logView, r.nonce, t, c) in s.msgs
  }

  lemma OwedGrows(p: Params, s: Cluster, s': Cluster, i: nat, r: Replica)
    requires ValidParams(p) && Evolves(p, s, s') && InvLogs(p, s) && r.logView in s.logs
    requires SameAcks(s, s', i, r.logView)
    ensures OwedDurable(p, s, i, r) ==> OwedDurable(p, s', i, r)
    ensures OwedClean(p, s, i, r) ==> OwedClean(p, s', i, r)
  {
    assert |s'.rs| == p.n;
    hide InvLogs, Evolves, Owes, Durable, Above;
    forall w: nat, h: Chain | Owes(p, s', i, r.logView, w, h) ensures Owes(p, s, i, r.logView, w, h) {
      OwesBack(p, s, s', i, r.logView, w, h);
    }
  }

  lemma NonceGrows(p: Params, s: Cluster, s': Cluster, i: nat, r: Replica)
    requires ValidParams(p) && Evolves(p, s, s') && InvLogs(p, s) && r.logView in s.logs
    requires SameAcks(s, s', i, r.logView) && SameViews(s, s', r) && NonceOK(p, s, i, r)
    ensures NonceOK(p, s', i, r)
  {
    hide InvLogs, OwedWithin, NewUnacked, AcksGrow, LogsGrow;
    if r.faulty {
      forall t, c | View(r.logView, r.nonce, t, c) in s'.msgs ensures OwedWithin(p, s', i, r.logView, t) {
        OwedWithinBack(p, s, s', i, r.logView, t);
      }
    }
  }

  lemma ReplicaGrows(p: Params, s: Cluster, s': Cluster, i: nat, r: Replica)
    requires ValidParams(p) && Evolves(p, s, s') && InvLogs(p, s) && ReplicaOK(p, s, i, r)
    requires SameAcks(s, s', i, r.logView)
    requires SameViews(s, s', r) || (r.nonce != 0 ==> NonceOK(p, s', i, r))
    requires r.status == Normal && Primary(p, r.view) == i ==> r.view in s'.logs && s'.logs[r.view] == s.logs[r.view]
    ensures ReplicaOK(p, s', i, r)
  {
    assert r.logView in s.logs;
    hide Evolves, InvLogs, BasicOK, DiskOK, CommitKnown, OwedDurable, OwedClean, Legit, LiveOK, RepairOK, NonceOK,
         SameAcks, SameViews, Stored;
    BasicGrows(p, s, s', i, r);
    DiskGrows(p, s, s', r);
    CommitKnownGrows(p, s, s', r, r.durableCommit);
    OwedGrows(p, s, s', i, r);
    if Intact(r) { LegitGrows(p, s, s', r.logView, r.durableView, r.durableView, r.head); }
    if Live(r) { LiveGrows(p, s, s', r); }
    if r.repair.Repair? { RepairGrows(p, s, s', i, r); }
    if r.nonce != 0 && SameViews(s, s', r) { NonceGrows(p, s, s', i, r); }
  }

  // ---- logs -------------------------------------------------------------------------

  lemma EntryGrows(p: Params, s: Cluster, s': Cluster, c: Chain, i: nat)
    requires Evolves(p, s, s') && i < |c| && EntryOK(p, s, c, i)
    ensures EntryOK(p, s', c, i)
  {
    hide Evolves, Known, ChosenBy;
    KnownGrows(p, s, s', c[..i + 1]);
    ChosenByGrows(p, s, s', c[i].view, c[i].view, c[..c[i].commit]);
  }

  lemma LogGrows(p: Params, s: Cluster, s': Cluster, v: nat)
    requires ValidParams(p) && Evolves(p, s, s') && |s.rs| == p.n && v in s.logs && v in s.canon
    requires LogOK(p, s, v) && s'.logs[v] == s.logs[v]
    ensures v in s'.logs && v in s'.canon && LogOK(p, s', v)
  {
    hide EntryOK, Sound, NewUnacked, AcksGrow;
    forall i: nat | i < |s.logs[v]| ensures EntryOK(p, s', s'.logs[v], i) {
      EntryGrows(p, s, s', s.logs[v], i);
    }
    SoundGrows(p, s, s', v, s.canon[v]);
    assert s.rs[Primary(p, v)].logView <= s'.rs[Primary(p, v)].logView;
  }

  lemma LogsStay(p: Params, s: Cluster, s': Cluster)
    requires ValidParams(p) && Evolves(p, s, s') && InvLogs(p, s)
    requires s'.logs == s.logs && s'.canon == s.canon && s'.selections == s.selections
    ensures InvLogs(p, s')
  {
    hide Sound, LogOK;
    forall v | v in s'.logs ensures LogOK(p, s', v) {
      assert LogOK(p, s, v);
      LogGrows(p, s, s', v);
    }
    forall v, t | (v, t) in s'.selections ensures Sound(p, s', v, t) {
      SoundGrows(p, s, s', v, t);
    }
  }

  /** Only replica `i` took part in the step. */
  ghost predicate OnlyReplica(p: Params, s: Cluster, s': Cluster, i: nat) {
    && |s.rs| == |s'.rs| == p.n && i < p.n
    && forall q: nat :: q < p.n && q != i ==> s'.rs[q] == s.rs[q]
  }

  /** The other replicas' pending requests and primaries' logs are left alone. */
  ghost predicate Bystanders(p: Params, s: Cluster, s': Cluster, i: nat)
    requires ValidParams(p) && OnlyReplica(p, s, s', i)
  {
    forall q: nat :: q < p.n && q != i ==>
      var r := s.rs[q];
      && (SameViews(s, s', r) || (r.nonce != 0 ==> NonceOK(p, s', q, r)))
      && (r.status == Normal && Primary(p, r.view) == q && r.view in s.logs ==>
            r.view in s'.logs && s'.logs[r.view] == s.logs[r.view])
  }

  ghost predicate AcksOnlyFrom(s: Cluster, s': Cluster, i: nat) {
    forall w: nat, q: nat, c: Chain :: PrepareOK(w, q, c) in s'.msgs && q != i ==> PrepareOK(w, q, c) in s.msgs
  }

  lemma Assemble(p: Params, s: Cluster, s': Cluster, i: nat)
    requires ValidParams(p) && Inv(p, s) && Evolves(p, s, s') && OnlyReplica(p, s, s', i)
    requires Bystanders(p, s, s', i) && AcksOnlyFrom(s, s', i)
    requires InvLogs(p, s') && ReplicaOK(p, s', i, s'.rs[i])
    requires forall m :: m in s'.msgs && m !in s.msgs ==> MessageOK(p, s', m)
    requires forall d :: d in s'.decided && d !in s.decided ==> AnyChosen(p, s', d)
    ensures Inv(p, s')
  {
    hide InvLogs, Evolves, ReplicaOK, MessageOK, NonceOK, AnyChosen;
    forall m | m in s'.msgs ensures MessageOK(p, s', m) {
      if m in s.msgs { MessageGrows(p, s, s', m); }
    }
    forall q: nat | q < p.n ensures ReplicaOK(p, s', q, s'.rs[q]) {
      if q != i {
        assert ReplicaOK(p, s, q, s.rs[q]);
        ReplicaInLog(p, s, q, s.rs[q]);
        ReplicaGrows(p, s, s', q, s.rs[q]);
      }
    }
    forall d | d in s'.decided ensures AnyChosen(p, s', d) {
      if d in s.decided { AnyChosenGrows(p, s, s', d); }
    }
  }

  lemma ReplicaInLog(p: Params, s: Cluster, i: nat, r: Replica)
    requires ValidParams(p) && |s.rs| == p.n && ReplicaOK(p, s, i, r)
    ensures r.status == Normal ==> r.view in s.logs
  {
  }
}
