/** How each kind of local change keeps a replica's part of the invariant. */
module ConsensusLocal {
  import opened Chains
  import opened Consensus
  import opened ConsensusInvariant
  import opened ConsensusFacts
  import opened ConsensusFrame

  /** Steps that add no acknowledgement, view message, log or selection. */
  ghost predicate Quiet(p: Params, s: Cluster, s': Cluster, i: nat) {
    && OnlyReplica(p, s, s', i)
    && s'.logs == s.logs && s'.canon == s.canon && s'.selections == s.selections
    && s.rs[i].durableView <= s'.rs[i].durableView && s.rs[i].logView <= s'.rs[i].logView
    && s.msgs <= s'.msgs
    && forall m :: m in s'.msgs && m !in s.msgs ==> !m.PrepareOK? && !m.View?
  }

  lemma QuietEvolves(p: Params, s: Cluster, s': Cluster, i: nat)
    requires ValidParams(p) && Inv(p, s) && Quiet(p, s, s', i)
    ensures Evolves(p, s, s') && InvLogs(p, s') && Bystanders(p, s, s', i) && AcksOnlyFrom(s, s', i)
    ensures ReplicaOK(p, s', i, s.rs[i])
  {
    hide InvLogs, ReplicaOK, MessageOK, NonceOK;
    assert LogsGrow(s, s') && ViewsGrow(p, s, s') && AcksGrow(p, s, s') && NewUnacked(s, s');
    LogsStay(p, s, s');
    assert ReplicaOK(p, s, i, s.rs[i]);
    ReplicaInLog(p, s, i, s.rs[i]);
    ReplicaGrows(p, s, s', i, s.rs[i]);
  }

  lemma QuietStep(p: Params, s: Cluster, s': Cluster, i: nat)
    requires ValidParams(p) && Inv(p, s) && Quiet(p, s, s', i)
    requires ReplicaOK(p, s', i, s'.rs[i])
    requires forall m :: m in s'.msgs && m !in s.msgs ==> MessageOK(p, s', m)
    requires forall d :: d in s'.decided && d !in s.decided ==> AnyChosen(p, s', d)
    ensures Inv(p, s')
  {
    hide Inv, InvLogs, ReplicaOK, MessageOK, NonceOK, Evolves, AnyChosen, AcksOnlyFrom, Bystanders;
    QuietEvolves(p, s, s', i);
    Assemble(p, s, s', i);
  }

  // ---- normal operation --------------------------------------------------------

  lemma CommitKnownStays(p: Params, s: Cluster, r: Replica, q: Replica, n: nat)
    requires CommitKnown(p, s, r, n)
    requires q.logView == r.logView && q.durableView >= r.durableView && r.checkpoint <= q.checkpoint
    requires forall k: Chain :: |k| == n && n !in r.dirty && SlotHas(r, n, k) ==> SlotHas(q, n, k)
    requires n in q.dirty ==> n in r.dirty || (Live(r) && n > |r.head|)
    requires Live(q) ==> Live(r) && r.head <= q.head
    ensures CommitKnown(p, s, q, n)
  {
    var k :| |k| == n && KnownBy(p, s, r, k);
    if !ChosenBy(p, s, r.logView, k) {
      assert ChosenBy(p, s, q.durableView, k);
      if k <= r.checkpoint { PrefixTrans(k, r.checkpoint, q.checkpoint); }
      if Live(q) { PrefixTrans(k, r.head, q.head); }
    }
    assert KnownBy(p, s, q, k);
  }

  lemma StoredExtends(r: Replica, q: Replica, c: Chain)
    requires q.disk == r.disk && q.checkpoint == r.checkpoint && q.durableCommit == r.durableCommit
    requires Stored(r, r.head, |r.head|, r.dirty) && r.head <= c && |c| == |r.head| + 1
    ensures Stored(q, c, |c|, r.dirty + {|c|})
  {
    forall op: nat | |q.checkpoint| < op <= |c| && op >= q.durableCommit && op !in r.dirty + {|c|}
      ensures SlotHas(q, op, c[..op])
    {
      assert c[..op] == r.head[..op];
      assert SlotHas(r, op, r.head[..op]);
    }
  }

  /** Nothing the replica owes depends on what it appends. */
  lemma OwedExtends(p: Params, s: Cluster, i: nat, r: Replica, q: Replica)
    requires |s.rs| == p.n && OwedDurable(p, s, i, r) && OwedClean(p, s, i, r)
    requires q == r.(head := q.head, dirty := q.dirty)
    requires r.head <= q.head && q.dirty <= r.dirty + {|r.head| + 1}
    ensures OwedDurable(p, s, i, q) && OwedClean(p, s, i, q)
  {
    hide Owes;
    forall w: nat, h: Chain | Owes(p, s, i, q.logView, w, h)
      ensures Durable(q, h) && h <= q.head && Above(q.dirty, |h|)
    {
      assert Durable(r, h) && h <= r.head && Above(r.dirty, |h|);
      PrefixTrans(h, r.head, q.head);
      assert Stored(r, h, |h|, {}) ==> Stored(q, h, |h|, {});
    }
  }

  lemma AcceptBasic(p: Params, s: Cluster, i: nat, r: Replica, c: Chain)
    requires ValidParams(p) && |s.rs| == p.n && BasicOK(p, s, i, r)
    requires Live(r) && r.view == r.logView && IsParent(r.head, c) && Known(s, c)
    requires Primary(p, r.view) == i ==> PrimaryOK(p, s, r.(head := c))
    ensures BasicOK(p, s, i, r.(status := Normal, head := c, dirty := r.dirty + {|c|}))
  {
    hide Known, ChosenBy;
    assert r.head <= c && |c| == |r.head| + 1;
    PrefixTrans(r.checkpoint, r.head, c);
  }

  lemma AcceptLive(p: Params, s: Cluster, r: Replica, c: Chain)
    requires Live(r) && LiveOK(p, s, r) && IsParent(r.head, c) && ViewOf(c) >= r.logView && r.commitMin <= |r.head|
    ensures LiveOK(p, s, r.(head := c, dirty := r.dirty + {|c|}))
  {
    hide ChosenBy, CommitKnown;
    var q := r.(head := c, dirty := r.dirty + {|c|});
    assert r.head <= c && |c| == |r.head| + 1;
    CommitKnownStays(p, s, r, q, r.commitMax);
    assert c[..Min(q.commitMin, |c|)] == r.head[..Min(r.commitMin, |r.head|)];
  }

  /** Appending a prepare of the current view. */
  lemma AcceptLocal(p: Params, s: Cluster, i: nat, r: Replica, c: Chain)
    requires ValidParams(p) && |s.rs| == p.n && ReplicaOK(p, s, i, r)
    requires Live(r) && r.view == r.logView && IsParent(r.head, c) && Known(s, c) && ViewOf(c) == r.view
    requires Primary(p, r.view) == i ==> PrimaryOK(p, s, r.(head := c))
    ensures ReplicaOK(p, s, i, r.(status := Normal, head := c, dirty := r.dirty + {|c|}))
  {
    var q := r.(head := c, dirty := r.dirty + {|c|});
    assert r.commitMin <= |r.head|;
    assert r.head <= c && |c| == |r.head| + 1 && InLog(s, r.logView, c);
    assert Legit(s, r.logView, r.durableView, c);
    hide BasicOK, DiskOK, CommitKnown, OwedDurable, OwedClean, LiveOK, RepairOK, NonceOK, Known, Stored, Legit;
    AcceptBasic(p, s, i, r, c);
    CommitKnownStays(p, s, r, q, r.durableCommit);
    OwedExtends(p, s, i, r, q);
    AcceptLive(p, s, r, c);
    StoredExtends(r, q, c);
    DiskStays(s, r, q);
    if r.nonce != 0 { NonceLive(p, s, i, r, q); }
    StatusOnly(p, s, i, q, q.(status := Normal));
  }

  /** Apart from `BasicOK`, the invariant does not look at the status or the volatile view. */
  lemma StatusOnly(p: Params, s: Cluster, i: nat, r: Replica, q: Replica)
    requires ValidParams(p) && |s.rs| == p.n && r.repair.NoRepair?
    requires q == r.(status := q.status, view := q.view)
    ensures DiskOK(s, r) ==> DiskOK(s, q)
    ensures forall n :: CommitKnown(p, s, r, n) ==> CommitKnown(p, s, q, n)
    ensures OwedDurable(p, s, i, r) ==> OwedDurable(p, s, i, q)
    ensures OwedClean(p, s, i, r) ==> OwedClean(p, s, i, q)
    ensures LiveOK(p, s, r) ==> LiveOK(p, s, q)
    ensures Stored(r, r.head, |r.head|, r.dirty) ==> Stored(q, q.head, |q.head|, q.dirty)
    ensures NonceOK(p, s, i, r) ==> NonceOK(p, s, i, q)
  {
    hide Owes, Legit, Known, ChosenBy, OwedWithin;
    forall n | CommitKnown(p, s, r, n) ensures CommitKnown(p, s, q, n) {
      var k :| |k| == n && KnownBy(p, s, r, k);
      assert KnownBy(p, s, q, k);
    }
    if DiskOK(s, r) {
      forall op | op in q.disk && q.disk[op].Good? ensures SlotOK(s, q, op, q.disk[op].chain) {
        assert SlotOK(s, r, op, r.disk[op].chain);
      }
    }
    if OwedDurable(p, s, i, r) {
      forall w: nat, h: Chain | Owes(p, s, i, q.logView, w, h) ensures Durable(q, h) {
        assert Durable(r, h);
        assert Stored(r, h, |h|, {}) ==> Stored(q, h, |h|, {});
      }
    }
    if Stored(r, r.head, |r.head|, r.dirty) {
      forall op: nat | |q.checkpoint| < op <= |q.head| && op >= q.durableCommit && op !in q.dirty
        ensures SlotHas(q, op, q.head[..op])
      {
        assert SlotHas(r, op, r.head[..op]);
      }
    }
  }

  lemma NonceLive(p: Params, s: Cluster, i: nat, r: Replica, q: Replica)
    requires |s.rs| == p.n && NonceOK(p, s, i, r) && !q.faulty && q.nonce == r.nonce
    ensures NonceOK(p, s, i, q)
  {
  }

  lemma DiskStays(s: Cluster, r: Replica, q: Replica)
    requires DiskOK(s, r) && q.disk == r.disk && r.checkpoint <= q.checkpoint && q.durableCommit >= r.durableCommit
    requires q.durableHead == r.durableHead && q.logView == r.logView && q.durableView == r.durableView
    ensures DiskOK(s, q)
  {
    hide Known, Legit;
    forall op | op in q.disk && q.disk[op].Good? ensures SlotOK(s, q, op, q.disk[op].chain) {
      assert SlotOK(s, r, op, r.disk[op].chain);
    }
  }

  /** Leaving or entering a status with nothing else changed. */
  lemma StatusLocal(p: Params, s: Cluster, i: nat, r: Replica, q: Replica)
    requires ValidParams(p) && |s.rs| == p.n && ReplicaOK(p, s, i, r)
    requires Live(r) && q == r.(status := q.status, view := q.view) && BasicOK(p, s, i, q)
    ensures ReplicaOK(p, s, i, q)
  {
    hide BasicOK, DiskOK, CommitKnown, OwedDurable, OwedClean, LiveOK, NonceOK, Stored, Legit;
    StatusOnly(p, s, i, r, q);
  }

  // ---- journal writes --------------------------------------------------------------

  lemma DurableOver(r: Replica, q: Replica, op: nat, c: Chain, h: Chain)
    requires q == r.(disk := q.disk, dirty := q.dirty) && q.disk == r.disk[op := Good(c)]
    requires Durable(r, h) && (op <= |h| ==> c == h[..op])
    ensures Durable(q, h)
  {
    if !(h <= r.checkpoint) {
      forall x: nat | |q.checkpoint| < x <= |h| && x >= q.durableCommit ensures SlotHas(q, x, h[..x]) {
        assert SlotHas(r, x, h[..x]);
      }
    }
  }

  lemma DiskOver(s: Cluster, r: Replica, q: Replica, op: nat, c: Chain)
    requires q == r.(disk := q.disk, dirty := q.dirty) && q.disk == r.disk[op := Good(c)]
    requires DiskOK(s, r) && SlotOK(s, q, op, c)
    ensures DiskOK(s, q)
  {
    hide Known, Legit;
    forall x | x in q.disk && q.disk[x].Good? ensures SlotOK(s, q, x, q.disk[x].chain) {
      if x != op { assert SlotOK(s, r, x, r.disk[x].chain); }
    }
  }

  lemma DirtyIsIntact(p: Params, s: Cluster, i: nat, r: Replica)
    requires ValidParams(p) && |s.rs| == p.n && ReplicaOK(p, s, i, r) && r.dirty != {}
    ensures Intact(r) && !r.faulty && Legit(s, r.logView, r.durableView, r.head) && OwedClean(p, s, i, r)
    ensures Known(s, r.head) && forall op :: op in r.dirty ==> 1 <= op <= |r.head|
  {
    hide Known, ChosenBy, Legit, OwedClean, OwedDurable, CommitKnown, DiskOK, Stored, OwedWithin;
  }

  lemma WriteRepair(p: Params, s: Cluster, i: nat, r: Replica, q: Replica, op: nat)
    requires ValidParams(p) && |s.rs| == p.n && r.repair.Repair? && RepairOK(p, s, i, r)
    requires op in r.dirty && op <= |r.head|
    requires q == r.(disk := r.disk[op := Good(r.head[..op])], dirty := r.dirty - {op})
    ensures RepairOK(p, s, i, q)
  {
    hide Known, ChosenBy, OwedWithin;
    var t := r.repair.target;
    var a := r.repair.ancestor;
    forall x: nat | |q.checkpoint| < x <= a && x <= |t| && x >= q.durableCommit && x !in q.dirty
      ensures SlotHas(q, x, t[..x])
    {
      if x == op {
        assert t[..a][..x] == t[..x] && r.head[..a][..x] == r.head[..x];
      } else {
        assert SlotHas(r, x, t[..x]);
      }
    }
  }

  lemma WriteOwed(p: Params, s: Cluster, i: nat, r: Replica, q: Replica, op: nat)
    requires |s.rs| == p.n && OwedDurable(p, s, i, r) && OwedClean(p, s, i, r)
    requires op in r.dirty && op <= |r.head|
    requires q == r.(disk := r.disk[op := Good(r.head[..op])], dirty := r.dirty - {op})
    ensures OwedDurable(p, s, i, q) && OwedClean(p, s, i, q)
  {
    hide Owes, Durable;
    forall w: nat, h: Chain | Owes(p, s, i, q.logView, w, h)
      ensures Durable(q, h) && h <= q.head && Above(q.dirty, |h|)
    {
      assert Durable(r, h) && Above(r.dirty, |h|);
      DurableOver(r, q, op, r.head[..op], h);
    }
  }

  lemma WriteStored(r: Replica, q: Replica, op: nat)
    requires op in r.dirty && op <= |r.head| && Stored(r, r.head, |r.head|, r.dirty)
    requires q == r.(disk := r.disk[op := Good(r.head[..op])], dirty := r.dirty - {op})
    ensures Stored(q, q.head, |q.head|, q.dirty)
  {
    forall x: nat | |q.checkpoint| < x <= |q.head| && x >= q.durableCommit && x !in q.dirty
      ensures SlotHas(q, x, q.head[..x])
    {
      if x != op { assert SlotHas(r, x, r.head[..x]); }
    }
  }

  lemma WriteBasic(p: Params, s: Cluster, i: nat, r: Replica, q: Replica, op: nat)
    requires ValidParams(p) && |s.rs| == p.n && BasicOK(p, s, i, r) && op in r.dirty && op <= |r.head|
    requires q == r.(disk := r.disk[op := Good(r.head[..op])], dirty := r.dirty - {op})
    ensures BasicOK(p, s, i, q)
    ensures forall n :: CommitKnown(p, s, r, n) ==> CommitKnown(p, s, q, n)
    ensures LiveOK(p, s, r) ==> LiveOK(p, s, q)
  {
    hide Known, ChosenBy, Recent;
    forall n | CommitKnown(p, s, r, n) ensures CommitKnown(p, s, q, n) {
      CommitKnownStays(p, s, r, q, n);
    }
  }

  /** A journal write of an accepted prepare completes. */
  lemma WriteLocal(p: Params, s: Cluster, i: nat, r: Replica, op: nat)
    requires ValidParams(p) && |s.rs| == p.n && InvLogs(p, s) && ReplicaOK(p, s, i, r) && op in r.dirty
    requires op <= |r.head|
    ensures ReplicaOK(p, s, i, r.(disk := r.disk[op := Good(r.head[..op])], dirty := r.dirty - {op}))
  {
    hide InvLogs, Known, ChosenBy, DiskOK, OwedDurable, OwedClean, RepairOK, Stored, Legit, NonceOK, BasicOK, LiveOK,
         CommitKnown, SlotHas;
    var c := r.head[..op];
    var q := r.(disk := r.disk[op := Good(c)], dirty := r.dirty - {op});
    DirtyIsIntact(p, s, i, r);
    KnownPrefix(p, s, r.head, c);
    LegitPrefix(s, r.logView, r.durableView, r.head, c);
    DiskOver(s, r, q, op, c);
    WriteOwed(p, s, i, r, q, op);
    WriteBasic(p, s, i, r, q, op);
    if r.repair.NoRepair? { WriteStored(r, q, op); } else { WriteRepair(p, s, i, r, q, op); }
    if r.nonce != 0 { NonceLive(p, s, i, r, q); }
  }

  // ---- commits -----------------------------------------------------------------------

  /** A replica learns or makes a commit inside its log view. */
  lemma CommitLocal(p: Params, s: Cluster, i: nat, r: Replica, q: Replica, k: Chain)
    requires ValidParams(p) && |s.rs| == p.n && ReplicaOK(p, s, i, r)
    requires r.status == Normal && q == r.(commitMin := q.commitMin, commitMax := q.commitMax)
    requires r.commitMin <= q.commitMin <= |r.head| && q.commitMin <= q.commitMax && r.commitMax <= q.commitMax
    requires |k| == q.commitMax && ChosenBy(p, s, r.logView, k)
    requires ChosenBy(p, s, r.logView, r.head[..q.commitMin])
    requires Primary(p, r.view) == i ==> PrimaryOK(p, s, q)
    ensures ReplicaOK(p, s, i, q)
  {
    hide Known, ChosenBy, Owes, Legit;
    CommitKnownStays(p, s, r, q, r.durableCommit);
    assert KnownBy(p, s, q, k);
    assert r.logView == r.durableView;
    DiskStays(s, r, q);
    assert OwedDurable(p, s, i, q) by {
      forall w: nat, h: Chain | Owes(p, s, i, q.logView, w, h) ensures Durable(q, h) {
        assert Durable(r, h);
        assert Stored(r, h, |h|, {}) ==> Stored(q, h, |h|, {});
      }
    }
    assert Stored(q, q.head, |q.head|, q.dirty) by {
      forall x: nat | |q.checkpoint| < x <= |q.head| && x >= q.durableCommit && x !in q.dirty
        ensures SlotHas(q, x, q.head[..x])
      {
        assert SlotHas(r, x, r.head[..x]);
      }
    }
    if r.nonce != 0 { NonceLive(p, s, i, r, q); }
  }
}
