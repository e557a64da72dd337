/** Selecting a log and accepting a view or a repair window keep the invariant. */
module ConsensusRecovery {
  import opened Chains
  import opened Selection
  import opened SelectionProofs
  import opened Consensus
  import opened ConsensusInvariant
  import opened ConsensusFacts
  import opened ConsensusFrame
  import opened ConsensusLocal
  import opened ConsensusRepair
  import opened ConsensusSelect
  import opened ConsensusSteps

  // ---- selection ----------------------------------------------------------------------

  lemma SelectJoins(p: Params, s: Cluster, i: nat, js: Joins)
    requires ValidParams(p) && |s.rs| == p.n && i < p.n
    requires s.rs[i].status == ViewChange && s.rs[i].view > s.rs[i].logView && Primary(p, s.rs[i].view) == i
    requires |js| == p.n && ValidJoins(js, p.pipelineMax) && |Senders(js)| >= p.viewChange
    requires forall q :: 0 <= q < |js| && js[q].Some? ==> JoinView(s.rs[i].view, q, js[q].value) in s.msgs
    requires InvLogs(p, s) && InvMessages(p, s)
    ensures JoinsOK(p, s, s.rs[i].view, js)
  {
    hide JoinOK, ValidJoins, InvLogs;
    var v := s.rs[i].view;
    if v in s.logs {
      LogsParts(p, s, v);
      LogOwner(p, s, v);
      assert false;
    }
    forall q: nat | q < |js| && js[q].Some? ensures JoinOK(p, s, v, q, js[q].value) {
      assert MessageOK(p, s, JoinView(v, q, js[q].value));
    }
  }

  lemma LogOwner(p: Params, s: Cluster, v: nat)
    requires ValidParams(p) && |s.rs| == p.n && v in s.logs && v in s.canon && LogOK(p, s, v)
    ensures s.rs[Primary(p, v)].logView >= v
  {
  }

  lemma ViewChangeFacts(p: Params, s: Cluster, i: nat, r: Replica) returns (known: Chain)
    requires ValidParams(p) && |s.rs| == p.n && ReplicaOK(p, s, i, r)
    requires r.status == ViewChange && r.durableView == r.view
    ensures Live(r) && r.view > r.logView && BasicOK(p, s, i, r) && Stored(r, r.head, |r.head|, r.dirty)
    ensures |known| == r.commitMax == OwnBound(OwnOf(r)) && ChosenBy(p, s, r.view, known)
    ensures r.commitMin <= r.commitMax
  {
    hide Known, Legit, OwedDurable, OwedClean, DiskOK, Stored, Recent;
    known :| |known| == r.commitMax && KnownBy(p, s, r, known);
  }

  lemma SelectSound(p: Params, s: Cluster, v: nat, js: Joins, own: Own, x: Suffix, known: Chain)
    requires ValidParams(p) && |s.rs| == p.n && InvLogs(p, s) && JoinsOK(p, s, v, js)
    requires |known| == OwnBound(own) && ChosenBy(p, s, v, known)
    requires x == Select(js, own, p.negative, p.pipelineMax) && x.Suffix? && x.headers != []
    requires ViewOf(x.headers[|x.headers| - 1]) <= v
    ensures Sound(p, s, v, x.headers[|x.headers| - 1])
    ensures x.commit <= |x.headers[|x.headers| - 1]|
    ensures ChosenBy(p, s, v, x.headers[|x.headers| - 1][..x.commit]) && x.commit >= OwnBound(own)
  {
    assert ValidJoins(js, p.pipelineMax);
    hide InvLogs, JoinsOK, Select, Bound, ChosenBy, Known, Covers, Promised, HeaderAt;
    SelectionCovers(p, s, v, js, own, x, known);
    SelectionKnown(p, s, v, js, own, x);
    SendersPromised(p, s, v, js);
    var q := SelectionHead(js, own, p.negative, p.pipelineMax, x);
    BoundIsMaximum(js, own, p.pipelineMax);
  }

  lemma SelectEvolves(p: Params, s: Cluster, s': Cluster, i: nat, v: nat, t: Chain)
    requires ValidParams(p) && OnlyReplica(p, s, s', i) && InvLogs(p, s) && Sound(p, s, v, t)
    requires s'.logs == s.logs && s'.canon == s.canon && s'.msgs == s.msgs && s'.selections == s.selections + {(v, t)}
    requires s'.rs[i].durableView == s.rs[i].durableView && s'.rs[i].logView == s.rs[i].logView
    ensures Evolves(p, s, s') && InvLogs(p, s') && Bystanders(p, s, s', i) && AcksOnlyFrom(s, s', i)
  {
    hide InvLogs, Sound;
    assert LogsGrow(s, s') && ViewsGrow(p, s, s') && AcksGrow(p, s, s') && NewUnacked(s, s');
    LogsParts(p, s, 0);
    forall u | u in s'.logs ensures u in s'.canon && LogOK(p, s', u) {
      LogsParts(p, s, u);
      LogGrows(p, s, s', u);
    }
    forall u, k | (u, k) in s'.selections ensures Sound(p, s', u, k) {
      if (u, k) in s.selections { SelectionParts(p, s, u, k); }
      SoundGrows(p, s, s', u, k);
    }
    LogsWhole(p, s');
  }

  lemma SelectTarget(p: Params, s: Cluster, i: nat, r: Replica, v: nat, t: Chain)
    requires ValidParams(p) && |s.rs| == p.n && v > r.logView && Primary(p, v) == i
    requires (v, t) in s.selections && Sound(p, s, v, t)
    ensures TargetOK(p, s, i, r, v, t)
  {
    hide Choosable, Promised, Known;
    assert OwedWithin(p, s, i, r.logView, t);
  }

  lemma StepSelect(p: Params, s: Cluster, i: nat, js: Joins, a: nat, x: Suffix)
    requires ValidParams(p) && |s.rs| == p.n && i < p.n && |js| == p.n && ValidJoins(js, p.pipelineMax)
    requires s.rs[i].status == ViewChange && s.rs[i].durableView == s.rs[i].view && Primary(p, s.rs[i].view) == i
    requires |Senders(js)| >= p.viewChange
    requires forall q :: 0 <= q < |js| && js[q].Some? ==> JoinView(s.rs[i].view, q, js[q].value) in s.msgs
    requires x == Select(js, OwnOf(s.rs[i]), p.negative, p.pipelineMax) && x.Suffix? && x.headers != []
    requires ViewOf(x.headers[|x.headers| - 1]) <= s.rs[i].view && AncestorAt(s.rs[i], x.headers[|x.headers| - 1], a)
    requires Inv(p, s)
    ensures var r := s.rs[i]; var t := x.headers[|x.headers| - 1];
      Inv(p, Put(s, i, r.(status := RecoveringHead, commitMax := Max(r.commitMax, x.commit),
                          repair := Repair(r.view, x.commit, t, a, false)))
             .(selections := s.selections + {(r.view, t)}))
  {
    hide Inv, InvLogs, InvMessages, ReplicaOK, Evolves, Bystanders, AcksOnlyFrom, Select, ChosenBy, Sound, JoinsOK,
         ValidJoins, AncestorAt, Known, BasicOK, RepairOK, Stored;
    var r := s.rs[i];
    var v := r.view;
    var t := x.headers[|x.headers| - 1];
    InvParts(p, s, i);
    var known := ViewChangeFacts(p, s, i, r);
    SelectJoins(p, s, i, js);
    SelectSound(p, s, v, js, OwnOf(r), x, known);
    var q := r.(status := RecoveringHead, commitMax := Max(r.commitMax, x.commit), repair := Repair(v, x.commit, t, a, false));
    var s' := Put(s, i, q).(selections := s.selections + {(v, t)});
    SelectEvolves(p, s, s', i, v, t);
    SelectLocal(p, s, s', i, r, q);
    Assemble(p, s, s', i);
  }

  lemma SelectLocal(p: Params, s: Cluster, s': Cluster, i: nat, r: Replica, q: Replica)
    requires ValidParams(p) && |s.rs| == |s'.rs| == p.n && q.repair.Repair? && !q.repair.rebuilt
    requires q == r.(status := RecoveringHead, commitMax := q.repair.commit, repair := q.repair)
    requires Live(r) && r.status == ViewChange && r.view == r.durableView == q.repair.view > r.logView
    requires Primary(p, r.view) == i && s'.msgs == s.msgs && AncestorAt(r, q.repair.target, q.repair.ancestor)
    requires (r.view, q.repair.target) in s'.selections && q.repair.commit <= |q.repair.target|
    requires r.commitMin <= r.commitMax <= q.repair.commit
    requires Sound(p, s, r.view, q.repair.target) && ChosenBy(p, s, r.view, q.repair.target[..q.repair.commit])
    requires Evolves(p, s, s') && InvLogs(p, s) && InvLogs(p, s') && ReplicaOK(p, s, i, r)
    ensures ReplicaOK(p, s', i, q)
  {
    hide InvLogs, ReplicaOK, Evolves, ChosenBy, Sound, AncestorAt, BasicOK, RepairOK, TargetOK, Stored;
    var t := q.repair.target;
    ReplicaGrows(p, s, s', i, r);
    ChosenByGrows(p, s, s', r.view, r.view, t[..q.repair.commit]);
    SoundGrows(p, s, s', r.view, t);
    SelectTarget(p, s', i, r, r.view, t);
    var known := ViewChangeFacts(p, s', i, r);
    EnterRepairOK(p, s', i, r, q);
    EnterRepair(p, s', i, r, q);
  }

  // ---- accepting a view message --------------------------------------------------------------

  lemma ViewMessage(p: Params, s: Cluster, v: nat, n: nat, t: Chain, c: nat)
    requires |s.rs| == p.n && InvMessages(p, s) && View(v, n, t, c) in s.msgs
    ensures v in s.logs && v in s.canon && s.canon[v] <= t <= s.logs[v] && c <= |t| && ChosenBy(p, s, v, t[..c])
  {
    assert MessageOK(p, s, View(v, n, t, c));
  }

  /** Inside its log view a replica owes nothing beyond a target that reaches its head. */
  lemma SameViewTarget(p: Params, s: Cluster, i: nat, r: Replica, t: Chain)
    requires ValidParams(p) && |s.rs| == p.n && InvLogs(p, s) && r.logView in s.logs
    requires OwedClean(p, s, i, r) && InLog(s, r.logView, t) && |t| >= |r.head|
    ensures OwedWithin(p, s, i, r.logView, t)
  {
    hide InvLogs, Choosable;
    forall w: nat, h: Chain | Owes(p, s, i, r.logView, w, h) ensures h <= t {
      CanonCovers(p, s, r.logView, w, h);
      PrefixesComparable(h, t, s.logs[r.logView]);
    }
  }

  lemma HigherViewTarget(p: Params, s: Cluster, i: nat, r: Replica, v: nat, t: Chain)
    requires ValidParams(p) && |s.rs| == p.n && InvLogs(p, s) && v in s.logs && v in s.canon
    requires r.logView < v && s.canon[v] <= t
    ensures OwedWithin(p, s, i, r.logView, t)
  {
    hide InvLogs, Choosable;
    forall w: nat, h: Chain | Owes(p, s, i, r.logView, w, h) ensures h <= t {
      CanonCovers(p, s, v, w, h);
      PrefixTrans(h, s.canon[v], t);
    }
  }

  lemma RestFacts(p: Params, s: Cluster, i: nat, r: Replica)
    requires ValidParams(p) && |s.rs| == p.n && ReplicaOK(p, s, i, r) && r.repair.NoRepair?
    ensures BasicOK(p, s, i, r) && Stored(r, r.head, |r.head|, r.dirty) && r.logView in s.logs
    ensures r.logView <= r.durableView <= r.view && r.commitMin <= r.commitMax
    ensures !r.faulty ==> OwedClean(p, s, i, r)
    ensures r.status != ViewChange && !r.faulty ==> r.view == r.durableView
    ensures r.nonce != 0 ==> NonceOK(p, s, i, r)
    ensures r.faulty ==> r.status == RecoveringHead
  {
    hide Known, ChosenBy, Legit, OwedDurable, OwedClean, DiskOK, Stored, CommitKnown, NonceOK;
  }

  lemma AcceptTarget(p: Params, s: Cluster, i: nat, r: Replica, v: nat, n: nat, t: Chain, c: nat)
    requires ValidParams(p) && |s.rs| == p.n && i < p.n && s.rs[i] == r
    requires ViewAdmitted(p, s, i, v, n, t, c) && v == r.durableView && (v == r.logView && !r.faulty ==> |t| >= |r.head|)
    requires InvLogs(p, s) && InvMessages(p, s) && ReplicaOK(p, s, i, r)
    ensures TargetOK(p, s, i, r, v, t) && r.view == v
  {
    hide InvLogs, InvMessages, ReplicaOK, Known, BasicOK, Stored, OwedClean, OwedWithin;
    RestFacts(p, s, i, r);
    ViewMessage(p, s, v, n, t, c);
    LogView(p, s, v, t);
    if v > r.logView {
      HigherViewTarget(p, s, i, r, v, t);
    } else if !r.faulty {
      SameViewTarget(p, s, i, r, t);
    } else {
      assert View(r.logView, r.nonce, t, c) in s.msgs;
    }
  }

  lemma StepAcceptView(p: Params, s: Cluster, i: nat, v: nat, n: nat, t: Chain, c: nat, a: nat)
    requires ValidParams(p) && |s.rs| == p.n && i < p.n
    requires ViewAdmitted(p, s, i, v, n, t, c) && AncestorAt(s.rs[i], t, a) && v == s.rs[i].durableView
    requires v == s.rs[i].logView && !s.rs[i].faulty ==> |t| >= |s.rs[i].head|
    requires Inv(p, s)
    ensures Inv(p, Put(s, i, s.rs[i].(status := RecoveringHead, commitMax := c, nonce := 0,
                                      repair := Repair(v, c, t, a, false))))
  {
    hide Inv, InvLogs, InvMessages, ReplicaOK, Evolves, Bystanders, AcksOnlyFrom, ChosenBy, AncestorAt, TargetOK,
         BasicOK, RepairOK, Stored;
    var r := s.rs[i];
    var q := r.(status := RecoveringHead, commitMax := c, nonce := 0, repair := Repair(v, c, t, a, false));
    var s' := Put(s, i, q);
    InvParts(p, s, i);
    assert Quiet(p, s, s', i);
    QuietEvolves(p, s, s', i);
    AcceptTarget(p, s, i, r, v, n, t, c);
    ViewMessage(p, s, v, n, t, c);
    RestFacts(p, s, i, r);
    TargetGrows(p, s, s', i, r, v, t);
    ChosenByGrows(p, s, s', v, v, t[..c]);
    RestFacts(p, s', i, r);
    EnterRepairOK(p, s', i, r, q);
    EnterRepair(p, s', i, r, q);
    QuietStep(p, s, s', i);
  }

  lemma TargetGrows(p: Params, s: Cluster, s': Cluster, i: nat, r: Replica, v: nat, t: Chain)
    requires ValidParams(p) && |s.rs| == |s'.rs| == p.n && s'.logs == s.logs && s'.canon == s.canon
    requires s'.selections == s.selections && SameAcks(s, s', i, r.logView) && r.logView in s.logs
    requires Evolves(p, s, s') && InvLogs(p, s) && TargetOK(p, s, i, r, v, t)
    ensures TargetOK(p, s', i, r, v, t)
  {
    hide InvLogs, Evolves, Known, OwedWithin;
    KnownGrows(p, s, s', t);
    OwedWithinBack(p, s, s', i, r.logView, t);
  }

  lemma WindowTarget(p: Params, s: Cluster, i: nat, r: Replica, v: nat, t: Chain)
    requires ValidParams(p) && |s.rs| == p.n && i != Primary(p, v) && v == r.logView && |t| >= |r.head|
    requires v in s.logs && v in s.canon && t <= s.logs[v] && OwedClean(p, s, i, r) && InvLogs(p, s)
    ensures TargetOK(p, s, i, r, v, t)
  {
    hide InvLogs, OwedClean, OwedWithin, Known;
    LogView(p, s, v, t);
    SameViewTarget(p, s, i, r, t);
  }

  lemma StepAcceptWindow(p: Params, s: Cluster, i: nat, v: nat, n: nat, t: Chain, c: nat)
    requires ValidParams(p) && |s.rs| == p.n && i < p.n && ViewAdmitted(p, s, i, v, n, t, c)
    requires c > s.rs[i].commitMin && |t| - s.rs[i].commitMin > p.pipelineMax
    requires AncestorAt(s.rs[i], t[..Min(c, s.rs[i].commitMin + p.pipelineMax)], s.rs[i].commitMin)
    requires v == s.rs[i].logView && !s.rs[i].faulty && Min(c, s.rs[i].commitMin + p.pipelineMax) >= |s.rs[i].head|
    requires Inv(p, s)
    ensures var r := s.rs[i]; var window := Min(c, r.commitMin + p.pipelineMax);
      Inv(p, Put(s, i, r.(status := RecoveringHead, commitMax := c, nonce := 0,
                          repair := Repair(v, window, t[..window], r.commitMin, false))))
  {
    hide Inv, InvLogs, InvMessages, ReplicaOK, Evolves, Bystanders, AcksOnlyFrom, ChosenBy, AncestorAt, TargetOK,
         BasicOK, RepairOK, Stored, OwedClean;
    var r := s.rs[i];
    var window := Min(c, r.commitMin + p.pipelineMax);
    var k := t[..window];
    var q := r.(status := RecoveringHead, commitMax := c, nonce := 0, repair := Repair(v, window, k, r.commitMin, false));
    var s' := Put(s, i, q);
    InvParts(p, s, i);
    assert Quiet(p, s, s', i);
    QuietEvolves(p, s, s', i);
    RestFacts(p, s, i, r);
    ViewMessage(p, s, v, n, t, c);
    PrefixTrans(k, t, s.logs[v]);
    WindowTarget(p, s, i, r, v, k);
    TargetGrows(p, s, s', i, r, v, k);
    ChosenByGrows(p, s, s', v, v, t[..c]);
    ChosenByPrefix(p, s', v, t[..c], k);
    assert k[..window] == k;
    RestFacts(p, s', i, r);
    EnterRepairOK(p, s', i, r, q);
    EnterRepair(p, s', i, r, q);
    QuietStep(p, s, s', i);
  }

  // ---- continuing with a further window in the same view --------------------------------------

  lemma NormalFacts(p: Params, s: Cluster, i: nat, r: Replica) returns (k: Chain)
    requires ValidParams(p) && |s.rs| == p.n && ReplicaOK(p, s, i, r) && r.status == Normal && r.commitMax > |r.head|
    ensures r.repair.NoRepair? && !r.faulty && r.view == r.logView == r.durableView && i != Primary(p, r.view)
    ensures |k| == r.commitMax && ChosenBy(p, s, r.view, k)
  {
    hide Known, ChosenBy, Legit, OwedDurable, OwedClean, DiskOK, Stored, NonceOK, Recent;
    k :| |k| == r.commitMax && KnownBy(p, s, r, k);
  }

  /** What a log holds up to a chosen header is chosen too. */
  lemma LogChosen(p: Params, s: Cluster, v: nat, k: Chain, t: Chain)
    requires ValidParams(p) && |s.rs| == p.n && InvLogs(p, s) && v in s.logs
    requires ChosenBy(p, s, v, k) && t <= s.logs[v] && |t| <= |k|
    ensures ChosenBy(p, s, v, t)
  {
    hide InvLogs, Choosable, Chosen;
    if k != [] {
      var u: nat :| u <= v && Chosen(p, s, u, k);
      ChosenIsChoosable(p, s, u, k);
      CanonCovers(p, s, v, u, k);
      PrefixesComparable(t, k, s.logs[v]);
      ChosenByPrefix(p, s, v, k, t);
    }
  }

  lemma StepContinueWindow(p: Params, s: Cluster, i: nat, n: nat, t: Chain, c: nat)
    requires ValidParams(p) && |s.rs| == p.n && i < p.n
    requires s.rs[i].status == Normal && |s.rs[i].head| == s.rs[i].commitMin < s.rs[i].commitMax
    requires View(s.rs[i].view, n, t, c) in s.msgs && Min(s.rs[i].commitMax, s.rs[i].commitMin + p.pipelineMax) <= |t|
    requires AncestorAt(s.rs[i], t[..Min(s.rs[i].commitMax, s.rs[i].commitMin + p.pipelineMax)], s.rs[i].commitMin)
    requires Inv(p, s)
    ensures var r := s.rs[i]; var window := Min(r.commitMax, r.commitMin + p.pipelineMax);
      Inv(p, Put(s, i, r.(status := RecoveringHead, repair := Repair(r.view, window, t[..window], r.commitMin, false))))
  {
    hide Inv, InvLogs, InvMessages, ReplicaOK, Evolves, Bystanders, AcksOnlyFrom, ChosenBy, AncestorAt, TargetOK,
         BasicOK, RepairOK, Stored, OwedClean;
    var r := s.rs[i];
    var v := r.view;
    var window := Min(r.commitMax, r.commitMin + p.pipelineMax);
    var k := t[..window];
    var q := r.(status := RecoveringHead, repair := Repair(v, window, k, r.commitMin, false));
    var s' := Put(s, i, q);
    InvParts(p, s, i);
    assert Quiet(p, s, s', i);
    QuietEvolves(p, s, s', i);
    var known := NormalFacts(p, s, i, r);
    RestFacts(p, s, i, r);
    ViewMessage(p, s, v, n, t, c);
    PrefixTrans(k, t, s.logs[v]);
    WindowTarget(p, s, i, r, v, k);
    TargetGrows(p, s, s', i, r, v, k);
    LogChosen(p, s, v, known, k);
    ChosenByGrows(p, s, s', v, v, known);
    ChosenByGrows(p, s, s', v, v, k);
    assert k[..window] == k;
    RestFacts(p, s', i, r);
    EnterRepairOK(p, s', i, r, q);
    EnterRepair(p, s', i, r, q);
    QuietStep(p, s, s', i);
  }
}
