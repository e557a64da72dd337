/**
  Agreement over whole runs: whatever is lost, repeated, delayed, reordered,
  crashed or damaged, no two replicas ever commit different headers at an op,
  provided every step meets the conditions of `Guarded`.
 */
module ConsensusSafety {
  import opened Chains
  import opened Quorums
  import opened Selection
  import opened Consensus
  import opened ConsensusInvariant
  import opened ConsensusFacts
  import opened ConsensusFrame
  import opened ConsensusLocal
  import opened ConsensusRepair
  import opened ConsensusInstall
  import opened ConsensusCrash
  import opened ConsensusSteps
  import opened ConsensusViews
  import opened ConsensusRecovery

  lemma StepRewrite(p: Params, s: Cluster, i: nat, op: nat)
    requires ValidParams(p) && Inv(p, s) && Enabled(p, s, RewritePrepare(i, op))
    ensures Inv(p, Apply(p, s, RewritePrepare(i, op)))
  {
    hide Inv, InvLogs, InvMessages, ReplicaOK, Evolves, Bystanders, AcksOnlyFrom;
    var s' := Apply(p, s, RewritePrepare(i, op));
    assert Quiet(p, s, s', i);
    QuietEvolves(p, s, s', i);
    RewriteLocal(p, s', i, s.rs[i], op);
    QuietStep(p, s, s', i);
  }

  lemma StepRebuild(p: Params, s: Cluster, i: nat)
    requires ValidParams(p) && Inv(p, s) && Enabled(p, s, Rebuild(i))
    ensures Inv(p, Apply(p, s, Rebuild(i)))
  {
    hide Inv, InvLogs, InvMessages, ReplicaOK, Evolves, Bystanders, AcksOnlyFrom, Rewritten;
    var s' := Apply(p, s, Rebuild(i));
    assert Quiet(p, s, s', i);
    QuietEvolves(p, s, s', i);
    RebuildLocal(p, s', i, s.rs[i]);
    QuietStep(p, s, s', i);
  }

  lemma StepCheckpoint(p: Params, s: Cluster, i: nat, op: nat)
    requires ValidParams(p) && Inv(p, s) && Enabled(p, s, TakeCheckpoint(i, op))
    ensures Inv(p, Apply(p, s, TakeCheckpoint(i, op)))
  {
    hide Inv, InvLogs, InvMessages, ReplicaOK, Evolves, Bystanders, AcksOnlyFrom;
    var s' := Apply(p, s, TakeCheckpoint(i, op));
    assert Quiet(p, s, s', i);
    QuietEvolves(p, s, s', i);
    if s.rs[i].status == Normal {
      CheckpointLive(p, s', i, s.rs[i], op);
    } else {
      CheckpointRepair(p, s', i, s.rs[i], op);
    }
    QuietStep(p, s, s', i);
  }

  lemma StepRestart(p: Params, s: Cluster, i: nat, kept: set<nat>, damaged: set<nat>, head: Chain, faulty: bool)
    requires ValidParams(p) && Inv(p, s) && Enabled(p, s, Restart(i, kept, damaged, head, faulty))
    ensures Inv(p, Apply(p, s, Restart(i, kept, damaged, head, faulty)))
  {
    hide Inv, InvLogs, InvMessages, ReplicaOK, Evolves, Bystanders, AcksOnlyFrom, IsRecovered, AnyChosen, RecoveredCommit,
         Crashed;
    var r := s.rs[i];
    var s' := Apply(p, s, Restart(i, kept, damaged, head, faulty));
    assert Quiet(p, s, s', i);
    QuietEvolves(p, s, s', i);
    if faulty {
      RestartFaulty(p, s', i, r, kept, damaged, head);
    } else {
      assert NoDamage(r, Crashed(r, kept, damaged));
      RestartClean(p, s', i, r, kept, damaged, head);
    }
    QuietStep(p, s, s', i);
  }

  // ---- installation -------------------------------------------------------------------------

  lemma InstallFacts(p: Params, s: Cluster, i: nat, r: Replica)
    requires ValidParams(p) && |s.rs| == p.n && ReplicaOK(p, s, i, r) && r.repair.Repair? && r.repair.rebuilt
    ensures r.head == r.repair.target && r.view == r.durableView == r.repair.view && Known(s, r.head)
    ensures r.logView <= r.view && r.status == RecoveringHead
    ensures if Primary(p, r.view) == i then r.view > r.logView && (r.view, r.head) in s.selections
            else r.view in s.logs && r.view in s.canon && InLog(s, r.view, r.head)
                 && (r.view > r.logView ==> s.canon[r.view] <= r.head)
  {
    hide ChosenBy, OwedWithin, Stored, OwedDurable, OwedClean, DiskOK, CommitKnown, Legit;
  }

  lemma InstallEvolves(p: Params, s: Cluster, s': Cluster, i: nat, v: nat, t: Chain)
    requires ValidParams(p) && OnlyReplica(p, s, s', i) && v !in s.logs && v !in s.canon
    requires s'.logs == s.logs[v := t] && s'.canon == s.canon[v := t] && s'.msgs == s.msgs && s'.selections == s.selections
    requires s'.rs[i].durableView == s.rs[i].durableView && s'.rs[i].logView >= s.rs[i].logView
    requires Inv(p, s)
    ensures Evolves(p, s, s')
  {
    hide Inv;
    assert LogsGrow(s, s') && ViewsGrow(p, s, s') && AcksGrow(p, s, s');
    forall w: nat, h: Chain, q: nat | InLog(s', w, h) && !InLog(s, w, h) ensures !Acked(s', w, q, h) {
      assert w == v;
      UnknownUnacked(p, s, s', w, q, h);
    }
  }

  lemma InstallLogs(p: Params, s: Cluster, s': Cluster, v: nat, t: Chain)
    requires ValidParams(p) && |s.rs| == |s'.rs| == p.n && v !in s.logs && v !in s.canon
    requires s'.logs == s.logs[v := t] && s'.canon == s.canon[v := t] && s'.selections == s.selections
    requires s'.rs[Primary(p, v)].logView >= v && (v, t) in s.selections
    requires Evolves(p, s, s') && InvLogs(p, s)
    ensures InvLogs(p, s')
  {
    hide InvLogs, LogOK, Evolves, Sound, EntryOK;
    LogsParts(p, s, 0);
    SelectionParts(p, s, v, t);
    SoundGrows(p, s, s', v, t);
    SoundParts(p, s, v, t);
    forall k: nat | k < |t| ensures EntryOK(p, s', t, k) {
      KnownEntry(p, s, t, k);
      EntryGrows(p, s, s', t, k);
    }
    FreshLog(p, s', v, t);
    OtherLogs(p, s, s', v);
    LogsWhole(p, s');
  }

  lemma SoundParts(p: Params, s: Cluster, v: nat, t: Chain)
    requires |s.rs| == p.n && Sound(p, s, v, t)
    ensures Known(s, t) && ViewOf(t) <= v
  {
  }

  lemma FreshLog(p: Params, s: Cluster, v: nat, t: Chain)
    requires ValidParams(p) && |s.rs| == p.n && v in s.logs && v in s.canon && s.logs[v] == t == s.canon[v]
    requires Sound(p, s, v, t) && ViewOf(t) <= v && s.rs[Primary(p, v)].logView >= v
    requires forall k: nat :: k < |t| ==> EntryOK(p, s, t, k)
    ensures LogOK(p, s, v)
  {
    hide Sound, EntryOK;
  }

  lemma StepInstall(p: Params, s: Cluster, i: nat)
    requires ValidParams(p) && |s.rs| == p.n && i < p.n
    requires s.rs[i].repair.Repair? && s.rs[i].repair.rebuilt && s.rs[i].commitMin >= s.rs[i].repair.commit
    requires Inv(p, s)
    ensures var r := s.rs[i];
      var q := Put(s, i, Installed(r));
      Inv(p, if Primary(p, r.view) == i then q.(logs := s.logs[r.view := r.head], canon := s.canon[r.view := r.head])
             else q)
  {
    hide Inv, InvLogs, InvMessages, ReplicaOK, Evolves, Bystanders, AcksOnlyFrom, Known, InLog, LogOK;
    var r := s.rs[i];
    var v := r.view;
    InvParts(p, s, i);
    InstallFacts(p, s, i, r);
    AcksOf(p, s, i);
    if Primary(p, v) == i {
      var s' := Put(s, i, Installed(r)).(logs := s.logs[v := r.head], canon := s.canon[v := r.head]);
      LogsParts(p, s, v);
      if v in s.logs {
        LogOwner(p, s, v);
        assert false;
      }
      InstallEvolves(p, s, s', i, v, r.head);
      InstallLogs(p, s, s', v, r.head);
      ReplicaGrows(p, s, s', i, r);
      assert InLog(s', v, r.head) by { WholeLog(s', v); }
      InstallLocal(p, s', i, r);
      InstallBystanders(p, s, s', i);
      Assemble(p, s, s', i);
    } else {
      var s' := Put(s, i, Installed(r));
      assert Quiet(p, s, s', i);
      QuietEvolves(p, s, s', i);
      InLogGrows(p, s, s', v, r.head);
      InstallLocal(p, s', i, r);
      QuietStep(p, s, s', i);
    }
  }

  lemma WholeLog(s: Cluster, v: nat)
    requires v in s.logs
    ensures InLog(s, v, s.logs[v])
  {
  }

  lemma InstallBystanders(p: Params, s: Cluster, s': Cluster, i: nat)
    requires ValidParams(p) && OnlyReplica(p, s, s', i) && s'.msgs == s.msgs
    requires forall v :: v in s.logs ==> v in s'.logs && s'.logs[v] == s.logs[v]
    ensures Bystanders(p, s, s', i) && AcksOnlyFrom(s, s', i)
  {
  }

  // ---- whole runs -----------------------------------------------------------------------------

  lemma InitInv(p: Params)
    requires ValidParams(p)
    ensures Inv(p, Init(p))
  {
    var s := Init(p);
    assert |s.rs| == p.n && (forall i: nat :: i < p.n ==> s.rs[i] == Formatted(i));
    InitLogs(p, s);
    hide ReplicaOK, InvLogs, Init, Formatted;
    forall i: nat | i < p.n ensures ReplicaOK(p, s, i, s.rs[i]) { InitReplica(p, s, i); }
    assert s.msgs == {} && s.decided == {} by { InitEmpty(p); }
  }

  lemma InitEmpty(p: Params)
    ensures Init(p).msgs == {} && Init(p).decided == {}
  {
  }

  lemma InitLogs(p: Params, s: Cluster)
    requires ValidParams(p) && s == Init(p)
    ensures InvLogs(p, s)
  {
    assert |s.rs| == p.n && (forall i: nat :: i < p.n ==> s.rs[i] == Formatted(i));
    assert Promised(p, s, 0) == Members(p.n);
    assert Sound(p, s, 0, []);
    assert LogOK(p, s, 0);
  }

  lemma InitReplica(p: Params, s: Cluster, i: nat)
    requires ValidParams(p) && s.logs == map[0 := []] && i < p.n
    ensures ReplicaOK(p, s, i, Formatted(i))
  {
    hide Choosable;
    var r := Formatted(i);
    assert InLog(s, 0, []);
    assert KnownBy(p, s, r, []);
    forall w: nat, h: Chain | Owes(p, s, i, 0, w, h) ensures h == [] { OwedEmpty(p, s, w, h); }
  }

  lemma OwedEmpty(p: Params, s: Cluster, w: nat, h: Chain)
    requires s.logs == map[0 := []] && Choosable(p, s, w, h)
    ensures h == []
  {
  }

  lemma SelectDispatch(p: Params, s: Cluster, i: nat, js: Joins, a: nat)
    requires ValidParams(p) && Inv(p, s) && Enabled(p, s, SelectSuffix(i, js, a))
    ensures Inv(p, Apply(p, s, SelectSuffix(i, js, a)))
  {
    hide Inv, Select, ValidJoins, AncestorAt, Senders;
    var x := Select(js, OwnOf(s.rs[i]), p.negative, p.pipelineMax);
    assert ViewOf(x.headers[|x.headers| - 1]) <= s.rs[i].view;
    StepSelect(p, s, i, js, a, x);
  }

  lemma ViewDispatch(p: Params, s: Cluster, step: Step)
    requires ValidParams(p) && Inv(p, s) && Enabled(p, s, step) && Guarded(p, s, step)
    requires step.AcceptView? || step.AcceptWindow? || step.ContinueWindow? || step.Install?
    ensures Inv(p, Apply(p, s, step))
  {
    hide Inv, ViewAdmitted, AncestorAt;
    match step
    case AcceptView(i, v, n, t, c, a) => StepAcceptView(p, s, i, v, n, t, c, a);
    case AcceptWindow(i, v, n, t, c) =>
      assert c <= |t| by { AdmittedCommit(p, s, i, v, n, t, c); }
      StepAcceptWindow(p, s, i, v, n, t, c);
    case ContinueWindow(i, n, t, c) => StepContinueWindow(p, s, i, n, t, c);
    case Install(i) => StepInstall(p, s, i);
  }

  lemma AdmittedCommit(p: Params, s: Cluster, i: nat, v: nat, n: nat, t: Chain, c: nat)
    requires ValidParams(p) && i < |s.rs| && ViewAdmitted(p, s, i, v, n, t, c)
    ensures c <= |t|
  {
  }

  /** Every guarded step of any replica keeps the invariant. */
  lemma StepKeeps(p: Params, s: Cluster, step: Step)
    requires ValidParams(p) && Inv(p, s) && Enabled(p, s, step) && Guarded(p, s, step)
    ensures Inv(p, Apply(p, s, step))
  {
    hide Inv, Enabled, Guarded, Apply;
    match step
    case CreatePrepare(i, body) => StepCreate(p, s, i, body);
    case AcceptPrepare(i, c) => StepAccept(p, s, i, c);
    case WriteDone(i, op) => StepWrite(p, s, i, op);
    case Acknowledge(i, op) => StepAck(p, s, i, op);
    case CommitOp(i, op) => StepCommit(p, s, i, op);
    case SendCommit(i) => StepSendCommit(p, s, i);
    case LearnCommit(i, c) => StepLearnCommit(p, s, i, c);
    case GiveUp(i) => StepGiveUp(p, s, i);
    case BeginViewChange(i, v) => StepBegin(p, s, i, v);
    case PersistView(i) => StepPersist(p, s, i);
    case SendJoin(i) => StepSendJoin(p, s, i);
    case SelectSuffix(i, js, a) => SelectDispatch(p, s, i, js, a);
    case RequestView(i, n) => StepRequest(p, s, i, n);
    case SendView(i, n) => StepSendView(p, s, i, n);
    case AcceptView(_, _, _, _, _, _) => ViewDispatch(p, s, step);
    case AcceptWindow(_, _, _, _, _) => ViewDispatch(p, s, step);
    case ContinueWindow(_, _, _, _) => ViewDispatch(p, s, step);
    case RewritePrepare(i, op) => StepRewrite(p, s, i, op);
    case Rebuild(i) => StepRebuild(p, s, i);
    case Install(_) => ViewDispatch(p, s, step);
    case TakeCheckpoint(i, op) => StepCheckpoint(p, s, i, op);
    case Restart(i, kept, damaged, head, faulty) => StepRestart(p, s, i, kept, damaged, head, faulty);
  }

  lemma {:induction false} RunKeeps(p: Params, s: Cluster, steps: seq<Step>, q: Cluster)
    requires ValidParams(p) && Inv(p, s) && GuardedRun(p, s, steps, q)
    ensures Inv(p, q)
    decreases |steps|
  {
    hide Inv, Enabled, Guarded, Apply;
    if steps != [] {
      StepKeeps(p, s, steps[0]);
      RunKeeps(p, Apply(p, s, steps[0]), steps[1..], q);
    }
  }

  lemma InvAgrees(p: Params, s: Cluster)
    requires ValidParams(p) && Inv(p, s)
    ensures Agreement(s)
  {
    hide InvLogs, InvMessages, ReplicaOK, AnyChosen;
    forall c, d | c in s.decided && d in s.decided ensures Comparable(c, d) {
      AnyChosenComparable(p, s, c, d);
    }
  }

  /** Agreement: no guarded run, of any length, commits two different headers at one op. */
  lemma AgreementOverRuns(p: Params, steps: seq<Step>, q: Cluster)
    requires ValidParams(p) && GuardedRun(p, Init(p), steps, q)
    ensures Agreement(q)
  {
    hide Inv, GuardedRun;
    InitInv(p);
    RunKeeps(p, Init(p), steps, q);
    InvAgrees(p, q);
  }
}
