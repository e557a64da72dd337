/**
  What a replica can do next: after a restart, after giving up on its primary,
  after a checkpoint, and on a view message or a further repair window.  Stated
  of the replica's fields, for every state a step is possible in.
 */
module ConsensusResume {
  import opened Chains
  import opened Selection
  import opened Consensus
  import ConsensusFields
  import opened ConsensusPromise

  // ---- restart ------------------------------------------------------------------------------

  /** A restart keeps what was durable, forgets what was not, and commits what the recovered head proves committed. */
  lemma RestartMemory(p: Params, s: Cluster, i: nat, kept: set<nat>, damaged: set<nat>, head: Chain, faulty: bool)
    requires ValidParams(p) && Enabled(p, s, Restart(i, kept, damaged, head, faulty))
    ensures var r := s.rs[i];
      var t := Apply(p, s, Restart(i, kept, damaged, head, faulty)).rs[i];
      && t.durableView == r.durableView && t.logView == r.logView && t.durableHead == r.durableHead
      && t.durableCommit == r.durableCommit && t.checkpoint == r.checkpoint
      && t.dirty == {} && t.repair == NoRepair && t.nonce == 0 && t.faulty == faulty
      && (faulty ==> t.commitMin == |r.checkpoint|)
      && (!faulty ==>
            && t.commitMin >= r.durableCommit && |head| <= t.commitMin + p.pipelineMax
            && (|head| > |r.checkpoint| ==> t.commitMin >= head[|head| - 1].commit)
            && (|| t.commitMin == r.durableCommit || |head| == t.commitMin + p.pipelineMax
                || (|head| > |r.checkpoint| && t.commitMin == head[|head| - 1].commit)))
      && t.commitMax == if t.commitMin < r.durableCommit then r.durableCommit else t.commitMin
  {
    hide IsRecovered, Crashed;
  }

  /**
    A clean restart resumes.  A backup whose promised view is its log view is
    Normal in it again, and accepts the prepare that comes next.  Otherwise it is
    in a view change above its log view, to be persisted and then joined.
   */
  lemma RestartResumes(p: Params, s: Cluster, i: nat, kept: set<nat>, damaged: set<nat>, head: Chain, c: Chain)
    requires ValidParams(p) && Promises(p, s) && Enabled(p, s, Restart(i, kept, damaged, head, false))
    ensures var r := s.rs[i];
      var q := Apply(p, s, Restart(i, kept, damaged, head, false));
      var t := q.rs[i];
      && |q.rs| == p.n
      && (r.durableView == r.logView && r.durableView % p.n != i ==>
            && t.status == Normal && t.view == r.logView
            && (Prepare(c) in s.msgs && |c| > 0 && c[..|c| - 1] == head && c[|c| - 1].view == r.logView
                && c[|c| - 1].commit <= t.commitMin && |head| - t.commitMin < p.pipelineMax ==>
                  Enabled(p, q, AcceptPrepare(i, c))))
      && (r.durableView > r.logView ==> t.status == ViewChange && t.view == r.durableView && Enabled(p, q, SendJoin(i)))
      && (r.durableView == r.logView && r.durableView % p.n == i ==>
            && t.status == ViewChange && t.view == r.durableView + 1 && Enabled(p, q, PersistView(i))
            && Enabled(p, Apply(p, q, PersistView(i)), SendJoin(i)))
  {
    hide RecoveredCommit, Crashed;
    assert Promising(s.rs[i]);
  }

  /** With a faulty slot above the checkpoint a replica comes back without a voice: it neither joins nor acknowledges. */
  lemma RestartFaulty(p: Params, s: Cluster, i: nat, kept: set<nat>, damaged: set<nat>, head: Chain, faulty: bool,
                      op: nat, k: nat)
    requires ValidParams(p) && Enabled(p, s, Restart(i, kept, damaged, head, faulty))
    requires k in Apply(p, s, Restart(i, kept, damaged, head, faulty)).rs[i].disk && k > |s.rs[i].checkpoint|
    requires Apply(p, s, Restart(i, kept, damaged, head, faulty)).rs[i].disk[k] == Bad
    ensures var q := Apply(p, s, Restart(i, kept, damaged, head, faulty));
      && faulty && q.rs[i].status == RecoveringHead
      && !Enabled(p, q, SendJoin(i)) && !Enabled(p, q, Acknowledge(i, op)) && !Enabled(p, q, BeginViewChange(i, op))
      && !Enabled(p, q, CommitOp(i, op)) && (op != 0 && GetView(op) !in q.msgs ==> Enabled(p, q, RequestView(i, op)))
  {
    var q := Apply(p, s, Restart(i, kept, damaged, head, faulty));
    var disk := Crashed(s.rs[i], kept, damaged);
    ConsensusFields.CrashedAfter(s.rs[i], kept, damaged);
    ConsensusFields.RestartStep(p, s, i, kept, damaged, head, faulty, disk);
    hide ConsensusFields.JournalAfter, ConsensusFields.Stands;
    RestartMemory(p, s, i, kept, damaged, head, faulty);
    FaultyStatus(p, s, i, kept, damaged, head);
    hide Apply, RecoveredCommit, IsRecovered, Crashed;
    NoVoice(p, q, i, op);
  }

  lemma FaultyStatus(p: Params, s: Cluster, i: nat, kept: set<nat>, damaged: set<nat>, head: Chain)
    requires ValidParams(p) && i < |s.rs|
    ensures Enabled(p, s, Restart(i, kept, damaged, head, true)) ==>
      Apply(p, s, Restart(i, kept, damaged, head, true)).rs[i].status == RecoveringHead
      && |Apply(p, s, Restart(i, kept, damaged, head, true)).rs| == p.n
  {
    hide RecoveredCommit, IsRecovered, Crashed;
  }

  lemma NoVoice(p: Params, q: Cluster, i: nat, op: nat)
    requires ValidParams(p) && i < |q.rs| == p.n
    requires q.rs[i].status == RecoveringHead && q.rs[i].faulty && q.rs[i].repair == NoRepair
    ensures !Enabled(p, q, SendJoin(i)) && !Enabled(p, q, Acknowledge(i, op)) && !Enabled(p, q, BeginViewChange(i, op))
    ensures !Enabled(p, q, CommitOp(i, op)) && (op != 0 && GetView(op) !in q.msgs ==> Enabled(p, q, RequestView(i, op)))
  {
    hide Enabled, Apply;
    ConsensusFields.ViewSteps(p, q, i, op);
    ConsensusFields.WriteSteps(p, q, i, op);
    ConsensusFields.CommitSteps(p, q, i, op);
    ConsensusFields.ShowSteps(p, q, i, op);
  }

  // ---- joins -----------------------------------------------------------------------------------

  /** A join reports the local head downward: every header present, and nacked exactly if it is still being written. */
  lemma JoinReports(p: Params, s: Cluster, i: nat)
    requires ValidParams(p) && Enabled(p, s, SendJoin(i))
    ensures var r := s.rs[i];
      var q := Apply(p, s, SendJoin(i));
      exists j: Join :: JoinView(r.view, i, j) in q.msgs && q == s.(msgs := s.msgs + {JoinView(r.view, i, j)}) && Reports(p, r, j)
  {
    var r := s.rs[i];
    assert Reports(p, r, JoinOf(p, r));
  }

  predicate Reports(p: Params, r: Replica, j: Join) {
    && j.head == |r.head| && j.commit == r.commitMin && j.checkpoint == |r.checkpoint| && j.logView == r.logView
    && |j.headers| == |j.present| == |j.nack|
    && (|j.headers| == p.pipelineMax + 1 || |j.headers| == |r.head| - |r.checkpoint| + 1) && |j.headers| <= p.pipelineMax + 1
    && |j.headers| <= |r.head| - |r.checkpoint| + 1
    && forall k :: 0 <= k < |j.headers| && k <= |r.head| ==>
         j.headers[k] == Some(r.head[..|r.head| - k]) && j.present[k] && (j.nack[k] <==> |r.head| - k in r.dirty)
  }

  // ---- view messages ---------------------------------------------------------------------------------

  /** A common clean prefix at or above what is committed is where a repair may start. */
  lemma CommonPrefix(r: Replica, target: Chain, a: nat)
    requires r.commitMin <= a <= |target| && a <= |r.head| && r.head[..a] == target[..a] && a !in r.dirty
    ensures AncestorAt(r, target, a)
  {
  }

  /** A faulty replica may also start at a prepare above its recovered head, up to its stored commit bound. */
  lemma StoredPrefix(r: Replica, target: Chain, a: nat)
    requires r.faulty && r.commitMin <= a <= |target| && |r.head| < a <= r.durableCommit && a in r.disk
    requires r.disk[a] == Good(target[..a])
    ensures AncestorAt(r, target, a)
  {
  }

  /** Where else a repair cannot start. */
  lemma OnlyCommonPrefix(r: Replica, target: Chain, a: nat)
    requires AncestorAt(r, target, a)
    ensures r.commitMin <= a <= |target|
    ensures || (a <= |r.head| && r.head[..a] == target[..a] && a !in r.dirty)
            || (r.faulty && a in r.disk && r.disk[a] == Good(target[..a]))
  {
  }

  /**
    What a view message does: a replica that is not repairing and not the view's
    primary acts on it if it is for a later view, or for its own while it is
    changing view or had asked for it; if it proves nothing less committed than
    is known; and if the difference fits the pipeline.  It then repairs towards
    the sender's log from the common prefix.
   */
  lemma ViewActedOn(p: Params, s: Cluster, i: nat, view: nat, nonce: nat, head: Chain, commit: nat, a: nat)
    requires ValidParams(p) && i < |s.rs| == p.n
    ensures var r := s.rs[i];
      Enabled(p, s, AcceptView(i, view, nonce, head, commit, a)) <==>
        && View(view, nonce, head, commit) in s.msgs && view % p.n != i && view >= r.view && r.repair == NoRepair
        && (r.status == ViewChange ==> r.durableView == r.view) && (nonce == 0 || nonce == r.nonce)
        && (view > r.view || r.status == ViewChange || nonce != 0)
        && r.commitMax <= commit <= |head| && r.commitMin <= |head| <= r.commitMin + p.pipelineMax && AncestorAt(r, head, a)
    ensures Enabled(p, s, AcceptView(i, view, nonce, head, commit, a)) ==>
      Apply(p, s, AcceptView(i, view, nonce, head, commit, a)) ==
        s.(rs := s.rs[i := s.rs[i].(status := RecoveringHead, commitMax := commit, nonce := 0,
                                    repair := Repair(view, commit, head, a, false))])
  {
    hide AncestorAt;
  }

  /** A backup that has committed everything it has and knows of more repairs the next stretch in its own view. */
  lemma WindowContinues(p: Params, s: Cluster, i: nat, nonce: nat, head: Chain, commit: nat, window: nat)
    requires ValidParams(p) && i < |s.rs| == p.n && View(s.rs[i].view, nonce, head, commit) in s.msgs
    requires var r := s.rs[i];
      && r.status == Normal && r.commitMin == |r.head| < r.commitMax && r.dirty == {} && r.head <= head
      && r.commitMin < window <= |head| && (window == r.commitMax <= r.commitMin + p.pipelineMax
                                            || window == r.commitMin + p.pipelineMax <= r.commitMax)
    ensures var step := ContinueWindow(i, nonce, head, commit);
      Enabled(p, s, step) &&
      Apply(p, s, step) ==
        s.(rs := s.rs[i := s.rs[i].(status := RecoveringHead,
                                    repair := Repair(s.rs[i].view, window, head[..window], s.rs[i].commitMin, false))])
  {
    var r := s.rs[i];
    assert Min(r.commitMax, r.commitMin + p.pipelineMax) == window;
    assert head[..window][..r.commitMin] == r.head[..r.commitMin];
  }

  // ---- giving up, and checkpoints ---------------------------------------------------------------------

  /** A backup that gives up on its primary keeps everything but its status, and may then change view. */
  lemma GivesUp(p: Params, s: Cluster, i: nat, v: nat)
    requires ValidParams(p) && Enabled(p, s, GiveUp(i)) && s.rs[i].repair == NoRepair && !s.rs[i].faulty && v > s.rs[i].view
    ensures var q := Apply(p, s, GiveUp(i));
      && q == s.(rs := s.rs[i := s.rs[i].(status := RecoveringHead)]) && !Enabled(p, q, Acknowledge(i, 1))
      && Enabled(p, q, BeginViewChange(i, v))
      && Apply(p, q, BeginViewChange(i, v)) == s.(rs := s.rs[i := s.rs[i].(status := ViewChange, view := v)])
  {
  }

  /** A checkpoint moves the checkpoint to a committed, written op and stores the commit bound, and nothing else. */
  lemma CheckpointTaken(p: Params, s: Cluster, i: nat, op: nat)
    requires ValidParams(p) && i < |s.rs| == p.n
    ensures var r := s.rs[i];
      Enabled(p, s, TakeCheckpoint(i, op)) <==>
        && |r.checkpoint| < op <= r.commitMin && op <= |r.head| && op !in r.dirty
        && (r.status == Normal || (r.repair.Repair? && r.repair.rebuilt))
    ensures Enabled(p, s, TakeCheckpoint(i, op)) ==>
      var r := s.rs[i];
      Apply(p, s, TakeCheckpoint(i, op)) ==
        s.(rs := s.rs[i := r.(checkpoint := r.head[..op],
                              durableCommit := if r.durableCommit < r.commitMax then r.commitMax else r.durableCommit)])
  {
  }
}
