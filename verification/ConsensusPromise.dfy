/**
  The view promise: once a replica has sent a join for a view, it never
  acknowledges a prepare in an earlier one, whatever it does and however often
  it restarts.  This holds of every run, guarded or not.
 */
module ConsensusPromise {
  import opened Chains
  import opened Selection
  import opened Consensus

  /** Views are promised on disk first; a repair never aims below the view in memory. */
  predicate Promising(r: Replica) {
    && r.logView <= r.durableView <= r.view
    && (r.repair.Repair? ==> r.repair.view >= r.view && r.status == RecoveringHead)
    && (r.repair.Repair? && r.repair.rebuilt ==> r.repair.view == r.view)
  }

  ghost predicate JoinsPromised(s: Cluster) {
    forall v: nat, i: nat, j: Join :: JoinView(v, i, j) in s.msgs ==> i < |s.rs| && v <= s.rs[i].durableView
  }

  ghost predicate Promises(p: Params, s: Cluster) {
    |s.rs| == p.n && (forall i :: 0 <= i < |s.rs| ==> Promising(s.rs[i])) && JoinsPromised(s)
  }

  /** From `s` to `q` no promise is taken back, no message is lost, and new acknowledgements honour the promises. */
  ghost predicate Honours(s: Cluster, q: Cluster) {
    && |q.rs| == |s.rs| && s.msgs <= q.msgs
    && (forall i :: 0 <= i < |s.rs| ==> s.rs[i].durableView <= q.rs[i].durableView)
    && (forall i :: 0 <= i < |s.rs| ==> s.rs[i].logView <= q.rs[i].logView)
    && (forall w: nat, i: nat, c: Chain :: PrepareOK(w, i, c) in q.msgs && PrepareOK(w, i, c) !in s.msgs ==>
          i < |s.rs| && w >= s.rs[i].durableView)
  }

  /** The step of a replica keeps its own order of views and never lowers what is on disk. */
  predicate Advances(r: Replica, q: Replica) {
    Promising(q) && r.durableView <= q.durableView && r.logView <= q.logView
  }

  lemma ViewReplica(p: Params, s: Cluster, step: Step)
    requires ValidParams(p) && Enabled(p, s, step) && Promising(s.rs[step.i])
    requires step.BeginViewChange? || step.PersistView? || step.SelectSuffix? || step.Rebuild? || step.Install?
    ensures step.i < |Apply(p, s, step).rs| && Advances(s.rs[step.i], Apply(p, s, step).rs[step.i])
  {
    hide Select, JoinOf, Crashed, IsRecovered, AncestorAt, Rewritten, Acks, Senders, RecoveredCommit, ValidJoins;
  }

  lemma AcceptReplica(p: Params, s: Cluster, step: Step)
    requires ValidParams(p) && Enabled(p, s, step) && Promising(s.rs[step.i])
    requires step.AcceptView? || step.AcceptWindow? || step.ContinueWindow? || step.Restart?
    ensures step.i < |Apply(p, s, step).rs| && Advances(s.rs[step.i], Apply(p, s, step).rs[step.i])
  {
    hide Select, JoinOf, Crashed, IsRecovered, AncestorAt, Rewritten, Acks, Senders, RecoveredCommit, ValidJoins;
  }

  lemma QuietReplica(p: Params, s: Cluster, step: Step)
    requires ValidParams(p) && Enabled(p, s, step) && Promising(s.rs[step.i])
    requires !step.BeginViewChange? && !step.PersistView? && !step.SelectSuffix? && !step.Rebuild? && !step.Install?
    requires !step.AcceptView? && !step.AcceptWindow? && !step.ContinueWindow? && !step.Restart?
    ensures step.i < |Apply(p, s, step).rs| && Advances(s.rs[step.i], Apply(p, s, step).rs[step.i])
  {
    hide Select, JoinOf, Crashed, IsRecovered, AncestorAt, Rewritten, Acks, Senders, RecoveredCommit, ValidJoins;
  }

  lemma StepReplica(p: Params, s: Cluster, step: Step)
    requires ValidParams(p) && Enabled(p, s, step) && Promising(s.rs[step.i])
    ensures step.i < |Apply(p, s, step).rs| && Advances(s.rs[step.i], Apply(p, s, step).rs[step.i])
  {
    hide Enabled, Apply, Promising, Advances;
    if step.BeginViewChange? || step.PersistView? || step.SelectSuffix? || step.Rebuild? || step.Install? {
      ViewReplica(p, s, step);
    } else if step.AcceptView? || step.AcceptWindow? || step.ContinueWindow? || step.Restart? {
      AcceptReplica(p, s, step);
    } else {
      QuietReplica(p, s, step);
    }
  }

  lemma StepOthers(p: Params, s: Cluster, step: Step)
    requires ValidParams(p) && Enabled(p, s, step)
    ensures var q := Apply(p, s, step);
      |q.rs| == |s.rs| == p.n && forall j :: 0 <= j < |s.rs| && j != step.i ==> q.rs[j] == s.rs[j]
  {
    hide Primary, Max, Min, CommitOf, ViewOf, IsParent, OwnOf, Select, JoinOf, Crashed, IsRecovered, AncestorAt,
         Rewritten, Acks, Senders, RecoveredCommit, ValidJoins, ViewAdmitted, Reopen;
  }

  /** What a step may send: a join for a view on disk, an acknowledgement in the view in memory, or something else. */
  predicate Sends(s: Cluster, q: Cluster, i: nat) {
    i < |s.rs| && s.msgs <= q.msgs &&
    forall m :: m in q.msgs && m !in s.msgs ==>
      && (m.JoinView? ==> m.from == i && m.view == s.rs[i].durableView)
      && (m.PrepareOK? ==> m.from == i && m.view == s.rs[i].view)
  }

  lemma StepSends(p: Params, s: Cluster, step: Step)
    requires ValidParams(p) && Enabled(p, s, step)
    ensures Sends(s, Apply(p, s, step), step.i)
  {
    hide Select, JoinOf, Crashed, IsRecovered, AncestorAt, Rewritten, Acks, Senders, RecoveredCommit, ValidJoins,
         ViewAdmitted, Reopen;
  }

  lemma StepPromises(p: Params, s: Cluster, step: Step)
    requires ValidParams(p) && Promises(p, s) && Enabled(p, s, step)
    ensures Promises(p, Apply(p, s, step)) && Honours(s, Apply(p, s, step))
  {
    hide Enabled, Apply, Promising;
    assert step.i < |s.rs| by { StepIndex(p, s, step); }
    StepReplica(p, s, step);
    StepOthers(p, s, step);
    StepSends(p, s, step);
    PromisedInMemory(s, step.i);
  }

  lemma StepIndex(p: Params, s: Cluster, step: Step)
    requires ValidParams(p) && Enabled(p, s, step)
    ensures step.i < |s.rs|
  {
  }

  lemma PromisedInMemory(s: Cluster, i: nat)
    requires i < |s.rs| && Promising(s.rs[i])
    ensures s.rs[i].durableView <= s.rs[i].view
  {
  }

  lemma {:induction false} RunPromises(p: Params, s: Cluster, steps: seq<Step>, q: Cluster)
    requires ValidParams(p) && Promises(p, s) && Reaches(p, s, steps, q)
    ensures Promises(p, q) && Honours(s, q)
    decreases |steps|
  {
    hide Enabled, Apply, Promising;
    if steps != [] {
      var t := Apply(p, s, steps[0]);
      StepPromises(p, s, steps[0]);
      RunPromises(p, t, steps[1..], q);
      forall w: nat, i: nat, c: Chain | PrepareOK(w, i, c) in q.msgs && PrepareOK(w, i, c) !in s.msgs
        ensures i < |s.rs| && w >= s.rs[i].durableView
      {
        if PrepareOK(w, i, c) !in t.msgs {
          assert s.rs[i].durableView <= t.rs[i].durableView;
        }
      }
    }
  }

  lemma InitPromises(p: Params)
    requires ValidParams(p)
    ensures Promises(p, Init(p))
  {
  }

  /** In every run, an acknowledgement sent after a join for `v` is for `v` or a later view. */
  lemma PromiseKept(p: Params, before: seq<Step>, s: Cluster, after: seq<Step>, q: Cluster,
                    v: nat, i: nat, j: Join, w: nat, c: Chain)
    requires ValidParams(p) && Reaches(p, Init(p), before, s) && Reaches(p, s, after, q)
    requires JoinView(v, i, j) in s.msgs
    requires PrepareOK(w, i, c) in q.msgs && PrepareOK(w, i, c) !in s.msgs
    ensures w >= v
  {
    InitPromises(p);
    RunPromises(p, Init(p), before, s);
    RunPromises(p, s, after, q);
  }
}
