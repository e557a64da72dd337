/** The five conditions are exactly what agreement needs: together they suffice, and none can be dropped. */
module ConsensusTight {
  import opened Quorums
  import opened Consensus
  import opened ConsensusGuards
  import opened ConsensusSafety
  import AckBeforeLowerOps
  import PartialWindow
  import LateViewMessage
  import UnpromisedView
  import ViewBeforeWrites

  /** The parameters that the quorum table gives `n` active replicas. */
  function TableParams(n: nat, replicationMax: nat, pipelineMax: nat): (p: Params)
    requires For(n, replicationMax).Valid?
  {
    var t := For(n, replicationMax).table;
    Params(n, t.replication, t.viewChange, t.negative, pipelineMax)
  }

  /**
    For each condition there is a configuration of the quorum table and a run
    from a formatted cluster that meets the other four, and in which two
    replicas commit different headers at one op.
   */
  lemma EveryGuardIsNeeded(g: Guard)
    ensures exists n: nat, m: nat, k: nat :: For(n, m).Valid? && Needed(TableParams(n, m, k), g)
  {
    hide Needed;
    match g
    case LowerOpsDurable =>
      AckBeforeLowerOps.GuardNeeded();
      assert TableParams(3, 3, 2) == AckBeforeLowerOps.P;
    case NothingInFlight =>
      ViewBeforeWrites.GuardNeeded();
      assert TableParams(3, 3, 1) == ViewBeforeWrites.P;
    case OwnLogReached =>
      LateViewMessage.GuardNeeded();
      assert TableParams(2, 3, 1) == LateViewMessage.P;
    case PromisedFirst =>
      UnpromisedView.GuardNeeded();
      assert TableParams(5, 3, 2) == UnpromisedView.P;
    case WindowInLog =>
      PartialWindow.GuardNeeded();
      assert TableParams(3, 3, 1) == PartialWindow.P;
  }

  /** A run whose steps meet every condition in `gs`. */
  ghost predicate RunMeeting(p: Params, gs: set<Guard>, s: Cluster, steps: seq<Step>, q: Cluster)
    requires ValidParams(p)
    decreases |steps|
  {
    if steps == [] then s == q
    else
      && Enabled(p, s, steps[0]) && (forall g :: g in gs ==> Meets(p, s, steps[0], g))
      && RunMeeting(p, gs, Apply(p, s, steps[0]), steps[1..], q)
  }

  /** No run of `p` that meets the conditions in `gs` commits two different headers at one op. */
  ghost predicate Agrees(p: Params, gs: set<Guard>) {
    ValidParams(p) && forall steps, q :: RunMeeting(p, gs, Init(p), steps, q) ==> Agreement(q)
  }

  /** The conditions in `gs` ensure agreement in every cluster of two or more active replicas. */
  ghost predicate Suffice(gs: set<Guard>) {
    forall n: nat, m: nat, k: nat :: For(n, m).Valid? && n >= 2 && k >= 1 ==> Agrees(TableParams(n, m, k), gs)
  }

  /** What the model requires of its parameters excludes only a solo replica and an empty pipeline. */
  lemma TableIsValid(n: nat, m: nat, k: nat)
    requires For(n, m).Valid?
    ensures ValidParams(TableParams(n, m, k)) <==> n >= 2 && k >= 1
  {
    TableIntersects(n, m);
  }

  lemma {:induction false} MeetingAllIsGuarded(p: Params, gs: set<Guard>, s: Cluster, steps: seq<Step>, q: Cluster)
    requires ValidParams(p) && RunMeeting(p, gs, s, steps, q) && forall g :: g in gs
    ensures GuardedRun(p, s, steps, q)
    decreases |steps|
  {
    hide Enabled, Apply, Meets, Guarded;
    if steps != [] {
      GuardedMeetsAll(p, s, steps[0]);
      MeetingAllIsGuarded(p, gs, Apply(p, s, steps[0]), steps[1..], q);
    }
  }

  lemma {:induction false} RunButMeets(p: Params, g: Guard, gs: set<Guard>, s: Cluster, steps: seq<Step>, q: Cluster)
    requires ValidParams(p) && RunBut(p, {g}, s, steps, q) && g !in gs
    ensures RunMeeting(p, gs, s, steps, q)
    decreases |steps|
  {
    hide Enabled, Apply, Meets;
    if steps != [] {
      RunButMeets(p, g, gs, Apply(p, s, steps[0]), steps[1..], q);
    }
  }

  lemma MissingGuardFails(gs: set<Guard>, g: Guard)
    requires g !in gs
    ensures !Suffice(gs)
  {
    hide Enabled, Apply, Meets, RunBut, RunMeeting, Agreement, ValidParams, For, Init;
    EveryGuardIsNeeded(g);
    var n: nat, m: nat, k: nat :| For(n, m).Valid? && Needed(TableParams(n, m, k), g);
    var p := TableParams(n, m, k);
    TableIsValid(n, m, k);
    var steps, q :| RunBut(p, {g}, Init(p), steps, q) && !Agreement(q);
    RunButMeets(p, g, gs, Init(p), steps, q);
    assert !Agrees(p, gs);
  }

  /** A set of conditions ensures agreement if and only if it holds all five. */
  lemma GuardsSufficeIff(gs: set<Guard>)
    ensures Suffice(gs) <==> forall g :: g in gs
  {
    hide Enabled, Apply, Meets, RunBut, RunMeeting, Agreement, ValidParams, For, Init;
    if forall g :: g in gs {
      forall n: nat, m: nat, k: nat | For(n, m).Valid? && n >= 2 && k >= 1
        ensures Agrees(TableParams(n, m, k), gs)
      {
        var p := TableParams(n, m, k);
        TableIsValid(n, m, k);
        forall steps, q | RunMeeting(p, gs, Init(p), steps, q) ensures Agreement(q) {
          MeetingAllIsGuarded(p, gs, Init(p), steps, q);
          AgreementOverRuns(p, steps, q);
        }
      }
    } else {
      var g :| g !in gs;
      MissingGuardFails(gs, g);
    }
  }
}
