/**
  The replication protocol as steps of a cluster: normal operation, view
  change, repair before installation, crash and recovery.  The message set only
  grows, so delivery may be lost, repeated, delayed or reordered at will.

  A replica's journal is a map from op to the slot's durable content.  Writes
  of accepted prepares complete in any order; a crash keeps, loses or damages
  each unfinished write and may damage any other slot.
 */
module Consensus {
  import opened Chains
  import opened Quorums
  import opened Selection

  datatype Params = Params(n: nat, replication: nat, viewChange: nat, negative: nat, pipelineMax: nat)

  /** What the quorum table of every configuration provides, for more than one active replica. */
  predicate ValidParams(p: Params) {
    && p.n >= 2 && p.pipelineMax >= 1
    && p.replication + p.viewChange > p.n && p.replication + p.negative > p.n
    && 1 <= p.replication <= p.n && 1 <= p.viewChange <= p.n && 1 <= p.negative <= p.n
  }

  datatype Slot = Good(chain: Chain) | Bad

  datatype Status = Normal | ViewChange | RecoveringHead

  /** A canonical suffix being repaired towards: every prepare above `ancestor` must be rewritten. */
  datatype Repair =
    | NoRepair
    | Repair(view: nat, commit: nat, target: Chain, ancestor: nat, rebuilt: bool)

  datatype Replica = Replica(
    // superblock: promised view, log view, op of the first stored view header, commit bound, checkpoint
    durableView: nat, logView: nat, durableHead: nat, durableCommit: nat, checkpoint: Chain,
    // journal
    disk: map<nat, Slot>,
    // memory; `dirty` holds the ops of `head` whose journal write has not completed
    status: Status, view: nat, head: Chain, dirty: set<nat>, commitMin: nat, commitMax: nat,
    nonce: nat, repair: Repair, faulty: bool)

  datatype Message =
    | Prepare(chain: Chain)
    | PrepareOK(view: nat, from: nat, chain: Chain)
    | Commit(view: nat, chain: Chain)
    | JoinView(view: nat, from: nat, join: Join)
    | GetView(nonce: nat)
    | View(view: nat, nonce: nat, head: Chain, commit: nat)

  /**
    `logs`, `canon`, `selections` and `decided` only record what happened: the
    log of each installed view, the suffix it started from, every selection
    made, and every header any replica ever committed.
   */
  datatype Cluster = Cluster(
    rs: seq<Replica>, msgs: set<Message>,
    logs: map<nat, Chain>, canon: map<nat, Chain>, selections: set<(nat, Chain)>, decided: set<Chain>)

  function Primary(p: Params, view: nat): (r: nat)
    ensures p.n > 0 ==> r < p.n
  {
    if p.n == 0 then 0 else view % p.n
  }

  // ---- initial state -----------------------------------------------------

  /** A replica opened on a freshly formatted disk; the primary of view 0 leaves it at once. */
  function Formatted(i: nat): (r: Replica) {
    Replica(0, 0, 0, 0, [], map[], if i == 0 then ViewChange else Normal, if i == 0 then 1 else 0,
            [], {}, 0, 0, 0, NoRepair, false)
  }

  function Init(p: Params): (s: Cluster) {
    Cluster(seq(p.n, i requires i >= 0 => Formatted(i)), {}, map[0 := []], map[0 := []], {}, {})
  }

  // ---- pieces of a replica's behaviour ------------------------------------

  function JoinOf(p: Params, r: Replica): (j: Join)
    requires |r.checkpoint| <= |r.head|
  {
    var count := Min(|r.head| - |r.checkpoint| + 1, p.pipelineMax + 1);
    Join(|r.head|, r.commitMin, |r.checkpoint|, r.logView,
         seq(count, i requires 0 <= i < count => Some(r.head[..|r.head| - i])),
         seq(count, i requires 0 <= i < count => true),
         seq(count, i requires 0 <= i < count => (|r.head| - i) in r.dirty))
  }

  /** A recovered candidate the installed view excludes. */
  predicate Obsolete(op: nat, c: Chain, durableHead: nat, logView: nat) {
    op > durableHead && ViewOf(c) < logView
  }

  /** Slot `op` survives recovery with chain `c`. */
  predicate Usable(r: Replica, disk: map<nat, Slot>, op: nat, c: Chain) {
    op in disk && disk[op] == Good(c) && !Obsolete(op, c, r.durableHead, r.logView)
  }

  /** The next slot holds a usable child of `head`. */
  predicate Continues(r: Replica, disk: map<nat, Slot>, head: Chain) {
    var next := |head| + 1;
    && next in disk && disk[next].Good? && IsParent(head, disk[next].chain)
    && Usable(r, disk, next, disk[next].chain)
  }

  /** `head` is the longest hash-linked run recovery finds above the checkpoint. */
  predicate IsRecovered(r: Replica, disk: map<nat, Slot>, head: Chain) {
    && r.checkpoint <= head
    && (forall op :: |r.checkpoint| < op <= |head| ==> Usable(r, disk, op, head[..op]))
    && !Continues(r, disk, head)
  }

  /** The journal after a crash: `kept` unfinished writes reach it, then `damaged` slots go bad. */
  function Crashed(r: Replica, kept: set<nat>, damaged: set<nat>): (d: map<nat, Slot>) {
    map op | op in r.disk.Keys + kept + damaged ::
      if op in damaged then Bad
      else if op in kept && op <= |r.head| then Good(r.head[..op])
      else if op in r.disk then r.disk[op] else Bad
  }

  function RecoveredCommit(p: Params, r: Replica, head: Chain): (c: nat) {
    var stored := if |head| > |r.checkpoint| then Max(r.durableCommit, CommitOf(head)) else r.durableCommit;
    if |head| > p.pipelineMax then Max(stored, |head| - p.pipelineMax) else stored
  }

  function Reopen(p: Params, i: nat, r: Replica, disk: map<nat, Slot>, head: Chain, faulty: bool): (q: Replica)
    requires ValidParams(p)
  {
    var commit := if faulty then |r.checkpoint| else RecoveredCommit(p, r, head);
    var status := if faulty then RecoveringHead
                  else if r.durableView > r.logView || Primary(p, r.durableView) == i then ViewChange
                  else Normal;
    var view := if !faulty && r.durableView == r.logView && Primary(p, r.durableView) == i
                then r.durableView + 1 else r.durableView;
    r.(disk := disk, status := status, view := view, head := head, dirty := {},
       commitMin := commit, commitMax := Max(r.durableCommit, commit),
       nonce := 0, repair := NoRepair, faulty := faulty)
  }

  /** The common ancestor search found `a`: the local prepare there is clean and equals the target's. */
  predicate AncestorAt(r: Replica, target: Chain, a: nat) {
    && r.commitMin <= a <= |target|
    && ((a <= |r.head| && r.head[..a] == target[..a] && a !in r.dirty)
        || (r.faulty && |r.head| < a <= r.durableCommit && a in r.disk && r.disk[a] == Good(target[..a])))
  }

  predicate Rewritten(r: Replica) {
    r.repair.Repair? &&
    forall op :: r.repair.ancestor < op <= |r.repair.target| ==>
      op in r.disk && r.disk[op] == Good(r.repair.target[..op])
  }

  function Acks(p: Params, s: Cluster, view: nat, c: Chain): (r: set<nat>) {
    set i: nat | i in Members(p.n) && PrepareOK(view, i, c) in s.msgs
  }

  function Senders(js: Joins): (r: set<nat>) {
    set i: nat | i in Members(|js|) && js[i].Some?
  }

  // ---- steps ---------------------------------------------------------------

  datatype Step =
    | CreatePrepare(i: nat, body: int)
    | AcceptPrepare(i: nat, chain: Chain)
    | WriteDone(i: nat, op: nat)
    | Acknowledge(i: nat, op: nat)
    | CommitOp(i: nat, op: nat)
    | SendCommit(i: nat)
    | LearnCommit(i: nat, chain: Chain)
    | GiveUp(i: nat)
    | BeginViewChange(i: nat, view: nat)
    | PersistView(i: nat)
    | SendJoin(i: nat)
    | SelectSuffix(i: nat, joins: Joins, ancestor: nat)
    | RequestView(i: nat, nonce: nat)
    | SendView(i: nat, nonce: nat)
    | AcceptView(i: nat, view: nat, nonce: nat, head: Chain, commit: nat, ancestor: nat)
    | AcceptWindow(i: nat, view: nat, nonce: nat, head: Chain, commit: nat)
    | ContinueWindow(i: nat, nonce: nat, head: Chain, commit: nat)
    | RewritePrepare(i: nat, op: nat)
    | Rebuild(i: nat)
    | Install(i: nat)
    | TakeCheckpoint(i: nat, op: nat)
    | Restart(i: nat, kept: set<nat>, damaged: set<nat>, head: Chain, faulty: bool)

  function OwnOf(r: Replica): (o: Own) {
    Own(r.commitMin, r.commitMax, |r.checkpoint|)
  }

  /** The guards of `handleView` before the message is used. */
  predicate ViewAdmitted(p: Params, s: Cluster, i: nat, view: nat, nonce: nat, head: Chain, commit: nat)
    requires ValidParams(p) && i < |s.rs|
  {
    var r := s.rs[i];
    && View(view, nonce, head, commit) in s.msgs
    && i != Primary(p, view) && view >= r.view && r.repair.NoRepair?
    && (r.status == ViewChange ==> r.durableView == r.view)
    && (nonce == 0 || nonce == r.nonce)
    && (r.status != ViewChange && view == r.view ==> nonce != 0)
    && commit >= r.commitMax && commit <= |head| && r.commitMin <= |head|
  }

  predicate Enabled(p: Params, s: Cluster, step: Step)
    requires ValidParams(p)
  {
    step.i < |s.rs| == p.n &&
    var r := s.rs[step.i];
    match step
    case CreatePrepare(i, body) =>
      && r.status == Normal && Primary(p, r.view) == i && |r.head| - r.commitMin < p.pipelineMax
    case AcceptPrepare(i, c) =>
      && r.status == Normal && Prepare(c) in s.msgs && IsParent(r.head, c) && ViewOf(c) == r.view
      && CommitOf(c) <= r.commitMin && |r.head| - r.commitMin < p.pipelineMax
    case WriteDone(i, op) => op in r.dirty && op <= |r.head|
    case Acknowledge(i, op) => r.status == Normal && 1 <= op <= |r.head| && op !in r.dirty
    case CommitOp(i, op) =>
      && r.commitMin < op <= |r.head| && op !in r.dirty
      && (|| (r.status == Normal && Primary(p, r.view) == i
              && |Acks(p, s, r.view, r.head[..op])| >= p.replication)
          || (r.status == Normal && Primary(p, r.view) != i && op <= r.commitMax)
          || (r.repair.Repair? && r.repair.rebuilt && op <= r.repair.commit))
    case SendCommit(i) => r.status == Normal && Primary(p, r.view) == i && r.commitMin <= |r.head|
    case LearnCommit(i, c) =>
      && r.status == Normal && Primary(p, r.view) != i && Commit(r.view, c) in s.msgs
      && (|c| <= |r.head| ==> c <= r.head)
    case GiveUp(i) => r.status == Normal && Primary(p, r.view) != i
    case BeginViewChange(i, v) => v > r.view && r.repair.NoRepair? && !r.faulty
    case PersistView(i) => r.status == ViewChange && r.durableView < r.view
    case SendJoin(i) => r.status == ViewChange && r.durableView == r.view && |r.checkpoint| <= |r.head|
    case SelectSuffix(i, js, a) =>
      && r.status == ViewChange && r.durableView == r.view && Primary(p, r.view) == i
      && |js| == p.n && ValidJoins(js, p.pipelineMax)
      && (forall q :: 0 <= q < |js| && js[q].Some? ==> JoinView(r.view, q, js[q].value) in s.msgs)
      && |Senders(js)| >= p.viewChange
      && var x := Select(js, OwnOf(r), p.negative, p.pipelineMax);
         && x.Suffix? && x.headers != [] && x.commit >= r.commitMin
         && var head := x.headers[|x.headers| - 1];
            && |head| >= r.commitMin && |head| - r.commitMin <= p.pipelineMax
            && (forall k :: 0 <= k < |x.headers| ==> ViewOf(x.headers[k]) <= r.view)
            && AncestorAt(r, head, a)
    case RequestView(i, nonce) => nonce != 0 && GetView(nonce) !in s.msgs
    case SendView(i, nonce) =>
      && r.status == Normal && Primary(p, r.view) == i && r.commitMax <= |r.head|
      && (nonce == 0 || GetView(nonce) in s.msgs)
    case AcceptView(i, view, nonce, head, commit, a) =>
      && ViewAdmitted(p, s, i, view, nonce, head, commit)
      && |head| - r.commitMin <= p.pipelineMax && AncestorAt(r, head, a)
    case AcceptWindow(i, view, nonce, head, commit) =>
      && ViewAdmitted(p, s, i, view, nonce, head, commit)
      && commit > r.commitMin && |head| - r.commitMin > p.pipelineMax
      && AncestorAt(r, head[..Min(commit, r.commitMin + p.pipelineMax)], r.commitMin)
    case ContinueWindow(i, nonce, head, commit) =>
      var window := Min(r.commitMax, r.commitMin + p.pipelineMax);
      && r.status == Normal && |r.head| == r.commitMin < r.commitMax
      && View(r.view, nonce, head, commit) in s.msgs && window <= |head|
      && AncestorAt(r, head[..window], r.commitMin)
    case RewritePrepare(i, op) =>
      && r.repair.Repair? && !r.repair.rebuilt && r.dirty == {}
      && r.repair.ancestor < op <= |r.repair.target|
    case Rebuild(i) => r.repair.Repair? && !r.repair.rebuilt && r.dirty == {} && Rewritten(r)
    case Install(i) => r.repair.Repair? && r.repair.rebuilt && r.commitMin >= r.repair.commit
    case TakeCheckpoint(i, op) =>
      && |r.checkpoint| < op <= r.commitMin && op <= |r.head| && op !in r.dirty
      && (r.status == Normal || (r.repair.Repair? && r.repair.rebuilt))
    case Restart(i, kept, damaged, head, faulty) =>
      var disk := Crashed(r, kept, damaged);
      && kept <= r.dirty
      && IsRecovered(r, disk, head)
      && ((exists op :: op in disk && op > |r.checkpoint| && disk[op] == Bad) ==> faulty)
      && (!faulty ==> r.durableCommit <= |head| && RecoveredCommit(p, r, head) <= |head|)
  }

  function Put(s: Cluster, i: nat, r: Replica): (q: Cluster)
    requires i < |s.rs|
  {
    s.(rs := s.rs[i := r])
  }

  function Send(s: Cluster, m: Message): (q: Cluster) {
    s.(msgs := s.msgs + {m})
  }

  function Apply(p: Params, s: Cluster, step: Step): (q: Cluster)
    requires ValidParams(p) && Enabled(p, s, step)
  {
    var r := s.rs[step.i];
    match step
    case CreatePrepare(i, body) =>
      var c := r.head + [Entry(r.view, r.commitMin, body)];
      Send(Put(s, i, r.(head := c, dirty := r.dirty + {|c|})), Prepare(c)).(logs := s.logs[r.view := c])
    case AcceptPrepare(i, c) => Put(s, i, r.(head := c, dirty := r.dirty + {|c|}))
    case WriteDone(i, op) =>
      Put(s, i, r.(disk := r.disk[op := Good(r.head[..op])], dirty := r.dirty - {op}))
    case Acknowledge(i, op) => Send(s, PrepareOK(r.view, i, r.head[..op]))
    case CommitOp(i, op) =>
      Put(s, i, r.(commitMin := op, commitMax := Max(r.commitMax, op))).(decided := s.decided + {r.head[..op]})
    case SendCommit(i) => Send(s, Commit(r.view, r.head[..r.commitMin]))
    case LearnCommit(i, c) => Put(s, i, r.(commitMax := Max(r.commitMax, |c|)))
    case GiveUp(i) => Put(s, i, r.(status := RecoveringHead))
    case BeginViewChange(i, v) => Put(s, i, r.(status := ViewChange, view := v))
    case PersistView(i) =>
      Put(s, i, r.(durableView := r.view, durableHead := |r.head|,
                   durableCommit := Max(r.durableCommit, r.commitMax)))
    case SendJoin(i) => Send(s, JoinView(r.view, i, JoinOf(p, r)))
    case SelectSuffix(i, js, a) =>
      var x := Select(js, OwnOf(r), p.negative, p.pipelineMax);
      var head := x.headers[|x.headers| - 1];
      Put(s, i, r.(status := RecoveringHead, commitMax := Max(r.commitMax, x.commit),
                   repair := Repair(r.view, x.commit, head, a, false)))
      .(selections := s.selections + {(r.view, head)})
    case RequestView(i, nonce) => Send(Put(s, i, r.(nonce := nonce)), GetView(nonce))
    case SendView(i, nonce) => Send(s, View(r.view, nonce, r.head, r.commitMax))
    case AcceptView(i, view, nonce, head, commit, a) =>
      Put(s, i, r.(status := RecoveringHead, commitMax := commit, nonce := 0,
                   repair := Repair(view, commit, head, a, false)))
    case AcceptWindow(i, view, nonce, head, commit) =>
      var window := Min(commit, r.commitMin + p.pipelineMax);
      Put(s, i, r.(status := RecoveringHead, commitMax := commit, nonce := 0,
                   repair := Repair(view, window, head[..window], r.commitMin, false)))
    case ContinueWindow(i, nonce, head, commit) =>
      var window := Min(r.commitMax, r.commitMin + p.pipelineMax);
      Put(s, i, r.(status := RecoveringHead, repair := Repair(r.view, window, head[..window], r.commitMin, false)))
    case RewritePrepare(i, op) =>
      Put(s, i, r.(disk := r.disk[op := Good(r.repair.target[..op])]))
    case Rebuild(i) =>
      Put(s, i, r.(head := r.repair.target, view := r.repair.view, repair := r.repair.(rebuilt := true)))
    case Install(i) =>
      var q := Put(s, i, r.(durableView := r.view, logView := r.view, durableHead := |r.head|,
                            durableCommit := Max(r.durableCommit, r.repair.commit),
                            status := Normal, repair := NoRepair, faulty := false));
      if Primary(p, r.view) == i
      then q.(logs := s.logs[r.view := r.head], canon := s.canon[r.view := r.head])
      else q
    case TakeCheckpoint(i, op) =>
      Put(s, i, r.(checkpoint := r.head[..op], durableCommit := Max(r.durableCommit, r.commitMax)))
    case Restart(i, kept, damaged, head, faulty) =>
      var disk := Crashed(r, kept, damaged);
      var q := Put(s, i, Reopen(p, i, r, disk, head, faulty));
      if faulty then q else q.(decided := s.decided + {head[..RecoveredCommit(p, r, head)]})
  }

  // ---- runs ----------------------------------------------------------------

  /** The cluster after the steps, provided each was enabled when it was taken. */
  ghost predicate Reaches(p: Params, s: Cluster, steps: seq<Step>, q: Cluster)
    requires ValidParams(p)
    decreases |steps|
  {
    if steps == [] then s == q
    else Enabled(p, s, steps[0]) && Reaches(p, Apply(p, s, steps[0]), steps[1..], q)
  }

  /** No two headers ever committed differ at an op both contain. */
  predicate Agreement(s: Cluster) {
    forall c, d :: c in s.decided && d in s.decided ==> Comparable(c, d)
  }

  /**
    Conditions a replica can check before it takes a step, and which the source
    does not check.  An op is acknowledged only when every op below it is
    durable.  A view is persisted only when no prepare is in flight.  A view
    message is acted on only for a view already promised durably, and, in the
    log view the replica already has, only if it reaches the replica's own
    head.  A repair window is used only inside that log view.
   */
  predicate Guarded(p: Params, s: Cluster, step: Step)
    requires ValidParams(p) && Enabled(p, s, step)
  {
    var r := s.rs[step.i];
    match step
    case Acknowledge(i, op) => forall k :: k in r.dirty ==> k > op
    case PersistView(i) => r.dirty == {}
    case AcceptView(i, view, nonce, head, commit, a) =>
      view == r.durableView && (view == r.logView && !r.faulty ==> |head| >= |r.head|)
    case AcceptWindow(i, view, nonce, head, commit) =>
      view == r.logView && !r.faulty && Min(commit, r.commitMin + p.pipelineMax) >= |r.head|
    case _ => true
  }

  ghost predicate GuardedRun(p: Params, s: Cluster, steps: seq<Step>, q: Cluster)
    requires ValidParams(p)
    decreases |steps|
  {
    if steps == [] then s == q
    else Enabled(p, s, steps[0]) && Guarded(p, s, steps[0]) && GuardedRun(p, Apply(p, s, steps[0]), steps[1..], q)
  }
}
