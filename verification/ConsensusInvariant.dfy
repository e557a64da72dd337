/** The inductive invariant behind agreement. */
module ConsensusInvariant {
  import opened Chains
  import opened Quorums
  import opened Selection
  import opened Consensus

  // ---- what may have been, or may still be, committed ----------------------

  /** Replica `q` acknowledged `h`, or a chain through it, in view `w`. */
  ghost predicate Acked(s: Cluster, w: nat, q: nat, h: Chain) {
    exists c :: PrepareOK(w, q, c) in s.msgs && h <= c
  }

  ghost function Ackers(p: Params, s: Cluster, w: nat, h: Chain): (r: set<nat>) {
    set q: nat | q in Members(p.n) && Acked(s, w, q, h)
  }

  /** Replicas that acknowledged `h` in `w` or have promised nothing above `w` yet. */
  ghost function Support(p: Params, s: Cluster, w: nat, h: Chain): (r: set<nat>)
  {
    set q: nat | q in Members(p.n) && (Acked(s, w, q, h) || (q < |s.rs| && s.rs[q].durableView <= w))
  }

  ghost predicate InLog(s: Cluster, w: nat, h: Chain) {
    w in s.logs && h <= s.logs[w]
  }

  /** A replication quorum acknowledged `h` in view `u`. */
  ghost predicate Chosen(p: Params, s: Cluster, u: nat, h: Chain) {
    InLog(s, u, h) && |Ackers(p, s, u, h)| >= p.replication
  }

  ghost predicate ChosenBy(p: Params, s: Cluster, v: nat, h: Chain) {
    h == [] || exists u: nat :: u <= v && Chosen(p, s, u, h)
  }

  ghost predicate AnyChosen(p: Params, s: Cluster, h: Chain) {
    h == [] || exists u: nat :: Chosen(p, s, u, h)
  }

  /** `h` was, or may yet be, acknowledged in view `w` by a replication quorum. */
  ghost predicate Choosable(p: Params, s: Cluster, w: nat, h: Chain)
  {
    InLog(s, w, h) && |Support(p, s, w, h)| >= p.replication
  }

  // ---- logs and selections ---------------------------------------------------

  /** Every prepare is in the log of the view it was created in. */
  ghost predicate Known(s: Cluster, c: Chain) {
    c == [] || InLog(s, ViewOf(c), c)
  }

  ghost predicate Covers(p: Params, s: Cluster, v: nat, t: Chain)
  {
    forall w: nat, h: Chain :: w < v && Choosable(p, s, w, h) ==> h <= t
  }

  ghost function Promised(p: Params, s: Cluster, v: nat): (r: set<nat>)
  {
    set q: nat | q in Members(p.n) && q < |s.rs| && s.rs[q].durableView >= v
  }

  ghost predicate Sound(p: Params, s: Cluster, v: nat, t: Chain)
  {
    && Covers(p, s, v, t) && |Promised(p, s, v)| >= p.viewChange
    && Known(s, t) && ViewOf(t) <= v
  }

  ghost predicate EntryOK(p: Params, s: Cluster, c: Chain, i: nat)
    requires i < |c|
  {
    && c[i].view <= ViewOf(c) && Known(s, c[..i + 1]) && (i > 0 ==> c[i - 1].view <= c[i].view)
    && c[i].commit <= i && i + 1 - c[i].commit <= p.pipelineMax
    && ChosenBy(p, s, c[i].view, c[..c[i].commit])
  }

  ghost predicate LogOK(p: Params, s: Cluster, v: nat)
  {
    && v in s.logs && v in s.canon && s.canon[v] <= s.logs[v] && ViewOf(s.logs[v]) <= v
    && (forall i :: |s.canon[v]| <= i < |s.logs[v]| ==> s.logs[v][i].view == v)
    && (forall i: nat :: i < |s.logs[v]| ==> EntryOK(p, s, s.logs[v], i))
    && Sound(p, s, v, s.canon[v])
    && Primary(p, v) < |s.rs| && s.rs[Primary(p, v)].logView >= v
  }

  ghost predicate InvLogs(p: Params, s: Cluster)
  {
    && 0 in s.logs && s.logs.Keys == s.canon.Keys
    && (forall v :: v in s.logs ==> LogOK(p, s, v))
    && (forall v, t :: (v, t) in s.selections ==> Sound(p, s, v, t))
  }

  // ---- messages ----------------------------------------------------------------

  ghost predicate Source(s: Cluster, v: nat, c: Chain) {
    InLog(s, v, c) || exists t :: (v, t) in s.selections && c <= t
  }

  /** `c` is in the log of view `l`, or in what a later view up to `d` was repaired towards. */
  ghost predicate Legit(s: Cluster, l: nat, d: nat, c: Chain) {
    InLog(s, l, c) || exists v: nat :: l < v <= d && Source(s, v, c)
  }

  /** What replica `q` owes a later view, having reached log view `l`. */
  ghost predicate Owes(p: Params, s: Cluster, q: nat, l: nat, w: nat, h: Chain)
  {
    Choosable(p, s, w, h) && (w < l || (w == l && Acked(s, w, q, h)))
  }

  ghost predicate OwedWithin(p: Params, s: Cluster, q: nat, l: nat, t: Chain)
  {
    forall w: nat, h: Chain :: Owes(p, s, q, l, w, h) ==> h <= t
  }

  /** Nothing owed is nacked: every nacked op lies above it. */
  ghost predicate OwedUnnacked(p: Params, s: Cluster, q: nat, j: Join)
  {
    forall w: nat, h: Chain, i: nat :: Owes(p, s, q, j.logView, w, h) && i < |j.nack| && j.nack[i] ==> j.head > |h| + i
  }

  ghost predicate AcksBounded(s: Cluster, q: nat, v: nat, l: nat) {
    forall w: nat, c: Chain :: PrepareOK(w, q, c) in s.msgs && w < v ==> w <= l
  }

  ghost predicate JoinOK(p: Params, s: Cluster, v: nat, q: nat, j: Join)
  {
    && q < p.n && ValidJoin(j, p.pipelineMax) && j.headers[0].Some?
    && q < |s.rs| && s.rs[q].durableView >= v && j.logView < v && j.logView in s.logs
    && var h := j.headers[0].value;
       && |h| == j.head && Known(s, h) && Legit(s, j.logView, v, h)
       && (forall i: nat :: i < |j.headers| ==> j.headers[i] == Some(h[..j.head - i]))
       && ChosenBy(p, s, v, h[..j.commit])
       && (|j.headers| == p.pipelineMax + 1 || j.head - (|j.headers| - 1) == j.checkpoint)
       && AcksBounded(s, q, v, j.logView)
       && OwedWithin(p, s, q, j.logView, h)
       && OwedUnnacked(p, s, q, j)
  }

  ghost predicate MessageOK(p: Params, s: Cluster, m: Message)
  {
    match m
    case Prepare(c) => c != [] && Known(s, c)
    case PrepareOK(w, q, c) => q < p.n && q < |s.rs| && w in s.logs && w <= s.rs[q].logView && Known(s, c)
    case Commit(v, c) => ChosenBy(p, s, v, c)
    case JoinView(v, q, j) => JoinOK(p, s, v, q, j)
    case GetView(n) => n != 0
    case View(v, n, t, c) =>
      && v in s.logs && v in s.canon && s.canon[v] <= t <= s.logs[v]
      && c <= |t| && ChosenBy(p, s, v, t[..c])
      && (n != 0 ==> GetView(n) in s.msgs)
  }

  ghost predicate InvMessages(p: Params, s: Cluster)
  {
    forall m :: m in s.msgs ==> MessageOK(p, s, m)
  }

  // ---- replicas ------------------------------------------------------------------

  predicate Live(r: Replica) {
    r.repair.NoRepair? && !r.faulty
  }

  /** Memory still describes the log the journal was recovered with. */
  predicate Intact(r: Replica) {
    !r.faulty && (r.repair.Repair? ==> !r.repair.rebuilt)
  }

  /** The slot holds `c`, unless it has been damaged. */
  predicate SlotHas(r: Replica, op: nat, c: Chain) {
    op in r.disk && (r.disk[op] == Good(c) || r.disk[op] == Bad)
  }

  /** Slots from the durable commit bound up to `|c|`, above the checkpoint, hold `c`. */
  predicate Stored(r: Replica, c: Chain, upTo: nat, except: set<nat>) {
    forall op: nat :: |r.checkpoint| < op <= upTo && op <= |c| && op >= r.durableCommit && op !in except ==>
      SlotHas(r, op, c[..op])
  }

  /** No entry from index `from` on is older than view `l`. */
  predicate Recent(c: Chain, from: nat, l: nat) {
    forall k: nat :: from <= k < |c| ==> c[k].view >= l
  }

  predicate Above(ops: set<nat>, n: nat) {
    forall op :: op in ops ==> op > n
  }

  /** Recovery would keep `c`. */
  predicate Durable(r: Replica, c: Chain) {
    c <= r.checkpoint ||
    (r.checkpoint <= c && Stored(r, c, |c|, {}) && Recent(c, Max(r.durableHead, |r.checkpoint|), r.logView))
  }

  /** A chosen header at op `n` that the replica's own log cannot contradict. */
  ghost predicate CommitKnown(p: Params, s: Cluster, r: Replica, n: nat) {
    exists k :: |k| == n && KnownBy(p, s, r, k)
  }

  ghost predicate KnownBy(p: Params, s: Cluster, r: Replica, k: Chain) {
    || ChosenBy(p, s, r.logView, k)
    || (&& ChosenBy(p, s, r.durableView, k) && |k| !in r.dirty
        && (k <= r.checkpoint || SlotHas(r, |k|, k))
        && (Live(r) ==> k <= r.head))
  }

  ghost predicate SlotOK(s: Cluster, r: Replica, op: nat, c: Chain) {
    && |c| == op && Known(s, c)
    && (op > |r.checkpoint| && op >= r.durableCommit && !Obsolete(op, c, r.durableHead, r.logView) ==>
          Legit(s, r.logView, r.durableView, c))
  }

  ghost predicate DiskOK(s: Cluster, r: Replica) {
    forall op :: op in r.disk && r.disk[op].Good? ==> SlotOK(s, r, op, r.disk[op].chain)
  }

  ghost predicate OwedDurable(p: Params, s: Cluster, i: nat, r: Replica)
  {
    forall w: nat, h: Chain :: Owes(p, s, i, r.logView, w, h) ==> Durable(r, h)
  }

  ghost predicate OwedClean(p: Params, s: Cluster, i: nat, r: Replica)
  {
    forall w: nat, h: Chain :: Owes(p, s, i, r.logView, w, h) ==> h <= r.head && Above(r.dirty, |h|)
  }

  ghost predicate LiveOK(p: Params, s: Cluster, r: Replica) {
    && Recent(r.head, Max(r.durableHead, |r.checkpoint|), r.logView)
    && CommitKnown(p, s, r, r.commitMax)
    && ChosenBy(p, s, r.durableView, r.head[..Min(r.commitMin, |r.head|)])
  }

  ghost predicate PrimaryOK(p: Params, s: Cluster, r: Replica) {
    && r.view in s.logs && r.head == s.logs[r.view] && r.commitMax <= |r.head|
    && ChosenBy(p, s, r.view, r.head[..r.commitMax])
  }

  /** A view message answering the current request was built after everything this replica owes. */
  ghost predicate NonceOK(p: Params, s: Cluster, i: nat, r: Replica)
  {
    && GetView(r.nonce) in s.msgs
    && (r.faulty ==> forall t, c :: View(r.logView, r.nonce, t, c) in s.msgs ==> OwedWithin(p, s, i, r.logView, t))
  }

  ghost predicate BasicOK(p: Params, s: Cluster, i: nat, r: Replica)
  {
    && r.logView in s.logs && r.logView <= r.durableView <= r.view
    && Known(s, r.head) && r.checkpoint <= r.head && ChosenBy(p, s, r.durableView, r.checkpoint)
    && |r.checkpoint| <= r.commitMin <= |r.head| && r.commitMin <= r.commitMax
    && |r.checkpoint| <= r.durableCommit <= r.commitMax
    && (forall op :: op in r.dirty ==> 1 <= op <= |r.head|)
    && (r.faulty ==> r.status == RecoveringHead && r.dirty == {})
    && (r.status == Normal ==> Live(r) && r.view == r.logView)
    && (r.status == ViewChange ==> Live(r) && r.view > r.logView)
    && (r.status == RecoveringHead && r.repair.NoRepair? ==> r.view == r.durableView)
    && (r.status == Normal && Primary(p, r.view) == i ==> PrimaryOK(p, s, r))
  }

  ghost predicate RepairOK(p: Params, s: Cluster, i: nat, r: Replica)
  {
    r.repair.Repair? &&
    var v := r.repair.view;
    var t := r.repair.target;
    var a := r.repair.ancestor;
    && r.status == RecoveringHead && r.durableView == r.view == v
    && a <= |t| && r.commitMin <= r.repair.commit <= |t| && r.repair.commit <= r.commitMax
    && Known(s, t) && r.checkpoint <= t && ChosenBy(p, s, v, t[..r.repair.commit])
    && (exists k :: |k| == r.commitMax && ChosenBy(p, s, v, k))
    && (r.commitMax == r.repair.commit || (v == r.logView && |t| == r.repair.commit))
    && (if Primary(p, v) == i then v > r.logView && (v, t) in s.selections
        else v in s.logs && v in s.canon && t <= s.logs[v] && (v > r.logView ==> s.canon[v] <= t))
    && OwedWithin(p, s, i, r.logView, t)
    && (if r.repair.rebuilt then r.head == t && r.dirty == {} && Stored(r, t, |t|, {})
        else
          && Stored(r, t, a, r.dirty)
          && (r.dirty != {} ==> a <= |r.head| && r.head[..a] == t[..a]))
  }

  ghost predicate ReplicaOK(p: Params, s: Cluster, i: nat, r: Replica)
  {
    && BasicOK(p, s, i, r)
    && DiskOK(s, r)
    && CommitKnown(p, s, r, r.durableCommit)
    && OwedDurable(p, s, i, r)
    && (Intact(r) ==> Legit(s, r.logView, r.durableView, r.head) && OwedClean(p, s, i, r))
    && (Live(r) ==> LiveOK(p, s, r))
    && (r.repair.NoRepair? ==> Stored(r, r.head, |r.head|, r.dirty))
    && (r.repair.Repair? ==> RepairOK(p, s, i, r))
    && (r.nonce != 0 ==> NonceOK(p, s, i, r))
  }

  ghost predicate Inv(p: Params, s: Cluster)
  {
    && |s.rs| == p.n
    && InvLogs(p, s)
    && InvMessages(p, s)
    && (forall i: nat :: i < p.n ==> ReplicaOK(p, s, i, s.rs[i]))
    && (forall d :: d in s.decided ==> AnyChosen(p, s, d))
  }
}
