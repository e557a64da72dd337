/**
  Every run of the allocator: reservations, publications, releases,
  checkpoints that are prepared, persisted, completed or aborted, crashes and
  reopenings.
 */
module AllocatorRuns {
  import opened Chains
  import opened Allocator

  /** What the superblock refers to. */
  datatype Disk = Disk(count: nat, acquired: set<nat>, released: set<nat>)

  datatype Machine = Machine(sets: Sets, disk: Disk, candidate: Option<Candidate>, persisted: bool)

  datatype Step =
    | Reserve(i: nat)
    | Publish(i: nat)
    | Forfeit(i: nat)
    | Release(i: nat)
    | Cancel(i: nat)
    | Prepare(addresses: seq<nat>, count: nat)
    | Persist
    | Complete(reachable: set<nat>)
    | Abort
    | Reopen

  /** The allocator once exactly the blocks `a` are reserved and the storage has `count` blocks. */
  function HoldingSet(s: Sets, a: set<nat>, count: nat): (q: Sets) {
    s.(count := count, reserved := a, reservedReleased := a * s.released, released := s.released - a)
  }

  function Holding(s: Sets, addresses: seq<nat>, count: nat): (q: Sets) {
    HoldingSet(s, Elements(addresses), count)
  }

  /** What `PrepareCheckpoint` has reserved when it succeeds. */
  predicate Holdable(s: Sets, addresses: seq<nat>, count: nat) {
    && s.count <= count
    && forall k :: 0 <= k < |addresses| ==> addresses[k] < count && (addresses[k] >= s.count || Available(s, addresses[k]))
  }

  predicate IsTrailer(m: Machine, i: nat) {
    m.candidate.Some? && i in m.candidate.value.addresses
  }

  /** A reservation of the checkpoint is not given up by anyone else, and releases are cancelled only between checkpoints. */
  predicate Enabled(m: Machine, step: Step) {
    match step
    case Reserve(i) => Reservable(m.sets, i)
    case Publish(i) => Reserves(m.sets, i)
    case Forfeit(i) => Reserves(m.sets, i) && !IsTrailer(m, i)
    case Release(i) => Releasable(m.sets, i)
    case Cancel(i) => Cancellable(m.sets, i) && !m.sets.active
    case Prepare(addresses, count) => !m.sets.active && m.sets.reserved == {} && Holdable(m.sets, addresses, count)
    case Persist =>
      && m.candidate.Some? && !m.persisted
      && forall k :: 0 <= k < |m.candidate.value.addresses| ==> m.candidate.value.addresses[k] !in m.sets.reserved
    case Complete(reachable) => m.candidate.Some? && m.persisted && Completable(m.sets, m.candidate.value, reachable)
    case Abort => m.candidate.Some? && !m.persisted
    case Reopen => true
  }

  function Apply(m: Machine, step: Step): (q: Machine)
    requires Enabled(m, step)
  {
    match step
    case Reserve(i) => m.(sets := Reserved(m.sets, i))
    case Publish(i) => m.(sets := Published(m.sets, i))
    case Forfeit(i) => m.(sets := Forfeited(m.sets, i))
    case Release(i) => m.(sets := m.sets.(pending := m.sets.pending + {i}))
    case Cancel(i) => m.(sets := m.sets.(pending := m.sets.pending - {i}))
    case Prepare(addresses, count) =>
      var held := Holding(m.sets, addresses, count);
      m.(sets := Prepared(held), candidate := Some(CandidateOf(held, addresses)), persisted := false)
    case Persist => m.(disk := Disk(m.candidate.value.count, m.candidate.value.acquired, m.candidate.value.released), persisted := true)
    case Complete(_) => m.(sets := Completed(m.sets, m.candidate.value), candidate := None, persisted := false)
    case Abort => m.(sets := Aborted(m.sets, m.candidate.value.addresses), candidate := None)
    case Reopen => Machine(Opened(m.sets.maximum, m.disk.count, m.disk.acquired, m.disk.released), m.disk, None, false)
  }

  ghost predicate Run(m: Machine, steps: seq<Step>, q: Machine)
    decreases |steps|
  {
    if steps == [] then m == q
    else Enabled(m, steps[0]) && Run(Apply(m, steps[0]), steps[1..], q)
  }

  /** An empty grid of blocks. */
  function Fresh(maximum: nat): (m: Machine) {
    Machine(Opened(maximum, 0, {}, {}), Disk(0, {}, {}), None, false)
  }

  /** Blocks the durable checkpoint needs. */
  function Durable(m: Machine): (r: set<nat>) {
    Live(m.disk.acquired, m.disk.released)
  }

  /** Blocks the checkpoint in flight will need. */
  function InFlight(m: Machine): (r: set<nat>) {
    if m.candidate.Some? then Live(m.candidate.value.acquired, m.candidate.value.released) else {}
  }

  // ---- the invariant -------------------------------------------------------------------------

  predicate Kept(s: Sets, i: nat) {
    i in s.acquired && i !in s.released && i !in s.reserved
  }

  predicate DiskOk(d: Disk) {
    d.released <= d.acquired && forall i :: i in d.acquired ==> i < d.count
  }

  predicate CandidateOk(m: Machine, c: Candidate) {
    && m.sets.active && c.generation == m.sets.generation && c.count <= m.sets.count
    && DiskOk(Disk(c.count, c.acquired, c.released)) && m.sets.checkpoint <= c.released
    && (forall k :: 0 <= k < |c.addresses| ==>
          c.addresses[k] < m.sets.count && c.addresses[k] in c.acquired && c.addresses[k] !in c.released)
    && (forall i :: i in c.acquired && i !in c.released ==> Kept(m.sets, i) || (i in m.sets.reserved && i in c.addresses))
    && (m.persisted ==> m.disk == Disk(c.count, c.acquired, c.released))
    && (!m.persisted ==> forall i :: i in c.addresses ==> i !in Durable(m))
  }

  ghost predicate Inv(m: Machine) {
    && Sound(m.sets) && DiskOk(m.disk)
    && (forall i :: i in m.disk.acquired && i !in m.disk.released ==> Kept(m.sets, i))
    && (m.candidate.Some? <==> m.sets.active) && (m.candidate.None? ==> !m.persisted)
    && (m.candidate.Some? ==> CandidateOk(m, m.candidate.value))
  }

  lemma ReserveKeeps(m: Machine, i: nat)
    requires Inv(m) && Enabled(m, Reserve(i))
    ensures Inv(Apply(m, Reserve(i)))
    ensures i !in Durable(m) && i !in InFlight(m)
  {
    ReserveSound(m.sets, i);
  }

  lemma PublishKeeps(m: Machine, i: nat)
    requires Inv(m) && Enabled(m, Publish(i))
    ensures Inv(Apply(m, Publish(i)))
  {
    PublishSound(m.sets, i);
  }

  lemma ForfeitKeeps(m: Machine, i: nat)
    requires Inv(m) && Enabled(m, Forfeit(i))
    ensures Inv(Apply(m, Forfeit(i)))
  {
    ForfeitSound(m.sets, i);
  }

  lemma PendingKeeps(m: Machine, step: Step)
    requires Inv(m) && (step.Release? || step.Cancel?) && Enabled(m, step)
    ensures Inv(Apply(m, step))
  {
  }

  lemma HoldingSound(s: Sets, addresses: seq<nat>, count: nat)
    requires Sound(s) && s.reserved == {} && Holdable(s, addresses, count) && !s.active
    ensures Sound(Prepared(Holding(s, addresses, count)))
    ensures forall i :: i in addresses ==> i !in s.pending && (i in s.acquired ==> i in s.released)
  {
  }

  lemma PrepareKeeps(m: Machine, addresses: seq<nat>, count: nat)
    requires Inv(m) && Enabled(m, Prepare(addresses, count))
    ensures Inv(Apply(m, Prepare(addresses, count)))
  {
    HoldingSound(m.sets, addresses, count);
    var held := Holding(m.sets, addresses, count);
    var c := CandidateOf(held, addresses);
    var q := Apply(m, Prepare(addresses, count));
    assert forall i :: i in Elements(addresses) <==> i in addresses;
    forall i | i in c.acquired && i !in c.released
      ensures Kept(q.sets, i) || (i in q.sets.reserved && i in c.addresses)
    {
    }
  }

  lemma PersistKeeps(m: Machine)
    requires Inv(m) && Enabled(m, Persist)
    ensures Inv(Apply(m, Persist))
  {
  }

  lemma CompleteKeeps(m: Machine, reachable: set<nat>)
    requires Inv(m) && Enabled(m, Complete(reachable))
    ensures Inv(Apply(m, Complete(reachable)))
  {
    CompleteSound(m.sets, m.candidate.value);
  }

  lemma ReopenKeeps(m: Machine)
    requires Inv(m)
    ensures Inv(Apply(m, Reopen))
  {
  }

  lemma {:induction false} AbortKept(s: Sets, addresses: seq<nat>, k: nat, i: nat)
    requires k <= |addresses| && Kept(s, i)
    ensures Kept(AbortedUpTo(s, addresses, k), i)
  {
    if k > 0 { AbortKept(s, addresses, k - 1, i); }
  }

  lemma AbortKeeps(m: Machine)
    requires Inv(m) && Enabled(m, Abort)
    ensures Inv(Apply(m, Abort))
  {
    var a := m.candidate.value.addresses;
    AbortSound(m.sets, a, |a|);
    forall i | i in m.disk.acquired && i !in m.disk.released
      ensures Kept(Apply(m, Abort).sets, i)
    {
      AbortKept(m.sets, a, |a|, i);
    }
  }

  lemma StepKeeps(m: Machine, step: Step)
    requires Inv(m) && Enabled(m, step)
    ensures Inv(Apply(m, step))
  {
    hide Inv, Apply, Enabled;
    match step
    case Reserve(i) => ReserveKeeps(m, i);
    case Publish(i) => PublishKeeps(m, i);
    case Forfeit(i) => ForfeitKeeps(m, i);
    case Release(_) => PendingKeeps(m, step);
    case Cancel(_) => PendingKeeps(m, step);
    case Prepare(a, n) => PrepareKeeps(m, a, n);
    case Persist => PersistKeeps(m);
    case Complete(r) => CompleteKeeps(m, r);
    case Abort => AbortKeeps(m);
    case Reopen => ReopenKeeps(m);
  }

  lemma {:induction false} RunKeeps(m: Machine, steps: seq<Step>, q: Machine)
    requires Inv(m) && Run(m, steps, q)
    ensures Inv(q)
    decreases |steps|
  {
    hide Inv, Apply, Enabled;
    if steps != [] {
      StepKeeps(m, steps[0]);
      RunKeeps(Apply(m, steps[0]), steps[1..], q);
    }
  }

  /**
    In every run, `Reserve` never returns a block that the durable checkpoint
    still needs, nor one that the checkpoint being written needs.
   */
  lemma ReserveNeverTakesLive(maximum: nat, steps: seq<Step>, m: Machine, i: nat)
    requires Run(Fresh(maximum), steps, m) && Enabled(m, Reserve(i))
    ensures i !in Durable(m) && i !in InFlight(m)
  {
    RunKeeps(Fresh(maximum), steps, m);
    ReserveKeeps(m, i);
  }
}
