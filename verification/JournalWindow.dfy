/**
  The window of ops a replica may hold above its checkpoint
  (replication/config.go, replication/wal_recovery.go,
  replication/replica_normal.go, replication/replica_checkpoint.go).
  Arithmetic is 64-bit with explicit overflow.
 */
module JournalWindow {
  import opened Chains

  const U64 := 0x1_0000_0000_0000_0000

  datatype Layout = Layout(pipelineMax: nat, journalSlots: nat, compactionOps: nat)

  function CheckedAdd(a: nat, b: nat): (r: Option<nat>) {
    if a + b < U64 then Some(a + b) else None
  }

  function CheckedRoundUp(a: nat, m: nat): (r: Option<nat>) {
    if m == 0 then None
    else if a % m == 0 then Some(a)
    else CheckedAdd(a, m - a % m)
  }

  function CheckpointInterval(c: Layout): (r: Option<nat>) {
    match CheckedRoundUp(2 * c.pipelineMax, c.compactionOps)
    case None => None
    case Some(rounded) =>
      match CheckedAdd(c.compactionOps, rounded)
      case None => None
      case Some(less) => if c.journalSlots <= less then None else Some(c.journalSlots - less)
  }

  /** The clauses of `ClusterConfig.Validate` that concern the window. */
  predicate Valid(c: Layout) {
    && 1 <= c.pipelineMax <= 15 && c.pipelineMax < c.journalSlots < U64 && 0 < c.compactionOps < U64
    && CheckpointInterval(c).Some? && CheckpointInterval(c).value % c.compactionOps == 0
  }

  /** `checkpointAfter` */
  function Next(c: Layout, checkpoint: nat): (r: Option<nat>) {
    match CheckpointInterval(c)
    case None => None
    case Some(i) => if i == 0 then None else if checkpoint == 0 then Some(i - 1) else CheckedAdd(checkpoint, i)
  }

  /** `checkpointTrigger` */
  function Trigger(c: Layout, checkpoint: nat): (r: Option<nat>) {
    CheckedAdd(checkpoint, c.compactionOps)
  }

  /** `prepareMaximum` */
  function PrepareMaximum(c: Layout, checkpoint: nat): (r: Option<nat>) {
    match Next(c, checkpoint)
    case None => None
    case Some(first) =>
      match CheckedAdd(first, c.compactionOps)
      case None => None
      case Some(trigger) => CheckedAdd(trigger, 2 * c.pipelineMax)
  }

  /**
    The highest op `canAcknowledge` allows: measured from the next checkpoint,
    or from the current one while a synced range is still being repaired.
   */
  function AcknowledgeBound(c: Layout, checkpoint: nat, repairing: bool): (r: Option<nat>) {
    match Next(c, checkpoint)
    case None => None
    case Some(next) =>
      match Trigger(c, if repairing then checkpoint else next)
      case None => None
      case Some(trigger) => CheckedAdd(trigger, c.pipelineMax)
  }

  function SlotOf(c: Layout, op: nat): (r: nat)
    requires c.journalSlots > 0
  {
    op % c.journalSlots
  }

  predicate InWindow(c: Layout, checkpoint: nat, op: nat) {
    PrepareMaximum(c, checkpoint).Some? && checkpoint < op <= PrepareMaximum(c, checkpoint).value
  }

  // ---- properties ---------------------------------------------------------------------

  /** The window is never longer than the journal. */
  lemma WindowFits(c: Layout, checkpoint: nat)
    requires Valid(c) && PrepareMaximum(c, checkpoint).Some?
    ensures checkpoint <= PrepareMaximum(c, checkpoint).value <= checkpoint + c.journalSlots
  {
    var rounded := CheckedRoundUp(2 * c.pipelineMax, c.compactionOps).value;
    assert rounded >= 2 * c.pipelineMax;
  }

  /** Whatever a replica may acknowledge lies in the window, with a pipeline to spare. */
  lemma AcknowledgedInWindow(c: Layout, checkpoint: nat, repairing: bool, op: nat)
    requires Valid(c) && PrepareMaximum(c, checkpoint).Some?
    ensures AcknowledgeBound(c, checkpoint, repairing).Some?
    ensures op <= AcknowledgeBound(c, checkpoint, repairing).value ==>
              op + c.pipelineMax <= PrepareMaximum(c, checkpoint).value
  {
    var next := Next(c, checkpoint).value;
    assert next >= checkpoint;
  }

  /** A later checkpoint never lowers the window. */
  lemma WindowGrows(c: Layout, earlier: nat, later: nat)
    requires Valid(c) && earlier <= later && PrepareMaximum(c, later).Some?
    ensures PrepareMaximum(c, earlier).Some?
    ensures PrepareMaximum(c, earlier).value <= PrepareMaximum(c, later).value
  {
  }

  lemma MultipleApart(n: nat, a: nat, b: nat)
    requires n > 0 && a < b < a + n
    ensures a % n != b % n
  {
    var q, r := a / n, b / n;
    assert b - a == n * r - n * q + (b % n - a % n);
    if r > q {
      NatProduct(n, r, q + 1);
    } else {
      NatProduct(n, q, r);
    }
  }

  lemma NatProduct(n: nat, a: nat, b: nat)
    requires a >= b
    ensures n * a >= n * b
  {
    assert n * a == n * b + n * (a - b);
  }

  /** Two ops of one window never share a slot, so an append there overwrites no other op above the checkpoint. */
  lemma WindowDistinctSlots(c: Layout, checkpoint: nat, a: nat, b: nat)
    requires Valid(c) && InWindow(c, checkpoint, a) && InWindow(c, checkpoint, b)
    ensures SlotOf(c, a) == SlotOf(c, b) <==> a == b
  {
    WindowFits(c, checkpoint);
    if a < b { MultipleApart(c.journalSlots, a, b); }
    if b < a { MultipleApart(c.journalSlots, b, a); }
  }

  /**
    An op acknowledged under one checkpoint stays in the window of every later
    checkpoint below it, so the future-op rule of recovery never discards it.
   */
  lemma AcknowledgedStaysInWindow(c: Layout, earlier: nat, later: nat, repairing: bool, op: nat)
    requires Valid(c) && earlier <= later < op && PrepareMaximum(c, later).Some?
    requires PrepareMaximum(c, earlier).Some?
    requires op <= AcknowledgeBound(c, earlier, repairing).value
    ensures InWindow(c, later, op)
  {
    AcknowledgedInWindow(c, earlier, repairing, op);
    WindowGrows(c, earlier, later);
  }

  /** What rounding two pipelines up to whole compactions leaves unused. */
  function Slack(c: Layout): (r: nat)
    requires c.compactionOps > 0
    ensures r < c.compactionOps && (2 * c.pipelineMax + r) % c.compactionOps == 0
  {
    var over := 2 * c.pipelineMax % c.compactionOps;
    if over == 0 then 0 else RoundsUp(2 * c.pipelineMax, c.compactionOps); c.compactionOps - over
  }

  lemma RoundsUp(a: nat, m: nat)
    requires m > 0 && a % m != 0
    ensures (a + (m - a % m)) % m == 0
  {
    var k := a / m + 1;
    assert a == (a / m) * m + a % m;
    assert a + (m - a % m) == k * m;
    WholeMultiple(k, m);
  }

  lemma WholeMultiple(k: nat, m: nat)
    requires m > 0
    ensures k * m % m == 0
  {
    var q, r := k * m / m, k * m % m;
    assert k * m == q * m + r;
    assert (k - q) * m == r;
    var apart := if k > q then k - q else q - k;
    if apart > 0 { NatProduct(m, apart, 1); }
  }

  /**
    The window, the acknowledgements and the checkpoints, from the configuration:
    the window uses the whole journal but for the slack, and one op less above
    the first checkpoint; a replica acknowledges up to a pipeline below its end,
    or, while it repairs, up to a pipeline above its own trigger; and checkpoints
    end whole compactions.
   */
  lemma WindowByFields(c: Layout, checkpoint: nat)
    requires Valid(c) && PrepareMaximum(c, checkpoint).Some?
    ensures var last := PrepareMaximum(c, checkpoint).value;
      && last == checkpoint + c.journalSlots - Slack(c) - (if checkpoint == 0 then 1 else 0)
      && AcknowledgeBound(c, checkpoint, false) == Some(last - c.pipelineMax)
      && AcknowledgeBound(c, checkpoint, true) == Some(checkpoint + c.compactionOps + c.pipelineMax)
      && Trigger(c, checkpoint) == Some(checkpoint + c.compactionOps)
      && Next(c, checkpoint) == Some(last - 2 * c.pipelineMax - c.compactionOps)
      && last - 2 * c.pipelineMax - c.compactionOps >= checkpoint
      && (checkpoint == 0 || (checkpoint + 1) % c.compactionOps == 0 ==>
            (last - 2 * c.pipelineMax - c.compactionOps + 1) % c.compactionOps == 0)
  {
    var i := CheckpointInterval(c).value;
    assert i == c.journalSlots - c.compactionOps - (2 * c.pipelineMax + Slack(c));
    assert Next(c, checkpoint).value == if checkpoint == 0 then i - 1 else checkpoint + i;
    if checkpoint != 0 && (checkpoint + 1) % c.compactionOps == 0 {
      Multiples(checkpoint + 1, i, c.compactionOps);
    }
  }

  lemma Multiples(a: nat, b: nat, m: nat)
    requires m > 0 && a % m == 0 && b % m == 0
    ensures (a + b) % m == 0
  {
    var x, y := a / m, b / m;
    assert a == x * m && b == y * m;
    assert a + b == (x + y) * m;
    WholeMultiple(x + y, m);
  }

  /** The pipeline has 1 to 15 places, and the journal has room for a checkpoint of whole compactions. */
  lemma ValidByFields(c: Layout)
    ensures Valid(c) <==>
      && 1 <= c.pipelineMax <= 15 && c.journalSlots <= 0xffff_ffff_ffff_ffff && c.compactionOps > 0
      && c.journalSlots > c.compactionOps + 2 * c.pipelineMax + Slack(c)
      && (c.journalSlots - c.compactionOps - 2 * c.pipelineMax - Slack(c)) % c.compactionOps == 0
  {
  }

  /** The window is defined exactly when it fits in 64 bits. */
  lemma WindowDefined(c: Layout, checkpoint: nat)
    requires Valid(c) && checkpoint < U64
    ensures var i := CheckpointInterval(c).value;
      PrepareMaximum(c, checkpoint).Some? <==>
        (if checkpoint == 0 then i - 1 else checkpoint + i) + c.compactionOps + 2 * c.pipelineMax < U64
  {
  }
}
