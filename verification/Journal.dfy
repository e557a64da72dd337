/**
  The write-ahead log (replication/wal.go, replication/wal_recovery.go).

  Every op owns a journal slot with two copies of its header: one in the header
  ring, one at the front of the stored prepare.  An append has four physical
  effects: write the prepare, sync, write the sector of the header ring, sync.
  A write that has not been synced is kept, lost or torn by a crash, and any
  copy may become undecodable at any time.
 */
module Journal {
  import opened Chains
  import JournalWindow

  datatype Header = Header(op: nat, view: nat, parent: int, checksum: int, body: int)

  /** What recovery reads at one place: garbage, the empty marker of the slot, or a prepare header. */
  datatype Copy = Invalid | Reserved | Ordinary(header: Header)

  /** The head selected when `logView` was durably installed. */
  datatype Installed = Installed(logView: nat, headOp: nat)

  datatype Context = Context(slot: nat, slots: nat, retainedMin: nat, prepareMax: nat, untrustedMax: nat, installed: Installed)

  datatype Decision = Clean | CleanEmpty | LocalRepair | RemoteRepair | Truncate | Fail

  // ---- the classifier -------------------------------------------------------------------

  predicate Impossible(c: Copy, x: Context) {
    c.Ordinary? && (x.slots == 0 || c.header.op % x.slots != x.slot)
  }

  predicate Future(c: Copy, x: Context) {
    c.Ordinary? && c.header.op > x.prepareMax
  }

  predicate Obsolete(c: Copy, i: Installed) {
    c.Ordinary? && c.header.op > i.headOp && c.header.view < i.logView
  }

  predicate Retained(c: Copy, x: Context) {
    c.Ordinary? && x.retainedMin <= c.header.op <= x.prepareMax
  }

  /** `ClassifyWALSlot` */
  function Classify(header: Copy, prepare: Copy, x: Context): (d: Decision) {
    if Impossible(header, x) || Impossible(prepare, x) then Fail
    else if Future(header, x) || Future(prepare, x) then Truncate
    else if Obsolete(header, x.installed) || Obsolete(prepare, x.installed) then
      if header.Invalid? || prepare.Invalid? then RemoteRepair
      else if !(header.Ordinary? && !Obsolete(header, x.installed)) && !(prepare.Ordinary? && !Obsolete(prepare, x.installed))
      then Truncate
      else if Obsolete(header, x.installed) && Retained(prepare, x) then LocalRepair
      else RemoteRepair
    else if header.Ordinary? && header == prepare then Clean
    else if header.Reserved? && prepare.Reserved? then CleanEmpty
    else if header.Reserved? && Retained(prepare, x) then LocalRepair
    else if header.Invalid? && Retained(prepare, x) && prepare.header.op == x.untrustedMax then LocalRepair
    else if header.Ordinary? && Retained(prepare, x) && prepare.header.op > header.header.op then LocalRepair
    else RemoteRepair
  }

  /** The slot kept in memory. */
  datatype Slot = Slot(header: Option<Header>, op: nat, inhabited: bool, dirty: bool, faulty: bool)

  function Empty(i: nat): (s: Slot) { Slot(None, i, false, false, false) }

  /** What recovery installs for a decision; the recovered header always comes from the prepare. */
  function SlotAfter(d: Decision, prepare: Copy, i: nat): (s: Slot) {
    if (d.Clean? || d.LocalRepair?) && prepare.Ordinary?
    then Slot(Some(prepare.header), prepare.header.op, true, false, false)
    else if d.RemoteRepair? then Empty(i).(dirty := true, faulty := true)
    else Empty(i)
  }

  /** What recovery leaves in the header ring, to be rewritten to disk if anything changed. */
  function RingAfter(d: Decision, header: Copy, prepare: Copy): (c: Copy) {
    if d.LocalRepair? then prepare else if d.Truncate? then Reserved else header
  }

  /** `JoinEvidence`: the header, whether it is present, whether the op is nacked. */
  datatype Evidence = Evidence(header: Option<Header>, present: bool, nack: bool)

  function JoinEvidence(s: Slot, op: nat): (e: Evidence) {
    if s.faulty then Evidence(None, false, false)
    else if !s.inhabited || s.op != op || s.header.None? then Evidence(None, false, true)
    else Evidence(s.header, true, s.dirty)
  }

  // ---- what the classifier promises about one slot ---------------------------------------

  /** The copy is one of `hs` or unreadable. */
  predicate HoldsOrLost(c: Copy, hs: set<Header>) {
    c.Invalid? || (c.Ordinary? && c.header in hs)
  }

  predicate Admissible(h: Header, x: Context) {
    && x.slots > 0 && h.op % x.slots == x.slot && x.retainedMin <= h.op <= x.prepareMax
    && !Obsolete(Ordinary(h), x.installed)
  }

  /** What may be in the slot are admissible headers of one op. */
  predicate AllAdmissible(hs: set<Header>, op: nat, x: Context) {
    forall h :: h in hs ==> h.op == op && Admissible(h, x)
  }

  /**
    A slot whose copies are admissible headers of one op or unreadable is
    recovered with one of those headers or reported faulty, never as empty,
    truncated or impossible; and it is recovered exactly when the prepare
    survived and either the ring has the same header or its copy is unreadable
    and nothing in the journal is newer.
   */
  lemma HeldSlotRecovers(header: Copy, prepare: Copy, x: Context, op: nat, hs: set<Header>)
    requires HoldsOrLost(header, hs) && HoldsOrLost(prepare, hs) && AllAdmissible(hs, op, x)
    ensures var d := Classify(header, prepare, x);
      var slot := SlotAfter(d, prepare, x.slot);
      && (d.Clean? || d.LocalRepair? || d.RemoteRepair?)
      && (!slot.faulty <==> prepare.Ordinary? && (header == prepare || (header.Invalid? && op == x.untrustedMax)))
      && (!slot.faulty ==> slot == Slot(Some(prepare.header), op, true, false, false))
      && (slot.faulty ==> !slot.inhabited) && (d.RemoteRepair? <==> slot.faulty)
      && HoldsOrLost(RingAfter(d, header, prepare), hs)
      && !JoinEvidence(slot, op).nack
  {
  }

  /** Recovery never invents an op: whatever it installs is the readable prepare in that slot. */
  lemma RecoveredIsStored(header: Copy, prepare: Copy, x: Context)
    ensures var s := SlotAfter(Classify(header, prepare, x), prepare, x.slot);
      s.inhabited ==> prepare == Ordinary(s.header.value) && s.op == s.header.value.op
                      && s.op % x.slots == x.slot && s.op <= x.prepareMax && !Obsolete(prepare, x.installed)
  {
  }

  // ---- the journal on disk and in memory ---------------------------------------------------

  const HEADERS_PER_SECTOR := 16

  datatype Io = Idle | Appending(header: Header, step: nat) | Recovering

  datatype State = State(
    layout: JournalWindow.Layout,
    headers: seq<Copy>, prepares: seq<Copy>,
    unsyncedHeaders: map<nat, Copy>, unsyncedPrepares: map<nat, Copy>,
    ring: seq<Copy>, slots: seq<Slot>, io: Io,
    checkpoint: nat, installed: Installed,
    // ops whose append completed and which nothing has excluded since
    held: map<nat, Header>,
    // such ops that another append began to replace: the headers their slot may hold
    unsettled: map<nat, set<Header>>)

  datatype Crash = Crash(keptHeaders: set<nat>, keptPrepares: set<nat>, lostHeaders: set<nat>, lostPrepares: set<nat>)

  datatype Step =
    | Begin(header: Header)
    | Advance
    | Damage(slot: nat, ofHeader: bool)
    | Discard(head: nat)
    | InstallView(installed: Installed)
    | TakeCheckpoint(op: nat)
    | CrashAndRecover(crash: Crash)
    | SyncRecovery

  function Slots(s: State): (n: nat) { s.layout.journalSlots }

  predicate Tracked(s: State, op: nat) {
    op in s.held || op in s.unsettled
  }

  /** The headers that the slot of a tracked op may hold. */
  function May(s: State, op: nat): (hs: set<Header>) {
    if op in s.held then {s.held[op]} else if op in s.unsettled then s.unsettled[op] else {}
  }

  predicate SomeObsolete(hs: set<Header>, i: Installed) {
    exists h :: h in hs && Obsolete(Ordinary(h), i)
  }

  /** Beginning to append `h` over a tracked op. */
  function Replacing(s: State, h: Header): (q: State) {
    if !Tracked(s, h.op) || May(s, h.op) == {h} then s
    else if Obsolete(Ordinary(h), s.installed) then s.(held := s.held - {h.op}, unsettled := s.unsettled - {h.op})
    else s.(held := s.held - {h.op}, unsettled := s.unsettled[h.op := May(s, h.op) + {h}])
  }

  predicate Shaped(s: State) {
    && JournalWindow.Valid(s.layout) && JournalWindow.PrepareMaximum(s.layout, s.checkpoint).Some?
    && |s.headers| == |s.prepares| == |s.ring| == |s.slots| == Slots(s)
  }

  /** The platter after a crash: an unsynced write is kept, dropped or torn, and anything may be lost. */
  function AfterCrash(durable: seq<Copy>, unsynced: map<nat, Copy>, kept: set<nat>, lost: set<nat>): (r: seq<Copy>)
    ensures |r| == |durable|
  {
    seq(|durable|, i requires 0 <= i < |durable| =>
      if i in lost then Invalid
      else if i in unsynced && i in kept then unsynced[i]
      else durable[i])
  }

  /** Syncing makes every earlier write durable. */
  function Synced(durable: seq<Copy>, unsynced: map<nat, Copy>): (r: seq<Copy>)
    ensures |r| == |durable|
  {
    seq(|durable|, i requires 0 <= i < |durable| => if i in unsynced then unsynced[i] else durable[i])
  }

  function CopyOp(c: Copy, least: nat): (r: nat) {
    if c.Ordinary? && c.header.op > least then c.header.op else least
  }

  function UntrustedUpTo(headers: seq<Copy>, prepares: seq<Copy>, checkpoint: nat, n: nat): (r: nat)
    requires n <= |headers| == |prepares|
  {
    if n == 0 then checkpoint
    else CopyOp(prepares[n - 1], CopyOp(headers[n - 1], UntrustedUpTo(headers, prepares, checkpoint, n - 1)))
  }

  function ContextAt(s: State, headers: seq<Copy>, prepares: seq<Copy>, i: nat): (x: Context)
    requires Shaped(s) && |headers| == |prepares|
  {
    Context(i, Slots(s), s.checkpoint, JournalWindow.PrepareMaximum(s.layout, s.checkpoint).value,
            UntrustedUpTo(headers, prepares, s.checkpoint, |headers|), s.installed)
  }

  function DecisionAt(s: State, headers: seq<Copy>, prepares: seq<Copy>, i: nat): (d: Decision)
    requires Shaped(s) && i < |headers| == |prepares|
  {
    Classify(headers[i], prepares[i], ContextAt(s, headers, prepares, i))
  }

  predicate Enabled(s: State, step: Step) {
    Shaped(s) &&
    match step
    case Begin(h) =>
      var slot := s.slots[h.op % Slots(s)];
      && s.io.Idle? && JournalWindow.InWindow(s.layout, s.checkpoint, h.op)
      && !(slot.inhabited && slot.op != h.op && slot.op > s.checkpoint)
    case Advance => s.io.Appending? && s.io.step <= 3
    case Damage(i, _) => i < Slots(s)
    case Discard(head) => s.io.Idle?
    case InstallView(_) => !s.io.Recovering?
    case TakeCheckpoint(op) =>
      && s.checkpoint <= op && JournalWindow.PrepareMaximum(s.layout, op).Some?
      && !s.io.Recovering?
    case CrashAndRecover(c) =>
      var headers := AfterCrash(s.headers, s.unsyncedHeaders, c.keptHeaders, c.lostHeaders);
      var prepares := AfterCrash(s.prepares, s.unsyncedPrepares, c.keptPrepares, c.lostPrepares);
      forall i :: 0 <= i < Slots(s) ==> !DecisionAt(s, headers, prepares, i).Fail?
    case SyncRecovery => s.io.Recovering?
  }

  function Apply(s: State, step: Step): (q: State)
    requires Enabled(s, step)
  {
    match step
    case Begin(h) =>
      var i := h.op % Slots(s);
      Replacing(s, h).(slots := s.slots[i := s.slots[i].(header := Some(h), op := h.op, dirty := true)],
                       io := Appending(h, 0))
    case Advance =>
      var h := s.io.header;
      var i := h.op % Slots(s);
      (match s.io.step
       case 0 => s.(unsyncedPrepares := s.unsyncedPrepares[i := Ordinary(h)], io := Appending(h, 1))
       case 1 =>
         s.(headers := Synced(s.headers, s.unsyncedHeaders), prepares := Synced(s.prepares, s.unsyncedPrepares),
            unsyncedHeaders := map[], unsyncedPrepares := map[],
            ring := s.ring[i := Ordinary(h)], io := Appending(h, 2))
       case 2 =>
         var sector := map j | 0 <= j < Slots(s) && j / HEADERS_PER_SECTOR == i / HEADERS_PER_SECTOR :: s.ring[j];
         s.(unsyncedHeaders := s.unsyncedHeaders + sector, io := Appending(h, 3))
       case _ =>
         s.(headers := Synced(s.headers, s.unsyncedHeaders), prepares := Synced(s.prepares, s.unsyncedPrepares),
            unsyncedHeaders := map[], unsyncedPrepares := map[],
            slots := s.slots[i := Slot(Some(h), h.op, true, false, false)], io := Idle,
            held := if Obsolete(Ordinary(h), s.installed) || h.op <= s.checkpoint then s.held - {h.op} else s.held[h.op := h],
            unsettled := s.unsettled - {h.op}))
    case Damage(i, ofHeader) =>
      if ofHeader then s.(headers := s.headers[i := Invalid]) else s.(prepares := s.prepares[i := Invalid])
    case Discard(head) =>
      s.(slots := seq(Slots(s), j requires 0 <= j < Slots(s) =>
           if s.slots[j].inhabited && s.slots[j].op > head then Empty(j) else s.slots[j]),
         ring := seq(Slots(s), j requires 0 <= j < Slots(s) =>
           if s.slots[j].inhabited && s.slots[j].op > head then Reserved else s.ring[j]),
         held := map op | op in s.held && op <= head :: s.held[op],
         unsettled := map op | op in s.unsettled && op <= head :: s.unsettled[op])
    case InstallView(x) =>
      s.(installed := x, held := map op | op in s.held && !Obsolete(Ordinary(s.held[op]), x) :: s.held[op],
         unsettled := map op | op in s.unsettled && !SomeObsolete(s.unsettled[op], x) :: s.unsettled[op])
    case TakeCheckpoint(c) =>
      s.(checkpoint := c, held := map op | op in s.held && op > c :: s.held[op],
         unsettled := map op | op in s.unsettled && op > c :: s.unsettled[op])
    case CrashAndRecover(c) =>
      var headers := AfterCrash(s.headers, s.unsyncedHeaders, c.keptHeaders, c.lostHeaders);
      var prepares := AfterCrash(s.prepares, s.unsyncedPrepares, c.keptPrepares, c.lostPrepares);
      var ring := seq(Slots(s), j requires 0 <= j < Slots(s) =>
        RingAfter(DecisionAt(s, headers, prepares, j), headers[j], prepares[j]));
      var repairs := exists j :: (0 <= j < Slots(s) &&
        (DecisionAt(s, headers, prepares, j).LocalRepair? || DecisionAt(s, headers, prepares, j).Truncate?));
      s.(headers := headers, prepares := prepares, unsyncedPrepares := map[],
         unsyncedHeaders := if repairs then map j | 0 <= j < Slots(s) :: ring[j] else map[],
         ring := ring, io := if repairs then Recovering else Idle,
         slots := seq(Slots(s), j requires 0 <= j < Slots(s) =>
           SlotAfter(DecisionAt(s, headers, prepares, j), prepares[j], j)))
    case SyncRecovery =>
      s.(headers := Synced(s.headers, s.unsyncedHeaders), prepares := Synced(s.prepares, s.unsyncedPrepares),
         unsyncedHeaders := map[], unsyncedPrepares := map[], io := Idle)
  }
}
