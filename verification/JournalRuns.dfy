/**
  What survives in the journal over every run of appends, crashes, damage,
  view installations and checkpoints.
 */
module JournalRuns {
  import opened Chains
  import opened Journal
  import JournalWindow

  ghost predicate Run(s: State, steps: seq<Step>, q: State)
    decreases |steps|
  {
    if steps == [] then s == q
    else Enabled(s, steps[0]) && Run(Apply(s, steps[0]), steps[1..], q)
  }

  /** A formatted journal. */
  function Formatted(layout: JournalWindow.Layout): (s: State) {
    var n := layout.journalSlots;
    State(layout, seq(n, _ => Reserved), seq(n, _ => Reserved), map[], map[],
          seq(n, _ => Reserved), seq(n, i requires 0 <= i => Empty(i)), Idle, 0, Installed(0, 0), map[], map[])
  }

  // ---- the invariant ------------------------------------------------------------------------

  /** Every header sits in the slot of its op. */
  predicate Placed(c: Copy, i: nat, n: nat) {
    n > 0 && (c.Ordinary? ==> c.header.op % n == i)
  }

  predicate AllPlaced(copies: seq<Copy>, n: nat) {
    forall i :: 0 <= i < |copies| ==> Placed(copies[i], i, n)
  }

  predicate MapPlaced(copies: map<nat, Copy>, n: nat) {
    forall i :: i in copies ==> i < n && Placed(copies[i], i, n)
  }

  predicate InMemory(slot: Slot, op: nat, hs: set<Header>) {
    || (slot.faulty && !slot.inhabited)
    || (slot.inhabited && !slot.faulty && slot.op == op && slot.header.Some? && slot.header.value in hs)
  }

  predicate Unsynced(copies: map<nat, Copy>, i: nat, hs: set<Header>) {
    i in copies ==> HoldsOrLost(copies[i], hs)
  }

  /** Every copy of the op is one of `hs` or unreadable; memory has one of them or knows the slot is faulty. */
  predicate Kept(s: State, op: nat, hs: set<Header>) {
    Shaped(s) &&
    var i := op % Slots(s);
    && HoldsOrLost(s.headers[i], hs) && HoldsOrLost(s.prepares[i], hs) && HoldsOrLost(s.ring[i], hs)
    && Unsynced(s.unsyncedHeaders, i, hs) && Unsynced(s.unsyncedPrepares, i, hs)
    && InMemory(s.slots[i], op, hs)
  }

  predicate Owed(s: State, op: nat, hs: set<Header>) {
    && JournalWindow.InWindow(s.layout, s.checkpoint, op)
    && forall h :: h in hs ==> h.op == op && !Obsolete(Ordinary(h), s.installed)
  }

  predicate Undisturbed(s: State, op: nat, hs: set<Header>) {
    s.io.Appending? && Slots(s) > 0 && op % Slots(s) == s.io.header.op % Slots(s) ==> s.io.header in hs
  }

  /** All that the invariant says about one tracked op. */
  predicate Secure(s: State, op: nat) {
    Owed(s, op, May(s, op)) && Kept(s, op, May(s, op)) && Undisturbed(s, op, May(s, op))
  }

  /** How far the append in flight has come. */
  predicate Progress(s: State) {
    Shaped(s) && s.io.Appending? ==>
      var h := s.io.header;
      var i := h.op % Slots(s);
      && h.op <= JournalWindow.PrepareMaximum(s.layout, s.checkpoint).value
      && (s.io.step == 1 ==> i in s.unsyncedPrepares && s.unsyncedPrepares[i] == Ordinary(h))
      && (s.io.step >= 2 ==> HoldsOrLost(s.prepares[i], {h}) && Unsynced(s.unsyncedPrepares, i, {h}) && s.ring[i] == Ordinary(h))
      && (s.io.step >= 3 ==> i in s.unsyncedHeaders && HoldsOrLost(s.unsyncedHeaders[i], {h}))
  }

  /** No op is both held and unsettled. */
  predicate Disjoint(s: State) {
    forall op :: op in s.held ==> op !in s.unsettled
  }

  predicate Base(s: State) {
    && Shaped(s) && Progress(s) && Disjoint(s)
    && AllPlaced(s.headers, Slots(s)) && AllPlaced(s.prepares, Slots(s)) && AllPlaced(s.ring, Slots(s))
    && MapPlaced(s.unsyncedHeaders, Slots(s)) && MapPlaced(s.unsyncedPrepares, Slots(s))
  }

  ghost predicate Inv(s: State) {
    Base(s) && forall op: nat :: Tracked(s, op) ==> Secure(s, op)
  }

  lemma FormattedInv(layout: JournalWindow.Layout)
    requires JournalWindow.Valid(layout) && JournalWindow.PrepareMaximum(layout, 0).Some?
    ensures Inv(Formatted(layout))
  {
  }

  // ---- each step keeps it ---------------------------------------------------------------------

  /** What the slot of an op may hold after an append over some op has begun. */
  lemma ReplacingMay(s: State, h: Header, op: nat)
    requires Disjoint(s) && Tracked(Replacing(s, h), op)
    ensures Tracked(s, op) && Disjoint(Replacing(s, h))
    ensures May(Replacing(s, h), op) == if op == h.op then May(s, op) + {h} else May(s, op)
    ensures op == h.op ==> May(s, op) == {h} || !Obsolete(Ordinary(h), s.installed)
  {
  }

  lemma ReplacingDisjoint(s: State, h: Header)
    requires Disjoint(s)
    ensures var q := Replacing(s, h); Disjoint(q) && q == s.(held := q.held, unsettled := q.unsettled)
  {
  }

  lemma BeginBase(s: State, h: Header)
    requires Base(s) && Enabled(s, Begin(h))
    ensures Base(Apply(s, Begin(h)))
  {
    hide Replacing, AllPlaced, MapPlaced, Disjoint;
    ReplacingDisjoint(s, h);
    DisjointSame(Replacing(s, h), Apply(s, Begin(h)));
  }

  lemma DisjointSame(s: State, q: State)
    requires Disjoint(s) && q.held == s.held && q.unsettled == s.unsettled
    ensures Disjoint(q)
  {
  }

  lemma MaySame(s: State, q: State, op: nat)
    requires q.held == s.held && q.unsettled == s.unsettled
    ensures May(q, op) == May(s, op) && (Tracked(q, op) <==> Tracked(s, op))
  {
  }

  lemma BeginSecure(s: State, h: Header, op: nat)
    requires Base(s) && Enabled(s, Begin(h)) && Tracked(Apply(s, Begin(h)), op) && (Tracked(s, op) ==> Secure(s, op))
    ensures Secure(Apply(s, Begin(h)), op)
  {
    var q := Apply(s, Begin(h));
    hide Base, Replacing, Tracked, May;
    BaseParts(s);
    ReplacingDisjoint(s, h);
    MaySame(Replacing(s, h), q, op);
    ReplacingMay(s, h, op);
    JournalWindow.WindowDistinctSlots(s.layout, s.checkpoint, op, h.op);
  }

  lemma BaseParts(s: State)
    requires Base(s)
    ensures Shaped(s) && Progress(s) && Disjoint(s) && Slots(s) > 0
  {
  }

  lemma BeginKeeps(s: State, h: Header)
    requires Inv(s) && Enabled(s, Begin(h))
    ensures Inv(Apply(s, Begin(h)))
  {
    hide Apply, Enabled, Base, Secure, Tracked;
    BeginBase(s, h);
    forall op: nat | Tracked(Apply(s, Begin(h)), op)
      ensures Secure(Apply(s, Begin(h)), op)
    {
      BeginSecure(s, h, op);
    }
  }

  /** Syncing turns the unsynced copies into the durable ones. */
  lemma SyncedHolds(durable: seq<Copy>, unsynced: map<nat, Copy>, i: nat, hs: set<Header>)
    requires i < |durable| && HoldsOrLost(durable[i], hs) && Unsynced(unsynced, i, hs)
    ensures HoldsOrLost(Synced(durable, unsynced)[i], hs)
  {
  }

  lemma SyncedPlaced(durable: seq<Copy>, unsynced: map<nat, Copy>, n: nat)
    requires n > 0 && AllPlaced(durable, n) && MapPlaced(unsynced, n)
    ensures AllPlaced(Synced(durable, unsynced), n)
  {
    var r := Synced(durable, unsynced);
    forall i | 0 <= i < |r|
      ensures Placed(r[i], i, n)
    {
      assert Placed(durable[i], i, n) && (i in unsynced ==> Placed(unsynced[i], i, n));
    }
  }

  lemma SyncedAt(durable: seq<Copy>, unsynced: map<nat, Copy>, i: nat)
    requires i < |durable| && i in unsynced
    ensures Synced(durable, unsynced)[i] == unsynced[i]
  {
  }

  lemma SyncBase(s: State)
    requires Base(s) && Enabled(s, Advance) && (s.io.step == 1 || s.io.step == 3)
    ensures Base(Apply(s, Advance))
  {
    hide Synced, AllPlaced, MapPlaced;
    SyncedPlaced(s.headers, s.unsyncedHeaders, Slots(s));
    SyncedPlaced(s.prepares, s.unsyncedPrepares, Slots(s));
    assert MapPlaced(map[], Slots(s)) by { NonePlaced(Slots(s)); }
    if s.io.step == 1 {
      SyncedAt(s.prepares, s.unsyncedPrepares, s.io.header.op % Slots(s));
      RingPlaced(s.ring, s.io.header, Slots(s));
    }
  }

  lemma NonePlaced(n: nat)
    ensures MapPlaced(map[], n)
  {
  }

  lemma RingPlaced(ring: seq<Copy>, h: Header, n: nat)
    requires n > 0 && |ring| == n && AllPlaced(ring, n)
    ensures AllPlaced(ring[h.op % n := Ordinary(h)], n)
  {
  }

  lemma WriteBase(s: State)
    requires Base(s) && Enabled(s, Advance) && (s.io.step == 0 || s.io.step == 2)
    ensures Base(Apply(s, Advance))
  {
  }

  lemma AdvanceBase(s: State)
    requires Base(s) && Enabled(s, Advance)
    ensures Base(Apply(s, Advance))
  {
    assert s.io.step <= 3;
    hide Base, Apply, Enabled;
    if s.io.step == 1 || s.io.step == 3 { SyncBase(s); } else { WriteBase(s); }
  }

  /** An effect that leaves the history alone and writes only the header in flight. */
  lemma WriteSecure(s: State, op: nat)
    requires Base(s) && Enabled(s, Advance) && s.io.step <= 2 && Tracked(s, op) && Secure(s, op)
    ensures Secure(Apply(s, Advance), op)
  {
    hide Base, Synced, Tracked, May, Disjoint;
    BaseParts(s);
    MaySame(s, Apply(s, Advance), op);
    var i := op % Slots(s);
    SyncedHolds(s.headers, s.unsyncedHeaders, i, May(s, op));
    SyncedHolds(s.prepares, s.unsyncedPrepares, i, May(s, op));
  }

  /** Both copies of the op whose append completes are its header or unreadable. */
  lemma FinishedSecure(s: State)
    requires Base(s) && Enabled(s, Advance) && s.io.step == 3 && Tracked(Apply(s, Advance), s.io.header.op)
    ensures Secure(Apply(s, Advance), s.io.header.op)
  {
    hide AllPlaced, MapPlaced, Synced;
    var h := s.io.header;
    var i := h.op % Slots(s);
    SyncedAt(s.headers, s.unsyncedHeaders, i);
    SyncedHolds(s.prepares, s.unsyncedPrepares, i, {h});
  }

  lemma FinishSecure(s: State, op: nat)
    requires Base(s) && Enabled(s, Advance) && s.io.step == 3 && op != s.io.header.op && Tracked(s, op) && Secure(s, op)
    ensures Secure(Apply(s, Advance), op)
  {
    BaseParts(s);
    var q := Apply(s, Advance);
    assert May(q, op) == May(s, op);
    hide Base, Synced, Tracked, May, Disjoint;
    var i := op % Slots(s);
    assert i != s.io.header.op % Slots(s);
    SyncedHolds(s.headers, s.unsyncedHeaders, i, May(s, op));
    SyncedHolds(s.prepares, s.unsyncedPrepares, i, May(s, op));
  }

  lemma AdvanceTracked(s: State, op: nat)
    requires Enabled(s, Advance) && Tracked(Apply(s, Advance), op)
    ensures Tracked(s, op) || (s.io.step == 3 && op == s.io.header.op)
  {
    hide Synced;
  }

  lemma AdvanceKeeps(s: State)
    requires Inv(s) && Enabled(s, Advance)
    ensures Inv(Apply(s, Advance))
  {
    assert s.io.step <= 3;
    hide Apply, Enabled, Base, Secure, Tracked;
    AdvanceBase(s);
    forall op: nat | Tracked(Apply(s, Advance), op)
      ensures Secure(Apply(s, Advance), op)
    {
      AdvanceTracked(s, op);
      if s.io.step <= 2 {
        WriteSecure(s, op);
      } else if op == s.io.header.op {
        FinishedSecure(s);
      } else {
        FinishSecure(s, op);
      }
    }
  }

  /** A step that only drops ops from the history and keeps what their slots may hold. */
  predicate Narrows(s: State, q: State) {
    && (forall op :: op in q.held ==> op in s.held && q.held[op] == s.held[op])
    && (forall op :: op in q.unsettled ==> op in s.unsettled && q.unsettled[op] == s.unsettled[op])
  }

  lemma NarrowsMay(s: State, q: State, op: nat)
    requires Disjoint(s) && Narrows(s, q)
    ensures Disjoint(q) && (Tracked(q, op) ==> Tracked(s, op) && May(q, op) == May(s, op))
  {
  }

  lemma DamageKeeps(s: State, i: nat, ofHeader: bool)
    requires Inv(s) && Enabled(s, Damage(i, ofHeader))
    ensures Inv(Apply(s, Damage(i, ofHeader)))
  {
    hide Tracked, May;
    var q := Apply(s, Damage(i, ofHeader));
    forall op: nat | Tracked(q, op)
      ensures Secure(q, op)
    {
      MaySame(s, q, op);
      assert Secure(s, op);
    }
  }

  lemma DiscardKeeps(s: State, head: nat)
    requires Inv(s) && Enabled(s, Discard(head))
    ensures Inv(Apply(s, Discard(head)))
  {
    var q := Apply(s, Discard(head));
    assert Base(q);
    forall op: nat | Tracked(q, op)
      ensures Secure(q, op)
    {
      DiscardSecure(s, head, op);
    }
  }

  lemma DiscardSecure(s: State, head: nat, op: nat)
    requires Inv(s) && Enabled(s, Discard(head)) && Tracked(Apply(s, Discard(head)), op)
    ensures Secure(Apply(s, Discard(head)), op)
  {
    var q := Apply(s, Discard(head));
    assert Narrows(s, q) && op <= head;
    hide Base, Tracked, May, Narrows, Disjoint;
    BaseParts(s);
    NarrowsMay(s, q, op);
    assert Secure(s, op);
  }

  lemma InstallKeeps(s: State, x: Installed)
    requires Inv(s) && Enabled(s, InstallView(x))
    ensures Inv(Apply(s, InstallView(x)))
  {
    hide Secure, SomeObsolete;
    var q := Apply(s, InstallView(x));
    forall op: nat | Tracked(q, op)
      ensures Secure(q, op)
    {
      InstallSecure(s, x, op);
    }
  }

  lemma InstallSecure(s: State, x: Installed, op: nat)
    requires Inv(s) && Enabled(s, InstallView(x)) && Tracked(Apply(s, InstallView(x)), op)
    ensures Secure(Apply(s, InstallView(x)), op)
  {
    var q := Apply(s, InstallView(x));
    assert Narrows(s, q);
    assert forall h :: h in May(q, op) ==> !Obsolete(Ordinary(h), x);
    hide Base, Tracked, May, Narrows, Disjoint, SomeObsolete;
    BaseParts(s);
    NarrowsMay(s, q, op);
    assert Secure(s, op);
  }

  lemma CheckpointKeeps(s: State, c: nat)
    requires Inv(s) && Enabled(s, TakeCheckpoint(c))
    ensures Inv(Apply(s, TakeCheckpoint(c)))
  {
    hide Secure;
    JournalWindow.WindowGrows(s.layout, s.checkpoint, c);
    var q := Apply(s, TakeCheckpoint(c));
    forall op: nat | Tracked(q, op)
      ensures Secure(q, op)
    {
      CheckpointSecure(s, c, op);
    }
  }

  lemma CheckpointSecure(s: State, c: nat, op: nat)
    requires Inv(s) && Enabled(s, TakeCheckpoint(c)) && Tracked(Apply(s, TakeCheckpoint(c)), op)
    ensures Secure(Apply(s, TakeCheckpoint(c)), op)
  {
    var q := Apply(s, TakeCheckpoint(c));
    assert Narrows(s, q) && op > c;
    hide Base, Tracked, May, Narrows, Disjoint;
    BaseParts(s);
    JournalWindow.WindowGrows(s.layout, s.checkpoint, c);
    NarrowsMay(s, q, op);
    assert Secure(s, op);
  }

  lemma SyncKeeps(s: State)
    requires Inv(s) && Enabled(s, SyncRecovery)
    ensures Inv(Apply(s, SyncRecovery))
  {
    hide Synced, Tracked, May;
    var q := Apply(s, SyncRecovery);
    SyncedPlaced(s.headers, s.unsyncedHeaders, Slots(s));
    SyncedPlaced(s.prepares, s.unsyncedPrepares, Slots(s));
    forall op: nat | Tracked(q, op)
      ensures Secure(q, op)
    {
      MaySame(s, q, op);
      assert Secure(s, op);
      SyncedHolds(s.headers, s.unsyncedHeaders, op % Slots(s), May(s, op));
      SyncedHolds(s.prepares, s.unsyncedPrepares, op % Slots(s), May(s, op));
    }
  }

  // ---- crash and recovery -----------------------------------------------------------------------

  function HeadersAfter(s: State, c: Crash): (r: seq<Copy>) {
    AfterCrash(s.headers, s.unsyncedHeaders, c.keptHeaders, c.lostHeaders)
  }

  function PreparesAfter(s: State, c: Crash): (r: seq<Copy>) {
    AfterCrash(s.prepares, s.unsyncedPrepares, c.keptPrepares, c.lostPrepares)
  }

  lemma CrashPlaced(durable: seq<Copy>, unsynced: map<nat, Copy>, kept: set<nat>, lost: set<nat>, n: nat)
    requires n > 0 && AllPlaced(durable, n) && MapPlaced(unsynced, n)
    ensures AllPlaced(AfterCrash(durable, unsynced, kept, lost), n)
  {
    var r := AfterCrash(durable, unsynced, kept, lost);
    forall i | 0 <= i < |r|
      ensures Placed(r[i], i, n)
    {
      assert Placed(durable[i], i, n) && (i in unsynced ==> Placed(unsynced[i], i, n));
    }
  }

  /** No crash leaves a journal that recovery refuses: every slot gets a decision other than failure. */
  lemma RecoveryNeverFails(s: State, c: Crash)
    requires Inv(s)
    ensures Enabled(s, CrashAndRecover(c))
  {
    CrashPlaced(s.headers, s.unsyncedHeaders, c.keptHeaders, c.lostHeaders, Slots(s));
    CrashPlaced(s.prepares, s.unsyncedPrepares, c.keptPrepares, c.lostPrepares, Slots(s));
    var headers, prepares := HeadersAfter(s, c), PreparesAfter(s, c);
    forall i | 0 <= i < Slots(s)
      ensures !DecisionAt(s, headers, prepares, i).Fail?
    {
      assert Placed(headers[i], i, Slots(s)) && Placed(prepares[i], i, Slots(s));
    }
  }

  /** A tracked op is recovered or its slot is reported faulty. */
  lemma HeldRecovers(s: State, c: Crash, op: nat)
    requires Inv(s) && Tracked(s, op)
    ensures var hs := May(s, op);
      var i := op % Slots(s);
      var headers, prepares := HeadersAfter(s, c), PreparesAfter(s, c);
      var d := DecisionAt(s, headers, prepares, i);
      var slot := SlotAfter(d, prepares[i], i);
      && HoldsOrLost(headers[i], hs) && HoldsOrLost(prepares[i], hs)
      && InMemory(slot, op, hs) && HoldsOrLost(RingAfter(d, headers[i], prepares[i]), hs)
      && (!slot.faulty ==> prepares[i].Ordinary? && slot == Slot(Some(prepares[i].header), op, true, false, false))
      && (headers[i].Ordinary? && headers[i] == prepares[i] ==> !slot.faulty)
      && !JoinEvidence(slot, op).nack
  {
    var hs := May(s, op);
    var i := op % Slots(s);
    assert Secure(s, op);
    var headers, prepares := HeadersAfter(s, c), PreparesAfter(s, c);
    HeldSlotRecovers(headers[i], prepares[i], ContextAt(s, headers, prepares, i), op, hs);
  }

  lemma RecoverPlaced(s: State, c: Crash)
    requires Inv(s) && Enabled(s, CrashAndRecover(c))
    ensures var q := Apply(s, CrashAndRecover(c));
      && AllPlaced(q.headers, Slots(q)) && AllPlaced(q.prepares, Slots(q)) && AllPlaced(q.ring, Slots(q))
      && MapPlaced(q.unsyncedHeaders, Slots(q))
  {
    var n := Slots(s);
    CrashPlaced(s.headers, s.unsyncedHeaders, c.keptHeaders, c.lostHeaders, n);
    CrashPlaced(s.prepares, s.unsyncedPrepares, c.keptPrepares, c.lostPrepares, n);
    var q := Apply(s, CrashAndRecover(c));
    forall i | 0 <= i < n
      ensures Placed(q.ring[i], i, n)
    {
      assert Placed(q.headers[i], i, n) && Placed(q.prepares[i], i, n);
    }
  }

  lemma CrashKeeps(s: State, c: Crash)
    requires Inv(s) && Enabled(s, CrashAndRecover(c))
    ensures Inv(Apply(s, CrashAndRecover(c)))
  {
    hide Classify, SlotAfter, RingAfter, Tracked, May;
    RecoverPlaced(s, c);
    var q := Apply(s, CrashAndRecover(c));
    forall op: nat | Tracked(q, op)
      ensures Secure(q, op)
    {
      MaySame(s, q, op);
      assert Secure(s, op);
      HeldRecovers(s, c, op);
    }
  }

  // ---- runs -----------------------------------------------------------------------------------------

  lemma StepKeeps(s: State, step: Step)
    requires Inv(s) && Enabled(s, step)
    ensures Inv(Apply(s, step))
  {
    hide Apply, Enabled, Inv;
    match step
    case Begin(h) => BeginKeeps(s, h);
    case Advance => AdvanceKeeps(s);
    case Damage(i, b) => DamageKeeps(s, i, b);
    case Discard(h) => DiscardKeeps(s, h);
    case InstallView(x) => InstallKeeps(s, x);
    case TakeCheckpoint(c) => CheckpointKeeps(s, c);
    case CrashAndRecover(c) => CrashKeeps(s, c);
    case SyncRecovery => SyncKeeps(s);
  }

  lemma {:induction false} RunKeeps(s: State, steps: seq<Step>, q: State)
    requires Inv(s) && Run(s, steps, q)
    ensures Inv(q)
    decreases |steps|
  {
    hide Apply, Enabled, Inv;
    if steps != [] {
      StepKeeps(s, steps[0]);
      RunKeeps(Apply(s, steps[0]), steps[1..], q);
    }
  }

  /**
    After any run from a formatted journal and any crash, recovery succeeds;
    every op whose append completed, and which no view, checkpoint or newer
    append has excluded, is then either present with the very header that was
    appended or sits in a slot marked faulty, and is never nacked; and it is
    present whenever both of its copies can still be read.
   */
  lemma HeldOpsSurviveRuns(layout: JournalWindow.Layout, steps: seq<Step>, s: State, c: Crash, op: nat)
    requires JournalWindow.Valid(layout) && JournalWindow.PrepareMaximum(layout, 0).Some?
    requires Run(Formatted(layout), steps, s) && op in s.held
    ensures Enabled(s, CrashAndRecover(c))
    ensures var q := Apply(s, CrashAndRecover(c));
      var slot := q.slots[op % Slots(s)];
      && q.held == s.held
      && (slot.faulty || slot == Slot(Some(s.held[op]), op, true, false, false))
      && !JoinEvidence(slot, op).nack
      && (q.headers[op % Slots(s)].Ordinary? && q.prepares[op % Slots(s)].Ordinary? ==> !slot.faulty)
  {
    hide Classify, SlotAfter, RingAfter;
    FormattedInv(layout);
    RunKeeps(Formatted(layout), steps, s);
    RecoveryNeverFails(s, c);
    HeldRecovers(s, c, op);
    assert Secure(s, op);
  }

  /**
    The same of an op that an append of another header has begun to replace: the
    slot then holds one of the headers written to it, or is marked faulty; it is
    never empty and the op never nacked; and one of them is recovered whenever
    both copies can be read and agree.
   */
  lemma ReplacedOpsSurviveRuns(layout: JournalWindow.Layout, steps: seq<Step>, s: State, c: Crash, op: nat)
    requires JournalWindow.Valid(layout) && JournalWindow.PrepareMaximum(layout, 0).Some?
    requires Run(Formatted(layout), steps, s) && op !in s.held && op in s.unsettled
    ensures Enabled(s, CrashAndRecover(c))
    ensures var q := Apply(s, CrashAndRecover(c));
      var i := op % Slots(s);
      var slot := q.slots[i];
      && q.unsettled == s.unsettled
      && (slot.faulty || (slot.header.Some? && slot.header.value in s.unsettled[op]
                          && slot == Slot(slot.header, op, true, false, false)))
      && !JoinEvidence(slot, op).nack
      && (q.headers[i].Ordinary? && q.headers[i] == q.prepares[i] ==> !slot.faulty)
  {
    hide Classify, SlotAfter, RingAfter;
    FormattedInv(layout);
    RunKeeps(Formatted(layout), steps, s);
    RecoveryNeverFails(s, c);
    HeldRecovers(s, c, op);
    assert Secure(s, op);
  }
}
