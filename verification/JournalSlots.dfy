/**
  What recovery makes of single slots of the journal: all cases of the
  classifier, slots that were never written, and appends that were cut short.
 */
module JournalSlots {
  import opened Chains
  import opened Journal
  import opened JournalRuns
  import opened Wal

  // ---- the classifier, case by case -------------------------------------------------------------

  /** A header above the installed head from a view before the installed log view. */
  predicate Superseded(h: Header, i: Installed) {
    h.op > i.headOp && h.view < i.logView
  }

  /**
    When a slot is recovered, when it is left empty, and when it is faulty.  It is
    recovered with the header of its prepare if both copies agree on it, or if it
    is an op of the window and its ring copy is empty, older, superseded, or
    unreadable with nothing newer in the journal.  It is empty if both copies
    are, if one names an op beyond the window, or if all that can be read is
    superseded.  Otherwise it is faulty.  The ring gets the recovered header or
    is emptied to match, and a faulty slot keeps what it had there.
   */
  lemma SlotByCopies(header: Copy, prepare: Copy, x: Context)
    requires header.Ordinary? ==> x.slots > 0 && header.header.op % x.slots == x.slot
    requires prepare.Ordinary? ==> x.slots > 0 && prepare.header.op % x.slots == x.slot
    ensures var slot := SlotAfter(Classify(header, prepare, x), prepare, x.slot);
      var beyond :=
        || (header.Ordinary? && header.header.op > x.prepareMax)
        || (prepare.Ordinary? && prepare.header.op > x.prepareMax);
      var recovered :=
        && !beyond && prepare.Ordinary? && !Superseded(prepare.header, x.installed)
        && (|| header == prepare
            || (prepare.header.op >= x.retainedMin &&
                (|| header.Reserved? || (header.Invalid? && prepare.header.op == x.untrustedMax)
                 || (header.Ordinary? && (header.header.op < prepare.header.op || Superseded(header.header, x.installed))))));
      var empty :=
        || beyond || (header.Reserved? && prepare.Reserved?)
        || (&& !header.Invalid? && !prepare.Invalid? && (header.Ordinary? || prepare.Ordinary?)
            && (header.Ordinary? ==> Superseded(header.header, x.installed))
            && (prepare.Ordinary? ==> Superseded(prepare.header, x.installed)));
      var ring := RingAfter(Classify(header, prepare, x), header, prepare);
      if recovered then slot == Slot(Some(prepare.header), prepare.header.op, true, false, false) && ring == prepare
      else if empty then slot == Slot(None, x.slot, false, false, false) && ring == Reserved
      else slot == Slot(None, x.slot, false, true, true) && ring == header
  {
  }

  /** What a join says of a slot: a recovered op is present, an empty slot nacks any op, and a faulty one says nothing. */
  lemma SlotInJoin(header: Copy, prepare: Copy, x: Context, op: nat)
    ensures var slot := SlotAfter(Classify(header, prepare, x), prepare, x.slot);
      && (slot.faulty ==> JoinEvidence(slot, op) == Evidence(None, false, false))
      && (slot.inhabited && slot.op == op ==> JoinEvidence(slot, op) == Evidence(slot.header, true, false) && slot.header.Some?)
      && (!slot.faulty && !(slot.inhabited && slot.op == op) ==> JoinEvidence(slot, op) == Evidence(None, false, true))
  {
  }

  /** Recovery fails exactly on a header in a slot that is not its own. */
  lemma FailByCopies(header: Copy, prepare: Copy, x: Context)
    requires x.slots > 0
    ensures Classify(header, prepare, x).Fail? <==>
      (header.Ordinary? && header.header.op % x.slots != x.slot) || (prepare.Ordinary? && prepare.header.op % x.slots != x.slot)
  {
  }

  // ---- slots that were never written --------------------------------------------------------------

  /** The step neither appends to slot `i` nor damages it. */
  predicate Spares(n: nat, step: Step, i: nat)
    requires n > 0
  {
    match step
    case Begin(h) => h.op % n != i
    case Damage(j, _) => j != i
    case CrashAndRecover(c) => i !in c.lostHeaders && i !in c.lostPrepares
    case _ => true
  }

  predicate Unused(s: State, i: nat) {
    && Shaped(s) && i < Slots(s)
    && s.headers[i].Reserved? && s.prepares[i].Reserved? && s.ring[i].Reserved? && s.slots[i] == Empty(i)
    && (i in s.unsyncedHeaders ==> s.unsyncedHeaders[i].Reserved?) && i !in s.unsyncedPrepares
    && (s.io.Appending? ==> s.io.header.op % Slots(s) != i)
  }

  lemma CrashSpares(s: State, c: Crash, i: nat)
    requires Unused(s, i) && Enabled(s, CrashAndRecover(c)) && Slots(s) > 0 && i !in c.lostHeaders && i !in c.lostPrepares
    ensures Unused(Apply(s, CrashAndRecover(c)), i)
  {
    var headers, prepares := HeadersAfter(s, c), PreparesAfter(s, c);
    assert headers[i].Reserved? && prepares[i].Reserved?;
    assert DecisionAt(s, headers, prepares, i) == CleanEmpty;
    hide Classify;
  }

  lemma WriteSpares(s: State, i: nat)
    requires Unused(s, i) && Enabled(s, Advance) && Slots(s) > 0 && (s.io.step == 0 || s.io.step == 2)
    ensures Unused(Apply(s, Advance), i)
  {
    hide Synced;
  }

  lemma SyncSpares(s: State, i: nat)
    requires Unused(s, i) && Enabled(s, Advance) && Slots(s) > 0 && (s.io.step == 1 || s.io.step == 3)
    ensures Unused(Apply(s, Advance), i)
  {
    hide Synced;
    SyncedReserved(s.headers, s.unsyncedHeaders, i);
    SyncedReserved(s.prepares, s.unsyncedPrepares, i);
  }

  lemma AdvanceSpares(s: State, i: nat)
    requires Unused(s, i) && Enabled(s, Advance) && Slots(s) > 0
    ensures Unused(Apply(s, Advance), i)
  {
    assert s.io.step <= 3;
    hide Unused, Apply, Enabled;
    if s.io.step == 0 || s.io.step == 2 { WriteSpares(s, i); } else { SyncSpares(s, i); }
  }

  lemma BeginSpares(s: State, h: Header, i: nat)
    requires Unused(s, i) && Enabled(s, Begin(h)) && Slots(s) > 0 && h.op % Slots(s) != i
    ensures Unused(Apply(s, Begin(h)), i)
  {
    hide Replacing;
    ReplacingSame(s, h);
  }

  lemma DiscardSpares(s: State, head: nat, i: nat)
    requires Unused(s, i) && Enabled(s, Discard(head)) && Slots(s) > 0
    ensures Unused(Apply(s, Discard(head)), i)
  {
  }

  /** Steps that change no slot but perhaps a damaged one. */
  lemma OtherSpares(s: State, step: Step, i: nat)
    requires Unused(s, i) && Enabled(s, step) && Slots(s) > 0 && Spares(Slots(s), step, i)
    requires step.Damage? || step.InstallView? || step.TakeCheckpoint? || step.SyncRecovery?
    ensures Unused(Apply(s, step), i)
  {
    hide Synced, SomeObsolete, Obsolete;
    if step.SyncRecovery? {
      SyncedReserved(s.headers, s.unsyncedHeaders, i);
      SyncedReserved(s.prepares, s.unsyncedPrepares, i);
    }
  }

  lemma SyncedReserved(durable: seq<Copy>, unsynced: map<nat, Copy>, i: nat)
    requires i < |durable| && durable[i].Reserved? && (i in unsynced ==> unsynced[i].Reserved?)
    ensures Synced(durable, unsynced)[i].Reserved?
  {
  }

  lemma StepSpares(s: State, step: Step, i: nat)
    requires Unused(s, i) && Enabled(s, step) && Slots(s) > 0 && Spares(Slots(s), step, i)
    ensures Unused(Apply(s, step), i) && Slots(Apply(s, step)) == Slots(s)
  {
    SameLayout(s, step);
    hide Unused, Apply, Enabled;
    match step
    case CrashAndRecover(c) => CrashSpares(s, c, i);
    case Advance => AdvanceSpares(s, i);
    case Begin(h) => BeginSpares(s, h, i);
    case Discard(head) => DiscardSpares(s, head, i);
    case _ => OtherSpares(s, step, i);
  }

  lemma SameLayout(s: State, step: Step)
    requires Enabled(s, step)
    ensures Slots(Apply(s, step)) == Slots(s)
  {
    hide Synced, AfterCrash, DecisionAt, SlotAfter, RingAfter;
  }

  lemma ReplacingSame(s: State, h: Header)
    ensures var q := Replacing(s, h); q == s.(held := q.held, unsettled := q.unsettled)
  {
  }

  lemma {:induction false} RunSpares(s: State, steps: seq<Step>, q: State, i: nat)
    requires Unused(s, i) && Slots(s) > 0 && Run(s, steps, q)
    requires forall k :: 0 <= k < |steps| ==> Spares(Slots(s), steps[k], i)
    ensures Unused(q, i)
    decreases |steps|
  {
    hide Apply, Enabled, Unused;
    if steps != [] {
      StepSpares(s, steps[0], i);
      RunSpares(Apply(s, steps[0]), steps[1..], q, i);
    }
  }

  /**
    After any run from a formatted journal and any crash, a slot that no append
    touched and no damage hit is recovered empty and not faulty, so that a join
    nacks its op.
   */
  lemma UnusedSlotsRecover(layout: JournalWindow.Layout, steps: seq<Step>, s: State, c: Crash, i: nat, op: nat)
    requires JournalWindow.Valid(layout) && JournalWindow.PrepareMaximum(layout, 0).Some? && i < layout.journalSlots
    requires Run(Formatted(layout), steps, s) && i !in c.lostHeaders && i !in c.lostPrepares
    requires forall k :: 0 <= k < |steps| ==> Spares(layout.journalSlots, steps[k], i)
    ensures Enabled(s, CrashAndRecover(c)) && i < |Apply(s, CrashAndRecover(c)).slots|
    ensures var slot := Apply(s, CrashAndRecover(c)).slots[i];
      !slot.inhabited && !slot.faulty && !slot.dirty && JoinEvidence(slot, op) == Evidence(None, false, true)
  {
    hide Apply, Enabled, Run, Inv, Unused, Formatted, JournalWindow.Valid, JournalWindow.PrepareMaximum;
    FormattedInv(layout);
    RunKeeps(Formatted(layout), steps, s);
    RecoveryNeverFails(s, c);
    FormattedUnused(layout, i);
    RunSpares(Formatted(layout), steps, s, i);
    UnusedShape(s, i);
    StepSpares(s, CrashAndRecover(c), i);
    UnusedShape(Apply(s, CrashAndRecover(c)), i);
  }

  lemma FormattedUnused(layout: JournalWindow.Layout, i: nat)
    requires JournalWindow.Valid(layout) && JournalWindow.PrepareMaximum(layout, 0).Some? && i < layout.journalSlots
    ensures Unused(Formatted(layout), i) && Slots(Formatted(layout)) == layout.journalSlots
  {
  }

  lemma UnusedShape(s: State, i: nat)
    requires Unused(s, i)
    ensures Slots(s) > 0 && i < |s.slots| && s.slots[i] == Empty(i)
  {
  }

  lemma UnusedDecision(s: State, c: Crash, i: nat)
    requires Unused(s, i) && i !in c.lostHeaders && i !in c.lostPrepares
    ensures Decisions(s.layout, HeadersAfter(s, c), PreparesAfter(s, c), s.checkpoint, s.installed)[i] == CleanEmpty
  {
    hide UntrustedUpTo;
  }

  /** With nothing appended and nothing damaged, recovery finds no fault and reports the checkpoint as its head. */
  lemma FreshJournalRecovers(layout: JournalWindow.Layout, steps: seq<Step>, s: State, c: Crash,
                             slots: seq<Slot>, ring: seq<Copy>, checkpoint: Header, r: Report)
    requires JournalWindow.Valid(layout) && JournalWindow.PrepareMaximum(layout, 0).Some?
    requires Run(Formatted(layout), steps, s) && s.checkpoint == checkpoint.op && c.lostHeaders == {} == c.lostPrepares
    requires forall k, i :: 0 <= k < |steps| && 0 <= i < layout.journalSlots ==> Spares(layout.journalSlots, steps[k], i)
    requires Shaped(s) && s.layout == layout
    requires var d := Decisions(s.layout, HeadersAfter(s, c), PreparesAfter(s, c), s.checkpoint, s.installed);
      Rebuilt(d, HeadersAfter(s, c), PreparesAfter(s, c), slots, ring) && IsReport(r, d, slots, checkpoint)
    ensures r.faulty == 0 && r.headOp == checkpoint.op && r.head == checkpoint
  {
    var d := Decisions(s.layout, HeadersAfter(s, c), PreparesAfter(s, c), s.checkpoint, s.installed);
    forall i | 0 <= i < |d|
      ensures d[i] == CleanEmpty && !slots[i].inhabited
    {
      FormattedUnused(layout, i);
      RunSpares(Formatted(layout), steps, s, i);
      UnusedDecision(s, c, i);
    }
    hide Decisions;
    FaultyCounted(d, |d|);
    assert r.headOp > checkpoint.op ==> Linked(slots, checkpoint, checkpoint.op + 1);
  }

  // ---- appends that were cut short -------------------------------------------------------------------

  /**
    An append cut after its prepare was synced: the op is recovered with its own
    header if that can still be read, is still in the window and not superseded,
    and the ring copy of its slot is empty, of an older op, or already the new one.
   */
  lemma CutAppendRecovers(layout: JournalWindow.Layout, steps: seq<Step>, s: State, c: Crash)
    requires JournalWindow.Valid(layout) && JournalWindow.PrepareMaximum(layout, 0).Some?
    requires Run(Formatted(layout), steps, s) && s.io.Appending? && s.io.step >= 2
    requires s.io.header.op >= s.checkpoint && !Superseded(s.io.header, s.installed)
    ensures Enabled(s, CrashAndRecover(c)) && Slots(s) > 0
    ensures var h := s.io.header;
      var i := h.op % Slots(s);
      var q := Apply(s, CrashAndRecover(c));
      && q.prepares[i].Ordinary?
      && (|| q.headers[i].Reserved?
          || (q.headers[i].Ordinary? && (q.headers[i].header.op < h.op || q.headers[i] == q.prepares[i]))) ==>
        q.slots[i] == Slot(Some(h), h.op, true, false, false)
  {
    FormattedInv(layout);
    RunKeeps(Formatted(layout), steps, s);
    RecoveryNeverFails(s, c);
    CutSlot(s, c);
  }

  lemma CutSlot(s: State, c: Crash)
    requires Base(s) && s.io.Appending? && s.io.step >= 2 && Enabled(s, CrashAndRecover(c))
    requires s.io.header.op >= s.checkpoint && !Superseded(s.io.header, s.installed)
    ensures var h := s.io.header;
      var i := h.op % Slots(s);
      var q := Apply(s, CrashAndRecover(c));
      && q.prepares[i].Ordinary?
      && (|| q.headers[i].Reserved?
          || (q.headers[i].Ordinary? && (q.headers[i].header.op < h.op || q.headers[i] == q.prepares[i]))) ==>
        q.slots[i] == Slot(Some(h), h.op, true, false, false)
  {
    var h := s.io.header;
    var i := h.op % Slots(s);
    var headers, prepares := HeadersAfter(s, c), PreparesAfter(s, c);
    CrashPlaced(s.headers, s.unsyncedHeaders, c.keptHeaders, c.lostHeaders, Slots(s));
    assert Placed(headers[i], i, Slots(s));
    assert HoldsOrLost(prepares[i], {h});
    SlotByCopies(headers[i], prepares[i], ContextAt(s, headers, prepares, i));
    hide Classify, SlotAfter, RingAfter;
  }

  // ---- whole appends, discards and what a join reports ----------------------------------------------------

  /** An append may begin exactly while none is running and its slot guards no other op above the checkpoint. */
  lemma BeginIff(s: State, h: Header)
    requires Shaped(s) && JournalWindow.InWindow(s.layout, s.checkpoint, h.op)
    ensures Slots(s) > 0
    ensures var slot := s.slots[h.op % Slots(s)];
      Enabled(s, Begin(h)) <==> s.io == Idle && (slot.inhabited && slot.op > s.checkpoint ==> slot.op == h.op)
  {
  }

  function Whole(h: Header): (steps: seq<Step>) {
    [Begin(h), Advance, Advance, Advance, Advance]
  }

  /** What a completed append leaves. */
  ghost predicate Appended(s: State, h: Header, q: State) {
    Shaped(s) && Shaped(q) && Slots(q) == Slots(s) &&
    var i := h.op % Slots(s);
    && q.io == Idle && q.slots[i] == Slot(Some(h), h.op, true, false, false)
    && JoinEvidence(q.slots[i], h.op) == Evidence(Some(h), true, false)
    && q.headers[i] == q.prepares[i] == q.ring[i] == Ordinary(h)
    && q.unsyncedHeaders == map[] && q.unsyncedPrepares == map[]
    && forall j :: 0 <= j < Slots(s) && j != i ==>
         && q.slots[j] == s.slots[j] && q.ring[j] == s.ring[j]
         && q.prepares[j] == (if j in s.unsyncedPrepares then s.unsyncedPrepares[j] else s.prepares[j])
  }

  lemma Then(s: State, step: Step, steps: seq<Step>, q: State)
    requires Enabled(s, step) && Run(Apply(s, step), steps, q)
    ensures Run(s, [step] + steps, q)
  {
    assert ([step] + steps)[0] == step && ([step] + steps)[1..] == steps;
  }

  /** Another slot of the append's sector or of another one is as it was, in memory and where it was stored. */
  predicate Others(s: State, x: State, i: nat) {
    && Shaped(s) && Shaped(x) && Slots(x) == Slots(s) && i < Slots(s)
    && forall j :: 0 <= j < Slots(s) && j != i ==> x.slots[j] == s.slots[j] && x.ring[j] == s.ring[j]
  }

  predicate PreparesKept(s: State, x: State, i: nat)
    requires Shaped(s) && Shaped(x) && Slots(x) == Slots(s)
  {
    forall j :: 0 <= j < Slots(s) && j != i ==>
      x.prepares[j] == (if j in s.unsyncedPrepares then s.unsyncedPrepares[j] else s.prepares[j])
  }

  /** The prepare is written and synced. */
  lemma PrepareWritten(s: State, h: Header, i: nat) returns (x: State)
    requires Enabled(s, Begin(h)) && i == h.op % Slots(s)
    ensures Others(s, x, i) && PreparesKept(s, x, i) && x.prepares[i] == x.ring[i] == Ordinary(h)
    ensures x.io == Appending(h, 2) && x.unsyncedPrepares == map[] && x.unsyncedHeaders == map[]
    ensures forall steps, q :: Run(x, steps, q) ==> Run(s, [Begin(h), Advance, Advance] + steps, q)
  {
    var a := Apply(s, Begin(h));
    assert a.slots == s.slots[i := a.slots[i]] && a.ring == s.ring;
    assert a.prepares == s.prepares && a.unsyncedPrepares == s.unsyncedPrepares;
    assert a.io == Appending(h, 0) && Shaped(a) && Slots(a) == Slots(s);
    x := SyncedPrepare(s, a, h, i);
    hide Apply, Enabled, PreparesKept, Others;
    forall steps, q | Run(x, steps, q)
      ensures Run(s, [Begin(h), Advance, Advance] + steps, q)
    {
      Then(s, Begin(h), [Advance, Advance] + steps, q);
      assert [Begin(h)] + ([Advance, Advance] + steps) == [Begin(h), Advance, Advance] + steps;
    }
  }

  lemma SyncedPrepare(s: State, a: State, h: Header, i: nat) returns (x: State)
    requires Others(s, a, i) && i == h.op % Slots(s) && a.io == Appending(h, 0)
    requires a.prepares == s.prepares && a.unsyncedPrepares == s.unsyncedPrepares
    ensures Others(s, x, i) && PreparesKept(s, x, i) && x.prepares[i] == x.ring[i] == Ordinary(h)
    ensures x.io == Appending(h, 2) && x.unsyncedPrepares == map[] && x.unsyncedHeaders == map[]
    ensures forall steps, q :: Run(x, steps, q) ==> Run(a, [Advance, Advance] + steps, q)
  {
    var b := Apply(a, Advance);
    x := Apply(b, Advance);
    hide Apply, Enabled, PreparesKept, Others;
    forall steps, q | Run(x, steps, q)
      ensures Run(a, [Advance, Advance] + steps, q)
    {
      Then(b, Advance, steps, q);
      Then(a, Advance, [Advance] + steps, q);
      assert [Advance] + ([Advance] + steps) == [Advance, Advance] + steps;
    }
  }

  /** The ring sector is written and synced. */
  lemma SectorWritten(x: State, h: Header, i: nat) returns (q: State)
    requires Shaped(x) && i == h.op % Slots(x) && x.io == Appending(h, 2) && x.ring[i] == x.prepares[i] == Ordinary(h)
    requires x.unsyncedPrepares == map[] && x.unsyncedHeaders == map[]
    ensures Shaped(q) && Slots(q) == Slots(x) && q.io == Idle && q.prepares == x.prepares && q.ring == x.ring
    ensures q.headers[i] == Ordinary(h) && q.slots == x.slots[i := Slot(Some(h), h.op, true, false, false)]
    ensures q.unsyncedHeaders == map[] && q.unsyncedPrepares == map[] && Run(x, [Advance, Advance], q)
  {
    var d := Apply(x, Advance);
    assert i in d.unsyncedHeaders && d.unsyncedHeaders[i] == Ordinary(h);
    q := Apply(d, Advance);
    assert q.prepares == x.prepares;
    hide Apply, Enabled;
    assert Run(q, [], q);
    Then(d, Advance, [], q);
    Then(x, Advance, [Advance], q);
    assert [Advance] + [] == [Advance] && [Advance] + [Advance] == [Advance, Advance];
  }

  /** Begun and carried through, an append leaves the slot clean, both copies durable and every other slot as it was. */
  lemma AppendCompletes(s: State, h: Header) returns (q: State)
    requires Enabled(s, Begin(h))
    ensures Run(s, Whole(h), q) && Appended(s, h, q)
  {
    var i := h.op % Slots(s);
    var x := PrepareWritten(s, h, i);
    q := SectorWritten(x, h, i);
    hide Run, Enabled;
    assert [Begin(h), Advance, Advance] + [Advance, Advance] == Whole(h);
  }

  // ---- recovering twice ---------------------------------------------------------------------------------------

  /** The journal once recovery has written back what it changed. */
  function Settled(q: State): (r: State)
    requires Shaped(q)
  {
    if q.io.Recovering? then Apply(q, SyncRecovery) else q
  }

  /** What one recovery installs the next one finds again, if nothing is damaged in between. */
  lemma RecoveredTwice(layout: JournalWindow.Layout, steps: seq<Step>, s: State, c: Crash, d: Crash, i: nat)
    requires JournalWindow.Valid(layout) && JournalWindow.PrepareMaximum(layout, 0).Some?
    requires Run(Formatted(layout), steps, s) && d.lostHeaders == {} == d.lostPrepares
    ensures Enabled(s, CrashAndRecover(c))
    ensures var q := Apply(s, CrashAndRecover(c));
      && Shaped(q) && Enabled(Settled(q), CrashAndRecover(d)) && |Apply(Settled(q), CrashAndRecover(d)).slots| == |q.slots|
      && (i < |q.slots| && q.slots[i].inhabited ==> Apply(Settled(q), CrashAndRecover(d)).slots[i] == q.slots[i])
  {
    FormattedInv(layout);
    RunKeeps(Formatted(layout), steps, s);
    RecoveryNeverFails(s, c);
    var q := Apply(s, CrashAndRecover(c));
    RunKeeps(s, [CrashAndRecover(c)], q);
    if q.io.Recovering? {
      assert Enabled(q, SyncRecovery);
      RunKeeps(q, [SyncRecovery], Settled(q));
    }
    RecoveryNeverFails(Settled(q), d);
    if i < |q.slots| && q.slots[i].inhabited {
      AgainFound(s, c, d, i);
    }
  }

  lemma SameTwice(h: Header, x: Context)
    requires x.slots > 0 && h.op % x.slots == x.slot && h.op <= x.prepareMax && !Obsolete(Ordinary(h), x.installed)
    ensures SlotAfter(Classify(Ordinary(h), Ordinary(h), x), Ordinary(h), x.slot) == Slot(Some(h), h.op, true, false, false)
  {
  }

  lemma RingFollows(header: Copy, prepare: Copy, x: Context)
    requires SlotAfter(Classify(header, prepare, x), prepare, x.slot).inhabited
    ensures var d := Classify(header, prepare, x);
      && (d.Clean? || d.LocalRepair?) && RingAfter(d, header, prepare) == prepare && (d.Clean? ==> header == prepare)
  {
  }

  /** Once recovery has settled, both copies of a recovered slot are its header. */
  lemma SettledCopies(s: State, c: Crash, i: nat)
    requires Shaped(s) && Enabled(s, CrashAndRecover(c)) && i < Slots(s) && Apply(s, CrashAndRecover(c)).slots[i].inhabited
    ensures var q := Apply(s, CrashAndRecover(c));
      && Shaped(q) && var t := Settled(q);
         && Shaped(t) && t.layout == s.layout && t.checkpoint == s.checkpoint && t.installed == s.installed
         && t.unsyncedHeaders == map[] && t.unsyncedPrepares == map[]
         && t.headers[i] == t.prepares[i] == PreparesAfter(s, c)[i]
  {
    hide Classify, SlotAfter, RingAfter, UntrustedUpTo, JournalWindow.Valid, JournalWindow.PrepareMaximum;
    var headers, prepares := HeadersAfter(s, c), PreparesAfter(s, c);
    RingFollows(headers[i], prepares[i], ContextAt(s, headers, prepares, i));
  }

  lemma QuietCrash(t: State, d: Crash)
    requires t.unsyncedHeaders == map[] && t.unsyncedPrepares == map[] && d.lostHeaders == {} == d.lostPrepares
    ensures HeadersAfter(t, d) == t.headers && PreparesAfter(t, d) == t.prepares
  {
  }

  lemma SlotOf(s: State, c: Crash, i: nat)
    requires Shaped(s) && Enabled(s, CrashAndRecover(c)) && i < Slots(s)
    ensures var q := Apply(s, CrashAndRecover(c));
      && |q.slots| == Slots(s) == |HeadersAfter(s, c)| == |PreparesAfter(s, c)|
      && q.slots[i] == SlotAfter(Classify(HeadersAfter(s, c)[i], PreparesAfter(s, c)[i],
                                          ContextAt(s, HeadersAfter(s, c), PreparesAfter(s, c), i)), PreparesAfter(s, c)[i], i)
  {
    hide Classify, SlotAfter, RingAfter, UntrustedUpTo, JournalWindow.Valid, JournalWindow.PrepareMaximum;
  }

  lemma AgainFound(s: State, c: Crash, d: Crash, i: nat)
    requires Shaped(s) && Enabled(s, CrashAndRecover(c)) && d.lostHeaders == {} == d.lostPrepares
    requires i < Slots(s) && Apply(s, CrashAndRecover(c)).slots[i].inhabited
    requires var q := Apply(s, CrashAndRecover(c)); Shaped(q) && Enabled(Settled(q), CrashAndRecover(d))
    ensures var q := Apply(s, CrashAndRecover(c));
      && |Apply(Settled(q), CrashAndRecover(d)).slots| == |q.slots| && i < |q.slots|
      && Apply(Settled(q), CrashAndRecover(d)).slots[i] == q.slots[i]
  {
    hide Apply, Enabled, Classify, SlotAfter, RingAfter, UntrustedUpTo, HeadersAfter, PreparesAfter, Settled;
    var q := Apply(s, CrashAndRecover(c));
    var t := Settled(q);
    SlotOf(s, c, i);
    SettledCopies(s, c, i);
    SlotOf(t, d, i);
    QuietCrash(t, d);
    var headers, prepares := HeadersAfter(s, c), PreparesAfter(s, c);
    RecoveredIsStored(headers[i], prepares[i], ContextAt(s, headers, prepares, i));
    SameTwice(prepares[i].header, ContextAt(t, t.headers, t.prepares, i));
    RecoveredSlot(headers[i], prepares[i], ContextAt(s, headers, prepares, i));
  }

  lemma RecoveredSlot(header: Copy, prepare: Copy, x: Context)
    requires SlotAfter(Classify(header, prepare, x), prepare, x.slot).inhabited
    ensures prepare.Ordinary?
    ensures SlotAfter(Classify(header, prepare, x), prepare, x.slot)
            == Slot(Some(prepare.header), prepare.header.op, true, false, false)
  {
  }
}
