/**
  The write-ahead log as the object the replica drives: its buffers, its slots
  and the storage below it.  Each method is one step of the machine in Journal,
  so what JournalRuns proves of every run holds of the object.
 */
module Wal {
  import opened Chains
  import opened Journal

  datatype Error = Backpressure | SlotUnsafe | Impossible | UncertainSolo | Recovery
  datatype Result<T> = Ok(value: T) | Err(error: Error)

  datatype Report = Report(headOp: nat, head: Header, faulty: nat, untrustedMax: nat)

  // ---- what recovery reports ----------------------------------------------------------------

  predicate SlotHolds(slots: seq<Slot>, op: nat) {
    && |slots| > 0 && slots[op % |slots|].inhabited && slots[op % |slots|].op == op
    && slots[op % |slots|].header.Some?
  }

  /** The header of `op`: the checkpoint's own, or the one its slot holds. */
  function HeaderOf(slots: seq<Slot>, checkpoint: Header, op: nat): (h: Header) {
    if op > checkpoint.op && SlotHolds(slots, op) then slots[op % |slots|].header.value else checkpoint
  }

  /** `op` is present and names the header before it as its parent. */
  predicate Linked(slots: seq<Slot>, checkpoint: Header, op: nat) {
    && op > checkpoint.op && SlotHolds(slots, op)
    && HeaderOf(slots, checkpoint, op).parent == HeaderOf(slots, checkpoint, op - 1).checksum
  }

  /** Every op from the checkpoint up to `head` is present and hash-linked. */
  predicate Chained(slots: seq<Slot>, checkpoint: Header, head: nat) {
    head >= checkpoint.op && forall op :: checkpoint.op < op <= head ==> Linked(slots, checkpoint, op)
  }

  function FaultyUpTo(decisions: seq<Decision>, n: nat): (r: nat)
    requires n <= |decisions|
  {
    if n == 0 then 0 else FaultyUpTo(decisions, n - 1) + if decisions[n - 1].RemoteRepair? then 1 else 0
  }

  lemma {:induction false} FaultyCounted(decisions: seq<Decision>, n: nat)
    requires n <= |decisions|
    ensures FaultyUpTo(decisions, n) == 0 <==> forall i :: 0 <= i < n ==> !decisions[i].RemoteRepair?
  {
    if n > 0 { FaultyCounted(decisions, n - 1); }
  }

  /** The scan for the highest op seen anywhere is a maximum over the readable copies. */
  lemma {:induction false} UntrustedIsMaximum(headers: seq<Copy>, prepares: seq<Copy>, checkpoint: nat, n: nat)
    requires n <= |headers| == |prepares|
    ensures var m := UntrustedUpTo(headers, prepares, checkpoint, n);
      && m >= checkpoint
      && (forall i :: 0 <= i < n ==> (headers[i].Ordinary? ==> headers[i].header.op <= m))
      && (forall i :: 0 <= i < n ==> (prepares[i].Ordinary? ==> prepares[i].header.op <= m))
      && (m == checkpoint || exists i :: 0 <= i < n && m in {CopyOp(headers[i], 0), CopyOp(prepares[i], 0)})
  {
    if n > 0 {
      UntrustedIsMaximum(headers, prepares, checkpoint, n - 1);
      var m := UntrustedUpTo(headers, prepares, checkpoint, n);
      var before := UntrustedUpTo(headers, prepares, checkpoint, n - 1);
      if m != before {
        assert m in {CopyOp(headers[n - 1], 0), CopyOp(prepares[n - 1], 0)};
      } else if m != checkpoint {
        var i :| 0 <= i < n - 1 && m in {CopyOp(headers[i], 0), CopyOp(prepares[i], 0)};
        assert 0 <= i < n;
      }
    }
  }

  /** The decision for every slot. */
  function Decisions(layout: JournalWindow.Layout, headers: seq<Copy>, prepares: seq<Copy>, checkpoint: nat,
                     installed: Installed): (d: seq<Decision>)
    requires JournalWindow.PrepareMaximum(layout, checkpoint).Some? && |headers| == |prepares|
    ensures |d| == |headers|
  {
    var untrustedMax := UntrustedUpTo(headers, prepares, checkpoint, |headers|);
    var prepareMax := JournalWindow.PrepareMaximum(layout, checkpoint).value;
    seq(|headers|, i requires 0 <= i < |headers| =>
      Classify(headers[i], prepares[i], Context(i, layout.journalSlots, checkpoint, prepareMax, untrustedMax, installed)))
  }

  predicate Repairs(d: seq<Decision>) {
    LocalRepair in d || Truncate in d
  }

  /** Slots and ring are what the decisions make of the two copies. */
  predicate Rebuilt(d: seq<Decision>, headers: seq<Copy>, prepares: seq<Copy>, slots: seq<Slot>, ring: seq<Copy>) {
    && |d| == |headers| == |prepares| == |slots| == |ring|
    && (forall i :: 0 <= i < |slots| ==> slots[i] == SlotAfter(d[i], prepares[i], i))
    && (forall i :: 0 <= i < |ring| ==> ring[i] == RingAfter(d[i], headers[i], prepares[i]))
  }

  /** The reported head ends the longest hash-linked run of recovered ops above the checkpoint. */
  predicate IsReport(r: Report, d: seq<Decision>, slots: seq<Slot>, checkpoint: Header) {
    && Chained(slots, checkpoint, r.headOp) && r.head == HeaderOf(slots, checkpoint, r.headOp)
    && !Linked(slots, checkpoint, r.headOp + 1)
    && r.faulty == FaultyUpTo(d, |d|)
  }

  /** The first pass of `Recover`: the highest op any readable copy names. */
  method Scan(headers: seq<Copy>, prepares: seq<Copy>, checkpoint: nat) returns (untrustedMax: nat)
    requires |headers| == |prepares|
    ensures untrustedMax == UntrustedUpTo(headers, prepares, checkpoint, |headers|)
  {
    untrustedMax := checkpoint;
    var i := 0;
    while i < |headers|
      invariant 0 <= i <= |headers|
      invariant untrustedMax == UntrustedUpTo(headers, prepares, checkpoint, i)
    {
      if headers[i].Ordinary? && headers[i].header.op > untrustedMax {
        untrustedMax := headers[i].header.op;
      }
      if prepares[i].Ordinary? && prepares[i].header.op > untrustedMax {
        untrustedMax := prepares[i].header.op;
      }
      i := i + 1;
    }
  }

  /** Only a readable prepare is ever called clean or locally repairable. */
  lemma RecoveredIsReadable(header: Copy, prepare: Copy, x: Context)
    requires Classify(header, prepare, x) in {Clean, LocalRepair}
    ensures prepare.Ordinary?
  {
  }

  method RebuildSlot(decision: Decision, header: Copy, prepare: Copy, i: nat)
    returns (slot: Slot, ring: Copy, repaired: bool)
    requires !decision.Fail? && (decision in {Clean, LocalRepair} ==> prepare.Ordinary?)
    ensures slot == SlotAfter(decision, prepare, i) && ring == RingAfter(decision, header, prepare)
    ensures repaired <==> decision in {LocalRepair, Truncate}
  {
    ring, repaired := header, false;
    match decision
    case Clean =>
      slot := Slot(Some(prepare.header), prepare.header.op, true, false, false);
    case CleanEmpty =>
      slot := Empty(i);
    case LocalRepair =>
      slot := Slot(Some(prepare.header), prepare.header.op, true, false, false);
      ring, repaired := prepare, true;
    case Truncate =>
      slot := Empty(i);
      ring, repaired := Reserved, true;
    case RemoteRepair =>
      slot := Empty(i).(dirty := true, faulty := true);
  }

  /** The second pass: every slot is rebuilt from its decision, or an impossible slot stops recovery. */
  method RebuildSlots(layout: JournalWindow.Layout, headers: seq<Copy>, prepares: seq<Copy>, checkpoint: nat,
                      untrustedMax: nat, installed: Installed)
    returns (impossible: bool, repairHeaders: bool, faulty: nat, slots: seq<Slot>, ring: seq<Copy>)
    requires JournalWindow.PrepareMaximum(layout, checkpoint).Some? && |headers| == |prepares|
    requires untrustedMax == UntrustedUpTo(headers, prepares, checkpoint, |headers|)
    ensures var d := Decisions(layout, headers, prepares, checkpoint, installed);
      && (impossible <==> Fail in d)
      && (!impossible ==> Rebuilt(d, headers, prepares, slots, ring) && (repairHeaders <==> Repairs(d))
                          && faulty == FaultyUpTo(d, |d|))
  {
    hide Classify, SlotAfter, RingAfter, UntrustedUpTo;
    impossible, repairHeaders, faulty := false, false, 0;
    slots, ring := [], [];
    var prepareMax := JournalWindow.PrepareMaximum(layout, checkpoint).value;
    ghost var d := Decisions(layout, headers, prepares, checkpoint, installed);
    while |slots| < |headers|
      invariant |slots| == |ring| <= |headers| == |d|
      invariant forall j :: 0 <= j < |slots| ==> !d[j].Fail?
      invariant forall j :: 0 <= j < |slots| ==> slots[j] == SlotAfter(d[j], prepares[j], j)
      invariant forall j :: 0 <= j < |ring| ==> ring[j] == RingAfter(d[j], headers[j], prepares[j])
      invariant repairHeaders <==> exists j :: 0 <= j < |slots| && d[j] in {LocalRepair, Truncate}
      invariant faulty == FaultyUpTo(d, |slots|)
    {
      var i := |slots|;
      var x := Context(i, layout.journalSlots, checkpoint, prepareMax, untrustedMax, installed);
      var decision := Classify(headers[i], prepares[i], x);
      assert decision == d[i];
      if decision.Fail? {
        impossible := true;
        return;
      }
      if decision in {Clean, LocalRepair} {
        RecoveredIsReadable(headers[i], prepares[i], x);
      }
      var slot, copy, repaired := RebuildSlot(decision, headers[i], prepares[i], i);
      slots, ring := slots + [slot], ring + [copy];
      repairHeaders := repairHeaders || repaired;
      if decision.RemoteRepair? {
        faulty := faulty + 1;
      }
    }
  }

  /** A rebuilt slot holds nothing newer than the newest readable copy. */
  lemma RebuiltBounded(layout: JournalWindow.Layout, headers: seq<Copy>, prepares: seq<Copy>, checkpoint: nat,
                       installed: Installed, slots: seq<Slot>, ring: seq<Copy>)
    requires JournalWindow.PrepareMaximum(layout, checkpoint).Some? && |headers| == |prepares|
    requires Rebuilt(Decisions(layout, headers, prepares, checkpoint, installed), headers, prepares, slots, ring)
    ensures forall i :: 0 <= i < |slots| ==>
      (slots[i].inhabited ==> slots[i].header.Some? && slots[i].op <= UntrustedUpTo(headers, prepares, checkpoint, |headers|))
  {
    hide Classify;
    UntrustedIsMaximum(headers, prepares, checkpoint, |headers|);
  }

  /** The last pass: walk up from the checkpoint while the next op is present and names its parent. */
  method ExtendHead(slots: seq<Slot>, checkpoint: Header, untrustedMax: nat) returns (headOp: nat, head: Header)
    requires |slots| > 0 && untrustedMax >= checkpoint.op
    requires forall i :: 0 <= i < |slots| ==> (slots[i].inhabited ==> slots[i].header.Some? && slots[i].op <= untrustedMax)
    ensures Chained(slots, checkpoint, headOp) && head == HeaderOf(slots, checkpoint, headOp)
    ensures !Linked(slots, checkpoint, headOp + 1)
  {
    headOp, head := checkpoint.op, checkpoint;
    var next := headOp + 1;
    while next <= untrustedMax
      invariant next == headOp + 1 && headOp <= untrustedMax
      invariant Chained(slots, checkpoint, headOp) && head == HeaderOf(slots, checkpoint, headOp)
      decreases untrustedMax + 1 - next
    {
      var recovered := slots[next % |slots|];
      if !recovered.inhabited || recovered.op != next || recovered.header.value.parent != head.checksum {
        break;
      }
      head := recovered.header.value;
      headOp := next;
      next := next + 1;
    }
  }

  /** The run reaches exactly the ops up to its head. */
  lemma ChainedUpTo(slots: seq<Slot>, checkpoint: Header, headOp: nat, op: nat)
    requires Chained(slots, checkpoint, headOp) && !Linked(slots, checkpoint, headOp + 1)
    ensures op > headOp <==> op > checkpoint.op && !Chained(slots, checkpoint, op)
  {
    hide Linked;
  }

  class WAL {
    const layout: JournalWindow.Layout
    const memberCount: nat
    var headers: seq<Copy>
    var prepares: seq<Copy>
    var unsyncedHeaders: map<nat, Copy>
    var unsyncedPrepares: map<nat, Copy>
    var headerRing: seq<Copy>
    var slots: seq<Slot>
    var sequence: Io

    ghost function State(checkpoint: nat, installed: Installed, held: map<nat, Header>, unsettled: map<nat, set<Header>>)
      : (s: Journal.State)
      reads this
    {
      Journal.State(layout, headers, prepares, unsyncedHeaders, unsyncedPrepares, headerRing, slots, sequence,
                    checkpoint, installed, held, unsettled)
    }

    ghost predicate Valid(checkpoint: nat)
      reads this
    {
      Shaped(State(checkpoint, Installed(0, 0), map[], map[]))
    }

    constructor (layout: JournalWindow.Layout, memberCount: nat)
      requires JournalWindow.Valid(layout) && memberCount > 0
      ensures this.layout == layout && this.memberCount == memberCount
      ensures |slots| == |headerRing| == layout.journalSlots && sequence.Idle?
      ensures forall i :: 0 <= i < |slots| ==> slots[i] == Empty(i) && headerRing[i] == Reserved
    {
      this.layout := layout;
      this.memberCount := memberCount;
      headers := seq(layout.journalSlots, _ => Reserved);
      prepares := seq(layout.journalSlots, _ => Reserved);
      unsyncedHeaders := map[];
      unsyncedPrepares := map[];
      headerRing := seq(layout.journalSlots, _ => Reserved);
      slots := seq(layout.journalSlots, i requires 0 <= i => Empty(i));
      sequence := Idle;
    }

    /** `beginAppend`: refused exactly while another append is in flight or the slot guards a newer op. */
    method BeginAppend(h: Header, reusableThrough: nat, ghost installed: Installed, ghost held: map<nat, Header>,
                        ghost unsettled: map<nat, set<Header>>)
      returns (r: Result<nat>)
      requires Valid(reusableThrough) && JournalWindow.InWindow(layout, reusableThrough, h.op) && !sequence.Recovering?
      modifies this
      ensures r.Ok? <==> old(Enabled(State(reusableThrough, installed, held, unsettled), Begin(h)))
      ensures |slots| == |old(slots)| > 0
      ensures var slot := old(slots)[h.op % |slots|];
        && (r == Err(Backpressure) <==> old(sequence).Appending?)
        && (r == Err(SlotUnsafe) <==>
              !old(sequence).Appending? && slot.inhabited && slot.op != h.op && slot.op > reusableThrough)
        && (r.Ok? || r == Err(Backpressure) || r == Err(SlotUnsafe))
      ensures r.Ok? ==> r.value == h.op % |slots| && slots[r.value].header == Some(h) && slots[r.value].dirty
      ensures r.Ok? ==>
        var q := Apply(old(State(reusableThrough, installed, held, unsettled)), Begin(h));
        State(reusableThrough, installed, q.held, q.unsettled) == q
      ensures r.Err? ==>
        State(reusableThrough, installed, held, unsettled) == old(State(reusableThrough, installed, held, unsettled))
    {
      if sequence.Appending? {
        return Err(Backpressure);
      }
      var index := h.op % |slots|;
      var slot := slots[index];
      if slot.inhabited && slot.op != h.op && slot.op > reusableThrough {
        return Err(SlotUnsafe);
      }
      slots := slots[index := Slot(Some(h), h.op, slot.inhabited, true, slot.faulty)];
      sequence := Appending(h, 0);
      return Ok(index);
    }

    method Sync()
      modifies this
      ensures headers == Synced(old(headers), old(unsyncedHeaders)) && prepares == Synced(old(prepares), old(unsyncedPrepares))
      ensures unsyncedHeaders == map[] == unsyncedPrepares
      ensures headerRing == old(headerRing) && slots == old(slots) && sequence == old(sequence)
    {
      headers := Synced(headers, unsyncedHeaders);
      prepares := Synced(prepares, unsyncedPrepares);
      unsyncedHeaders := map[];
      unsyncedPrepares := map[];
    }

    /** The sector of the header ring that holds slot `index`. */
    method WriteSector(index: nat)
      requires |headerRing| == |slots| && index < |slots|
      modifies this
      ensures headerRing == old(headerRing) && slots == old(slots) && sequence == old(sequence)
      ensures unsyncedHeaders == old(unsyncedHeaders) +
        map j | 0 <= j < |slots| && j / HEADERS_PER_SECTOR == index / HEADERS_PER_SECTOR :: headerRing[j]
      ensures headers == old(headers) && prepares == old(prepares) && unsyncedPrepares == old(unsyncedPrepares)
    {
      var first := index - index % HEADERS_PER_SECTOR;
      var end := if first + HEADERS_PER_SECTOR <= |slots| then first + HEADERS_PER_SECTOR else |slots|;
      var j := first;
      var written: map<nat, Copy> := map[];
      while j < end
        invariant first <= j <= end
        invariant forall k: nat :: k in written <==> first <= k < j
        invariant forall k :: k in written ==> written[k] == headerRing[k]
      {
        written := written[j := headerRing[j]];
        j := j + 1;
      }
      unsyncedHeaders := unsyncedHeaders + written;
      assert forall k: nat :: first <= k < end <==> k < |slots| && k / HEADERS_PER_SECTOR == index / HEADERS_PER_SECTOR;
    }

    /** `advanceAppend`: one physical effect, then the bookkeeping that follows it. */
    method AdvanceAppend(ghost checkpoint: nat, ghost installed: Installed, ghost held: map<nat, Header>,
                        ghost unsettled: map<nat, set<Header>>)
      requires Valid(checkpoint) && Enabled(State(checkpoint, installed, held, unsettled), Advance)
      modifies this
      ensures var q := Apply(old(State(checkpoint, installed, held, unsettled)), Advance);
        State(checkpoint, installed, q.held, q.unsettled) == q
    {
      var h := sequence.header;
      var index := h.op % |slots|;
      match sequence.step
      case 0 =>
        unsyncedPrepares := unsyncedPrepares[index := Ordinary(h)];
        sequence := Appending(h, 1);
      case 1 =>
        Sync();
        headerRing := headerRing[index := Ordinary(h)];
        sequence := Appending(h, 2);
      case 2 =>
        WriteSector(index);
        sequence := Appending(h, 3);
      case _ =>
        Sync();
        slots := slots[index := Slot(Some(h), h.op, true, false, false)];
        sequence := Idle;
    }

    /** `DiscardAfter`: empties every slot above the installed head. */
    method DiscardAfter(head: nat, ghost checkpoint: nat, ghost installed: Installed, ghost held: map<nat, Header>,
                        ghost unsettled: map<nat, set<Header>>)
      requires Valid(checkpoint) && sequence.Idle?
      modifies this
      ensures var q := Apply(old(State(checkpoint, installed, held, unsettled)), Discard(head));
        State(checkpoint, installed, q.held, q.unsettled) == q
      ensures |slots| == |headerRing| == |old(slots)| == |old(headerRing)|
      ensures forall i :: 0 <= i < |slots| ==>
        if old(slots)[i].inhabited && old(slots)[i].op > head
        then slots[i] == Slot(None, i, false, false, false) && headerRing[i] == Reserved
        else slots[i] == old(slots)[i] && headerRing[i] == old(headerRing)[i]
    {
      hide JournalWindow.Valid, JournalWindow.PrepareMaximum, JournalWindow.InWindow;
      var i := 0;
      ghost var before, ring := slots, headerRing;
      while i < |slots|
        invariant 0 <= i <= |slots| == |before| == |headerRing| == |ring|
        invariant headers == old(headers) && prepares == old(prepares) && sequence == old(sequence)
        invariant unsyncedHeaders == old(unsyncedHeaders) && unsyncedPrepares == old(unsyncedPrepares)
        invariant forall j :: 0 <= j < i ==> slots[j] == if before[j].inhabited && before[j].op > head then Empty(j) else before[j]
        invariant forall j :: 0 <= j < i ==> headerRing[j] == if before[j].inhabited && before[j].op > head then Reserved else ring[j]
        invariant forall j :: i <= j < |slots| ==> slots[j] == before[j] && headerRing[j] == ring[j]
      {
        if slots[i].inhabited && slots[i].op > head {
          slots := slots[i := Empty(i)];
          headerRing := headerRing[i := Reserved];
        }
        i := i + 1;
      }
    }

    /**
      `Recover`: rebuilds every slot, rewrites and syncs the header ring if any
      slot changed it, and reports the head of the longest hash-linked run
      above the checkpoint.
     */
    method Recover(checkpoint: Header, commitMax: nat, installed: Installed) returns (r: Result<Report>)
      requires Valid(checkpoint.op) && unsyncedHeaders == map[] == unsyncedPrepares
      modifies this
      ensures prepares == old(prepares) && |slots| == |headerRing| == |headers| == |old(headers)|
      ensures var d := Decisions(layout, old(headers), prepares, checkpoint.op, installed);
        && (r == Err(Impossible) <==> Fail in d)
        && (r == Err(UncertainSolo) <==> Fail !in d && RemoteRepair in d && memberCount == 1)
        && (Fail !in d ==> Rebuilt(d, old(headers), prepares, slots, headerRing))
        && (r.Ok? ==> headers == (if Repairs(d) then headerRing else old(headers)))
        && (r.Ok? ==> IsReport(r.value, d, slots, checkpoint))
        && (r == Err(Recovery) <==>
              Fail !in d && RemoteRepair !in d && commitMax > checkpoint.op && !Chained(slots, checkpoint, commitMax))
        && (r.Err? ==> r.error in {Impossible, UncertainSolo, Recovery})
        && (r.Ok? ==> r.value.untrustedMax == UntrustedUpTo(old(headers), prepares, checkpoint.op, |prepares|))
    {
      hide Classify, SlotAfter, RingAfter, UntrustedUpTo, FaultyUpTo, Linked, Chained, HeaderOf;
      ghost var d := Decisions(layout, headers, prepares, checkpoint.op, installed);
      var untrustedMax := Scan(headers, prepares, checkpoint.op);
      UntrustedIsMaximum(headers, prepares, checkpoint.op, |headers|);
      var impossible, repairHeaders, faulty, rebuilt, ring :=
        RebuildSlots(layout, headers, prepares, checkpoint.op, untrustedMax, installed);
      if impossible {
        return Err(Impossible);
      }
      slots, headerRing := rebuilt, ring;
      FaultyCounted(d, |d|);
      if faulty != 0 && memberCount == 1 {
        return Err(UncertainSolo);
      }
      if repairHeaders {
        headers := headerRing;
      }
      RebuiltBounded(layout, old(headers), prepares, checkpoint.op, installed, slots, headerRing);
      var headOp, head := ExtendHead(slots, checkpoint, untrustedMax);
      ChainedUpTo(slots, checkpoint, headOp, commitMax);
      if commitMax > headOp && faulty == 0 {
        return Err(Recovery);
      }
      return Ok(Report(headOp, head, faulty, untrustedMax));
    }
  }
}
