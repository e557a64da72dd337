/** What a replica gets back from the write-ahead log after any run and any crash. */
module WalRuns {
  import opened Chains
  import opened Journal
  import opened JournalRuns
  import opened Wal

  /** The passes of `Recover` compute exactly the recovery step of the machine. */
  lemma RecoverIsStep(s: State, c: Crash, slots: seq<Slot>, ring: seq<Copy>)
    requires Enabled(s, CrashAndRecover(c))
    requires Rebuilt(Decisions(s.layout, HeadersAfter(s, c), PreparesAfter(s, c), s.checkpoint, s.installed),
                     HeadersAfter(s, c), PreparesAfter(s, c), slots, ring)
    ensures var q := Apply(s, CrashAndRecover(c));
      q.slots == slots && q.ring == ring && q.headers == HeadersAfter(s, c) && q.prepares == PreparesAfter(s, c)
  {
    hide Classify, SlotAfter, RingAfter, UntrustedUpTo;
    var headers, prepares := HeadersAfter(s, c), PreparesAfter(s, c);
    var d := Decisions(s.layout, headers, prepares, s.checkpoint, s.installed);
    forall i | 0 <= i < |headers|
      ensures d[i] == DecisionAt(s, headers, prepares, i)
    {
    }
  }

  /** The ops up to `head` are held, linked to each other, and both copies of each can be read. */
  predicate ReadableRun(s: State, c: Crash, checkpoint: Header, head: nat) {
    && Shaped(s) && LinkedRun(s.held, checkpoint, head)
    && forall op :: checkpoint.op < op <= head ==>
        HeadersAfter(s, c)[op % Slots(s)].Ordinary? && PreparesAfter(s, c)[op % Slots(s)].Ordinary?
  }

  lemma RunIsLinked(s: State, c: Crash, slots: seq<Slot>, ring: seq<Copy>, checkpoint: Header, head: nat, op: nat)
    requires s.checkpoint == checkpoint.op < op <= head && ReadableRun(s, c, checkpoint, head)
    requires Rebuilt(Decisions(s.layout, HeadersAfter(s, c), PreparesAfter(s, c), s.checkpoint, s.installed),
                     HeadersAfter(s, c), PreparesAfter(s, c), slots, ring)
    requires Inv(s)
    ensures SlotHolds(slots, op) && HeaderOf(slots, checkpoint, op) == s.held[op]
  {
    hide Inv, Classify, SlotAfter, RingAfter, HoldsOrLost, Enabled;
    RecoveryNeverFails(s, c);
    RecoverIsStep(s, c, slots, ring);
    HeldRecovers(s, c, op);
  }

  function Before(held: map<nat, Header>, checkpoint: Header, op: nat): (h: Header) {
    if op > 0 && op - 1 in held && op - 1 > checkpoint.op then held[op - 1] else checkpoint
  }

  predicate LinkedRun(held: map<nat, Header>, checkpoint: Header, head: nat) {
    forall op :: checkpoint.op < op <= head ==>
      && op in held
      && held[op].parent == Before(held, checkpoint, op).checksum
  }

  lemma HeadReached(slots: seq<Slot>, held: map<nat, Header>, checkpoint: Header, head: nat, reported: nat)
    requires LinkedRun(held, checkpoint, head) && reported >= checkpoint.op
    requires forall op :: checkpoint.op < op <= head ==> SlotHolds(slots, op) && HeaderOf(slots, checkpoint, op) == held[op]
    requires !Linked(slots, checkpoint, reported + 1)
    ensures reported >= head
  {
    if reported < head {
      var op := reported + 1;
      assert op - 1 == reported && op in held && HeaderOf(slots, checkpoint, op) == held[op];
      if reported > checkpoint.op {
        assert reported in held && HeaderOf(slots, checkpoint, reported) == held[reported];
      }
      assert HeaderOf(slots, checkpoint, reported) == Before(held, checkpoint, op);
      assert Linked(slots, checkpoint, op);
    }
  }

  /**
    If every op from the checkpoint to `head` completed its append, still
    stands, and can still be read, then the head that recovery reports is at or
    above it and the recovered headers there are the appended ones.
   */
  lemma ReadableRunRecovered(layout: JournalWindow.Layout, steps: seq<Step>, s: State, c: Crash,
                             slots: seq<Slot>, ring: seq<Copy>, checkpoint: Header, head: nat, r: Report)
    requires JournalWindow.Valid(layout) && JournalWindow.PrepareMaximum(layout, 0).Some?
    requires Run(Formatted(layout), steps, s) && s.checkpoint == checkpoint.op <= head
    requires ReadableRun(s, c, checkpoint, head)
    requires var d := Decisions(s.layout, HeadersAfter(s, c), PreparesAfter(s, c), s.checkpoint, s.installed);
      Rebuilt(d, HeadersAfter(s, c), PreparesAfter(s, c), slots, ring) && IsReport(r, d, slots, checkpoint)
    ensures r.headOp >= head
    ensures forall op :: checkpoint.op < op <= head ==> op in s.held && HeaderOf(slots, checkpoint, op) == s.held[op]
  {
    hide Inv, Decisions, Rebuilt, HeadersAfter, PreparesAfter, Linked, SlotHolds, HeaderOf, Enabled, Apply;
    FormattedInv(layout);
    RunKeeps(Formatted(layout), steps, s);
    forall op | checkpoint.op < op <= head
      ensures SlotHolds(slots, op) && HeaderOf(slots, checkpoint, op) == s.held[op]
    {
      RunIsLinked(s, c, slots, ring, checkpoint, head, op);
    }
    HeadReached(slots, s.held, checkpoint, head, r.headOp);
  }

  /** The slot of `op` holds `h`, which names `before` as its parent. */
  predicate Follows(slots: seq<Slot>, op: nat, before: Header, h: Header)
    requires |slots| > 0
  {
    var slot := slots[op % |slots|];
    slot.inhabited && slot.op == op && slot.header == Some(h) && h.parent == before.checksum
  }

  /** The headers from the checkpoint on: each is in its slot and names the one before it as its parent. */
  predicate IsChain(slots: seq<Slot>, checkpoint: Header, hs: seq<Header>) {
    && |slots| > 0 && |hs| > 0 && hs[0] == checkpoint
    && forall k :: 0 < k < |hs| ==> Follows(slots, checkpoint.op + k, hs[k - 1], hs[k])
  }

  lemma LinkedFollows(slots: seq<Slot>, checkpoint: Header, op: nat, before: Header, h: Header)
    requires |slots| > 0 && op > checkpoint.op && before == HeaderOf(slots, checkpoint, op - 1)
    ensures Follows(slots, op, before, h) ==> Linked(slots, checkpoint, op) && h == HeaderOf(slots, checkpoint, op)
    ensures Linked(slots, checkpoint, op) ==> Follows(slots, op, before, HeaderOf(slots, checkpoint, op))
  {
  }

  lemma ChainIs(slots: seq<Slot>, checkpoint: Header, hs: seq<Header>, k: nat)
    requires IsChain(slots, checkpoint, hs) && k < |hs|
    ensures hs[k] == HeaderOf(slots, checkpoint, checkpoint.op + k)
    ensures k > 0 ==> Linked(slots, checkpoint, checkpoint.op + k)
  {
    hide Linked, Follows;
    if k > 0 {
      ChainIs(slots, checkpoint, hs, k - 1);
      LinkedFollows(slots, checkpoint, checkpoint.op + k, hs[k - 1], hs[k]);
    }
  }

  lemma RunIsChain(slots: seq<Slot>, checkpoint: Header, head: nat) returns (gs: seq<Header>)
    requires Chained(slots, checkpoint, head) && |slots| > 0
    ensures |gs| == head - checkpoint.op + 1 && IsChain(slots, checkpoint, gs)
  {
    hide Linked, Follows;
    var n := head - checkpoint.op + 1;
    gs := seq(n, k requires 0 <= k < n => HeaderOf(slots, checkpoint, checkpoint.op + k));
    assert gs[0] == HeaderOf(slots, checkpoint, checkpoint.op + 0) == checkpoint;
    forall k | 0 < k < |gs|
      ensures Follows(slots, checkpoint.op + k, gs[k - 1], gs[k])
    {
      LinkedFollows(slots, checkpoint, checkpoint.op + k, gs[k - 1], gs[k]);
    }
  }

  /** The reported head is the last of such a chain, no chain is longer, and the faulty slots are counted. */
  lemma ReportIsRun(slots: seq<Slot>, d: seq<Decision>, checkpoint: Header, r: Report, hs: seq<Header>)
    requires IsReport(r, d, slots, checkpoint) && |slots| > 0
    ensures |hs| == r.headOp - checkpoint.op + 1 && IsChain(slots, checkpoint, hs) ==> hs[|hs| - 1] == r.head
    ensures IsChain(slots, checkpoint, hs) ==> |hs| <= r.headOp - checkpoint.op + 1
    ensures exists gs :: |gs| == r.headOp - checkpoint.op + 1 && IsChain(slots, checkpoint, gs)
    ensures r.faulty == |set i | 0 <= i < |d| && d[i] == RemoteRepair|
  {
    hide Linked, IsChain, HeaderOf;
    var gs := RunIsChain(slots, checkpoint, r.headOp);
    var n := |gs|;
    if IsChain(slots, checkpoint, hs) {
      if n < |hs| {
        ChainIs(slots, checkpoint, hs, n);
      } else if n == |hs| {
        ChainIs(slots, checkpoint, hs, n - 1);
      }
    }
    FaultySet(d, |d|);
    assert (set i | 0 <= i < |d| && d[i] == RemoteRepair) == set i | 0 <= i < |d| && i < |d| && d[i] == RemoteRepair;
  }

  lemma {:induction false} FaultySet(d: seq<Decision>, n: nat)
    requires n <= |d|
    ensures FaultyUpTo(d, n) == |set i | 0 <= i < |d| && i < n && d[i] == RemoteRepair|
  {
    var now := set i | 0 <= i < |d| && i < n && d[i] == RemoteRepair;
    if n > 0 {
      FaultySet(d, n - 1);
      var before := set i | 0 <= i < |d| && i < n - 1 && d[i] == RemoteRepair;
      assert now == if d[n - 1] == RemoteRepair then before + {n - 1} else before;
    } else {
      assert now == {};
    }
  }
}
