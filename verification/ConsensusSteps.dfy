/** Every guarded step keeps the invariant. */
module ConsensusSteps {
  import opened Chains
  import opened Consensus
  import opened ConsensusInvariant
  import opened ConsensusFacts
  import opened ConsensusFrame
  import opened ConsensusLocal
  import opened ConsensusRepair

  // ---- normal operation ------------------------------------------------------------

  /** The primary's log while it extends it. */
  lemma CreateEvolves(p: Params, s: Cluster, s': Cluster, i: nat, c: Chain)
    requires ValidParams(p) && Inv(p, s) && OnlyReplica(p, s, s', i)
    requires s'.rs[i].durableView == s.rs[i].durableView && s'.rs[i].logView == s.rs[i].logView
    requires var v := s.rs[i].view;
      && v in s.logs && IsParent(s.logs[v], c) && ViewOf(c) == v
      && s'.logs == s.logs[v := c] && s'.canon == s.canon && s'.selections == s.selections
    requires s'.msgs == s.msgs + {Prepare(c)}
    ensures Evolves(p, s, s') && Known(s', c)
  {
    hide Inv;
    var v := s.rs[i].view;
    assert s.logs[v] <= c && s'.logs[v] == c;
    assert LogsGrow(s, s') && ViewsGrow(p, s, s') && AcksGrow(p, s, s');
    forall w: nat, h: Chain, q: nat | InLog(s', w, h) && !InLog(s, w, h) ensures !Acked(s', w, q, h) {
      assert w == v && h == c;
      assert forall k :: PrepareOK(w, q, k) in s'.msgs ==> PrepareOK(w, q, k) in s.msgs;
      UnknownUnacked(p, s, s', w, q, h);
    }
  }

  /** Nobody has acknowledged a header of a view that is not in the view's log. */
  lemma UnknownUnacked(p: Params, s: Cluster, s': Cluster, w: nat, q: nat, h: Chain)
    requires ValidParams(p) && Inv(p, s) && !InLog(s, w, h) && (w !in s.logs || ViewOf(h) == w)
    requires forall k :: PrepareOK(w, q, k) in s'.msgs ==> PrepareOK(w, q, k) in s.msgs
    ensures !Acked(s', w, q, h)
  {
    hide ReplicaOK, InvLogs;
    if Acked(s', w, q, h) {
      var k :| PrepareOK(w, q, k) in s'.msgs && h <= k;
      assert MessageOK(p, s, PrepareOK(w, q, k));
      KnownPrefix(p, s, k, h);
      assert false;
    }
  }

  lemma CreateLogs(p: Params, s: Cluster, s': Cluster, v: nat, c: Chain)
    requires ValidParams(p) && Evolves(p, s, s') && InvLogs(p, s) && v in s.logs
    requires s'.logs == s.logs[v := c] && s'.canon == s.canon && s'.selections == s.selections
    requires IsParent(s.logs[v], c) && ViewOf(c) == v && Known(s', c)
    requires CommitOf(c) < |c| <= CommitOf(c) + p.pipelineMax && ChosenBy(p, s', v, c[..CommitOf(c)])
    ensures InvLogs(p, s')
  {
    hide InvLogs, LogOK, Evolves, Sound, Known, ChosenBy, LogsGrow;
    EvolvesViews(p, s, s', 0);
    LogsParts(p, s, v);
    CreateLog(p, s, s', v, c);
    OtherLogs(p, s, s', v);
    assert s'.logs.Keys == s.logs.Keys;
    LogsWhole(p, s');
  }

  /** The logs of all views but one, and the selections, carry over. */
  lemma OtherLogs(p: Params, s: Cluster, s': Cluster, v: nat)
    requires ValidParams(p) && |s.rs| == |s'.rs| == p.n
    requires forall u :: u in s'.logs && u != v ==> u in s.logs && s'.logs[u] == s.logs[u]
    requires s'.selections == s.selections && Evolves(p, s, s') && InvLogs(p, s)
    ensures forall u :: u in s'.logs && u != v ==> LogOK(p, s', u)
    ensures forall u, t :: (u, t) in s'.selections ==> Sound(p, s', u, t)
  {
    hide InvLogs, LogOK, Evolves, Sound;
    forall u | u in s'.logs && u != v ensures LogOK(p, s', u) {
      LogsParts(p, s, u);
      LogGrows(p, s, s', u);
    }
    forall u, t | (u, t) in s'.selections ensures Sound(p, s', u, t) {
      SelectionParts(p, s, u, t);
      SoundGrows(p, s, s', u, t);
    }
  }

  lemma LogsParts(p: Params, s: Cluster, v: nat)
    requires ValidParams(p) && |s.rs| == p.n && InvLogs(p, s)
    ensures 0 in s.logs && s.logs.Keys == s.canon.Keys && (v in s.logs ==> v in s.canon && LogOK(p, s, v))
  {
    hide LogOK, Sound;
  }

  lemma SelectionParts(p: Params, s: Cluster, v: nat, t: Chain)
    requires ValidParams(p) && |s.rs| == p.n && InvLogs(p, s) && (v, t) in s.selections
    ensures Sound(p, s, v, t)
  {
    hide LogOK, Sound;
  }

  lemma LogsWhole(p: Params, s: Cluster)
    requires ValidParams(p) && |s.rs| == p.n && 0 in s.logs && s.logs.Keys == s.canon.Keys
    requires forall v :: v in s.logs ==> LogOK(p, s, v)
    requires forall v, t :: (v, t) in s.selections ==> Sound(p, s, v, t)
    ensures InvLogs(p, s)
  {
    hide LogOK, Sound;
  }

  lemma CreateLog(p: Params, s: Cluster, s': Cluster, v: nat, c: Chain)
    requires ValidParams(p) && Evolves(p, s, s') && |s.rs| == p.n && v in s.logs && v in s.canon && LogOK(p, s, v)
    requires s'.logs == s.logs[v := c] && s'.canon == s.canon
    requires IsParent(s.logs[v], c) && ViewOf(c) == v && Known(s', c)
    requires CommitOf(c) < |c| <= CommitOf(c) + p.pipelineMax && ChosenBy(p, s', v, c[..CommitOf(c)])
    ensures LogOK(p, s', v)
  {
    hide Evolves, Sound, EntryOK, Known, ChosenBy;
    EvolvesViews(p, s, s', Primary(p, v));
    var l := s.logs[v];
    assert l <= c && |c| == |l| + 1;
    forall k: nat | k < |c| ensures EntryOK(p, s', c, k) {
      if k < |l| {
        EntryGrows(p, s, s', l, k);
        EntryLonger(p, s', l, c, k, v);
      } else {
        assert |c| > 1 ==> c[|c| - 2] == l[|l| - 1];
        LastEntry(p, s', c, v);
      }
    }
    SoundGrows(p, s, s', v, s.canon[v]);
    PrefixTrans(s.canon[v], l, c);
  }

  lemma EvolvesViews(p: Params, s: Cluster, s': Cluster, q: nat)
    requires Evolves(p, s, s') && q < p.n
    ensures |s.rs| == |s'.rs| == p.n
    ensures s.rs[q].logView <= s'.rs[q].logView && s.rs[q].durableView <= s'.rs[q].durableView
  {
  }

  lemma EntryLonger(p: Params, s: Cluster, l: Chain, c: Chain, k: nat, v: nat)
    requires l <= c && k < |l| && EntryOK(p, s, l, k) && ViewOf(l) <= v == ViewOf(c)
    ensures EntryOK(p, s, c, k)
  {
    hide Known, ChosenBy;
    assert l[..k + 1] == c[..k + 1] && l[k] == c[k] && l[..l[k].commit] == c[..c[k].commit];
    assert k > 0 ==> l[k - 1] == c[k - 1];
  }

  lemma LastEntry(p: Params, s: Cluster, c: Chain, v: nat)
    requires |c| > 0 && ViewOf(c) == v && Known(s, c) && (|c| > 1 ==> c[|c| - 2].view <= v)
    requires CommitOf(c) < |c| <= CommitOf(c) + p.pipelineMax && ChosenBy(p, s, v, c[..CommitOf(c)])
    ensures EntryOK(p, s, c, |c| - 1)
  {
    hide Known, ChosenBy;
    assert c[..|c| - 1 + 1] == c;
  }

  lemma PrimaryFacts(p: Params, s: Cluster, i: nat)
    requires ValidParams(p) && Inv(p, s) && i < p.n
    requires s.rs[i].status == Normal && Primary(p, s.rs[i].view) == i
    ensures PrimaryOK(p, s, s.rs[i]) && Live(s.rs[i]) && s.rs[i].view == s.rs[i].logView
    ensures s.rs[i].commitMin <= s.rs[i].commitMax <= |s.rs[i].head| && ReplicaOK(p, s, i, s.rs[i])
    ensures s.rs[i].durableView == s.rs[i].view
  {
    hide InvLogs, InvMessages, Known, ChosenBy, Legit, Stored, OwedDurable, OwedClean, CommitKnown, DiskOK;
    assert ReplicaOK(p, s, i, s.rs[i]);
  }

  lemma StepCreate(p: Params, s: Cluster, i: nat, body: int)
    requires ValidParams(p) && Inv(p, s) && Enabled(p, s, CreatePrepare(i, body))
    ensures Inv(p, Apply(p, s, CreatePrepare(i, body)))
  {
    hide Inv, InvLogs, InvMessages, ReplicaOK, Evolves, Known, ChosenBy, MessageOK, Bystanders, AcksOnlyFrom;
    var r := s.rs[i];
    var c := r.head + [Entry(r.view, r.commitMin, body)];
    var s' := Apply(p, s, CreatePrepare(i, body));
    PrimaryFacts(p, s, i);
    InvParts(p, s, i);
    assert IsParent(r.head, c) && s'.rs[i] == r.(head := c, dirty := r.dirty + {|c|}) && OnlyReplica(p, s, s', i);
    CreateEvolves(p, s, s', i, c);
    CreateCommit(p, s, s', r, c);
    CreateLogs(p, s, s', r.view, c);
    CreateLocal(p, s, s', i, r, s'.rs[i], c);
    CreateBystanders(p, s, s', i);
    PrepareMessage(p, s', c);
    Assemble(p, s, s', i);
  }

  lemma CreateCommit(p: Params, s: Cluster, s': Cluster, r: Replica, c: Chain)
    requires Evolves(p, s, s') && PrimaryOK(p, s, r) && r.commitMin <= r.commitMax
    requires IsParent(r.head, c) && CommitOf(c) == r.commitMin
    ensures ChosenBy(p, s', r.view, c[..CommitOf(c)])
    ensures r.view in s'.logs && s'.logs[r.view] == c ==> PrimaryOK(p, s', r.(head := c))
  {
    hide Evolves, ChosenBy;
    assert r.head <= c;
    ChosenByPrefix(p, s, r.view, r.head[..r.commitMax], c[..CommitOf(c)]);
    ChosenByGrows(p, s, s', r.view, r.view, c[..CommitOf(c)]);
    ChosenByGrows(p, s, s', r.view, r.view, r.head[..r.commitMax]);
    assert c[..r.commitMax] == r.head[..r.commitMax];
  }

  lemma CreateLocal(p: Params, s: Cluster, s': Cluster, i: nat, r: Replica, q: Replica, c: Chain)
    requires q == r.(head := c, dirty := r.dirty + {|c|})
    requires ValidParams(p) && |s.rs| == |s'.rs| == p.n && s'.msgs == s.msgs + {Prepare(c)}
    requires r.status == Normal && Live(r) && r.view == r.logView == r.durableView && Primary(p, r.view) == i
    requires IsParent(r.head, c) && Known(s', c) && ViewOf(c) == r.view && PrimaryOK(p, s', r.(head := c))
    requires Evolves(p, s, s') && InvLogs(p, s) && ReplicaOK(p, s, i, r)
    ensures ReplicaOK(p, s', i, q)
  {
    hide InvLogs, ReplicaOK, Evolves, Known, PrimaryOK;
    var g := r.(status := RecoveringHead);
    IdleStatus(p, s, i, r, g);
    ReplicaGrows(p, s, s', i, g);
    PrimarySame(p, s', r.(head := c), g.(head := c));
    AcceptLocal(p, s', i, g, c);
    assert g.(status := Normal, head := c, dirty := g.dirty + {|c|}) == q;
  }

  lemma PrepareMessage(p: Params, s: Cluster, c: Chain)
    requires |s.rs| == p.n && c != [] && Known(s, c)
    ensures MessageOK(p, s, Prepare(c))
  {
  }

  lemma InvParts(p: Params, s: Cluster, i: nat)
    requires ValidParams(p) && Inv(p, s) && i < p.n
    ensures |s.rs| == p.n && InvLogs(p, s) && InvMessages(p, s) && ReplicaOK(p, s, i, s.rs[i])
  {
    hide InvLogs, InvMessages, ReplicaOK;
  }

  /** A live replica of its log view may be looked at as one that has stopped. */
  lemma IdleStatus(p: Params, s: Cluster, i: nat, r: Replica, g: Replica)
    requires ValidParams(p) && |s.rs| == p.n && ReplicaOK(p, s, i, r) && Live(r) && r.view == r.durableView
    requires g == r.(status := RecoveringHead)
    ensures ReplicaOK(p, s, i, g)
  {
    assert BasicOK(p, s, i, g);
    StatusLocal(p, s, i, r, g);
  }

  lemma CreateBystanders(p: Params, s: Cluster, s': Cluster, i: nat)
    requires ValidParams(p) && OnlyReplica(p, s, s', i) && Primary(p, s.rs[i].view) == i
    requires forall v :: v in s.logs && v != s.rs[i].view ==> v in s'.logs && s'.logs[v] == s.logs[v]
    requires forall m :: m in s'.msgs && m !in s.msgs ==> !m.PrepareOK? && !m.View?
    ensures Bystanders(p, s, s', i) && AcksOnlyFrom(s, s', i)
  {
  }

  lemma StepAccept(p: Params, s: Cluster, i: nat, c: Chain)
    requires ValidParams(p) && Inv(p, s) && Enabled(p, s, AcceptPrepare(i, c))
    ensures Inv(p, Apply(p, s, AcceptPrepare(i, c)))
  {
    hide Inv, InvLogs, ReplicaOK, InvMessages, MessageOK, Known;
    var r := s.rs[i];
    var s' := Apply(p, s, AcceptPrepare(i, c));
    InvParts(p, s, i);
    AckFacts(p, s, i, r);
    PrepareKnown(p, s, c);
    if Primary(p, r.view) == i {
      PrimaryFacts(p, s, i);
      KnownInView(p, s, c, r.view);
      assert false;
    }
    assert Quiet(p, s, s', i);
    QuietEvolves(p, s, s', i);
    KnownGrows(p, s, s', c);
    AcceptLocal(p, s', i, r, c);
    assert s'.rs[i] == r.(status := Normal, head := c, dirty := r.dirty + {|c|});
    QuietStep(p, s, s', i);
  }

  lemma PrepareKnown(p: Params, s: Cluster, c: Chain)
    requires |s.rs| == p.n && InvMessages(p, s) && Prepare(c) in s.msgs
    ensures c != [] && Known(s, c)
  {
    assert MessageOK(p, s, Prepare(c));
  }

  lemma KnownInView(p: Params, s: Cluster, c: Chain, v: nat)
    requires c != [] && Known(s, c) && ViewOf(c) == v
    ensures InLog(s, v, c)
  {
  }

  lemma StepWrite(p: Params, s: Cluster, i: nat, op: nat)
    requires ValidParams(p) && Inv(p, s) && Enabled(p, s, WriteDone(i, op))
    ensures Inv(p, Apply(p, s, WriteDone(i, op)))
  {
    hide Inv, InvLogs, ReplicaOK;
    var s' := Apply(p, s, WriteDone(i, op));
    assert Quiet(p, s, s', i);
    QuietEvolves(p, s, s', i);
    WriteLocal(p, s', i, s.rs[i], op);
    QuietStep(p, s, s', i);
  }

  // ---- acknowledgements -----------------------------------------------------------------

  lemma AckEvolves(p: Params, s: Cluster, s': Cluster, i: nat, c: Chain)
    requires ValidParams(p) && |s.rs| == p.n && i < p.n && s.rs[i].durableView == s.rs[i].view
    requires s' == s.(msgs := s.msgs + {PrepareOK(s.rs[i].view, i, c)}) && InvLogs(p, s)
    ensures Evolves(p, s, s') && InvLogs(p, s') && Bystanders(p, s, s', i) && AcksOnlyFrom(s, s', i)
  {
    hide InvLogs, NonceOK;
    assert LogsGrow(s, s') && ViewsGrow(p, s, s') && AcksGrow(p, s, s') && NewUnacked(s, s');
    LogsStay(p, s, s');
  }

  /** After the acknowledgement the replica owes what it owed and what it has just acknowledged. */
  lemma AckOwes(p: Params, s: Cluster, s': Cluster, i: nat, c: Chain, w: nat, h: Chain)
    requires ValidParams(p) && Inv(p, s) && i < p.n && Evolves(p, s, s')
    requires var r := s.rs[i];
      && r.status == Normal && s' == s.(msgs := s.msgs + {PrepareOK(r.view, i, c)}) && r.view == r.logView
    requires Owes(p, s', i, s.rs[i].logView, w, h)
    ensures Owes(p, s, i, s.rs[i].logView, w, h) || h <= c
  {
    hide Inv;
    assert InLog(s, w, h);
    ChoosableBack(p, s, s', w, h);
    if w == s.rs[i].logView && !(h <= c) {
      var k :| PrepareOK(w, i, k) in s'.msgs && h <= k;
    }
  }

  lemma AckHeld(r: Replica, h: Chain)
    requires h <= r.head && Above(r.dirty, |h|) && r.checkpoint <= r.head
    requires Stored(r, r.head, |r.head|, r.dirty) && Recent(r.head, Max(r.durableHead, |r.checkpoint|), r.logView)
    ensures Durable(r, h)
  {
    PrefixesComparable(h, r.checkpoint, r.head);
    forall x: nat | |r.checkpoint| < x <= |h| && x >= r.durableCommit ensures SlotHas(r, x, h[..x]) {
      assert SlotHas(r, x, r.head[..x]) && r.head[..x] == h[..x];
    }
  }

  lemma AckFacts(p: Params, s: Cluster, i: nat, r: Replica)
    requires ValidParams(p) && |s.rs| == p.n && ReplicaOK(p, s, i, r) && r.status == Normal
    ensures Live(r) && r.view == r.logView == r.durableView && Known(s, r.head) && r.view in s.logs
    ensures r.checkpoint <= r.head && Stored(r, r.head, |r.head|, r.dirty)
    ensures Recent(r.head, Max(r.durableHead, |r.checkpoint|), r.logView)
    ensures OwedDurable(p, s, i, r) && OwedClean(p, s, i, r)
  {
    hide Known, ChosenBy, Owes, Legit;
  }

  lemma AckLocal(p: Params, s: Cluster, s': Cluster, i: nat, op: nat)
    requires ValidParams(p) && |s.rs| == |s'.rs| == p.n && i < p.n
    requires s.rs[i].status == Normal && op <= |s.rs[i].head| && (forall k :: k in s.rs[i].dirty ==> k > op)
    requires s' == s.(msgs := s.msgs + {PrepareOK(s.rs[i].view, i, s.rs[i].head[..op])})
    requires Evolves(p, s, s') && Inv(p, s)
    ensures OwedDurable(p, s', i, s.rs[i]) && OwedClean(p, s', i, s.rs[i])
  {
    hide Inv, Owes, Durable, Evolves, ReplicaOK, InvLogs, InvMessages;
    var r := s.rs[i];
    InvParts(p, s, i);
    AckFacts(p, s, i, r);
    forall w: nat, h: Chain | Owes(p, s', i, r.logView, w, h)
      ensures Durable(r, h) && h <= r.head && Above(r.dirty, |h|)
    {
      AckOwes(p, s, s', i, r.head[..op], w, h);
      if !Owes(p, s, i, r.logView, w, h) {
        PrefixTrans(h, r.head[..op], r.head);
        AckHeld(r, h);
      }
    }
  }

  lemma StepAck(p: Params, s: Cluster, i: nat, op: nat)
    requires ValidParams(p) && Inv(p, s) && Enabled(p, s, Acknowledge(i, op))
    requires Guarded(p, s, Acknowledge(i, op))
    ensures Inv(p, Apply(p, s, Acknowledge(i, op)))
  {
    hide Inv, InvLogs, InvMessages, Evolves, ReplicaOK, OwedDurable, OwedClean, Known, Bystanders, AcksOnlyFrom;
    var r := s.rs[i];
    var c := r.head[..op];
    var s' := Apply(p, s, Acknowledge(i, op));
    InvParts(p, s, i);
    AckFacts(p, s, i, r);
    AckEvolves(p, s, s', i, c);
    AckLocal(p, s, s', i, op);
    AckWhole(p, s, s', i, r);
    KnownPrefix(p, s, r.head, c);
    KnownGrows(p, s, s', c);
    assert MessageOK(p, s', PrepareOK(r.view, i, c));
    Assemble(p, s, s', i);
  }

  lemma AckWhole(p: Params, s: Cluster, s': Cluster, i: nat, r: Replica)
    requires ValidParams(p) && Evolves(p, s, s') && InvLogs(p, s) && ReplicaOK(p, s, i, r) && r.status == Normal
    requires s'.logs == s.logs && OwedDurable(p, s', i, r) && OwedClean(p, s', i, r) && s.msgs <= s'.msgs
    ensures ReplicaOK(p, s', i, r)
  {
    AckFacts(p, s, i, r);
    assert |s'.rs| == p.n;
    hide InvLogs, Evolves, BasicOK, DiskOK, CommitKnown, OwedDurable, OwedClean, Legit, LiveOK, RepairOK, NonceOK,
         Stored, Known, Recent;
    BasicGrows(p, s, s', i, r);
    DiskGrows(p, s, s', r);
    CommitKnownGrows(p, s, s', r, r.durableCommit);
    LegitGrows(p, s, s', r.logView, r.durableView, r.durableView, r.head);
    LiveGrows(p, s, s', r);
    if r.nonce != 0 { AckNonce(p, s, s', i, r); }
  }

  lemma AckNonce(p: Params, s: Cluster, s': Cluster, i: nat, r: Replica)
    requires |s.rs| == p.n && |s'.rs| == p.n && NonceOK(p, s, i, r) && !r.faulty && s.msgs <= s'.msgs
    ensures NonceOK(p, s', i, r)
  {
  }
}
