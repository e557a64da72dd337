/**
  When each step of the protocol can be taken and all that it changes, on the
  fields of the replica and the messages alone.
 */
module ConsensusFields {
  import opened Chains
  import opened Quorums
  import opened Selection
  import opened Consensus

  /** The cluster after replica `i` has become `r`. */
  function With(s: Cluster, i: nat, r: Replica): (q: Cluster)
    requires i < |s.rs|
  {
    s.(rs := s.rs[i := r])
  }

  /** The primary prepares while its pipeline has room; a backup takes the next prepare of its view. */
  lemma PrepareSteps(p: Params, s: Cluster, i: nat, body: int, c: Chain)
    requires ValidParams(p) && i < |s.rs| == p.n
    ensures var r := s.rs[i];
      Enabled(p, s, CreatePrepare(i, body)) <==> r.status == Normal && r.view % p.n == i && |r.head| < r.commitMin + p.pipelineMax
    ensures var r := s.rs[i];
      var d := r.head + [Entry(r.view, r.commitMin, body)];
      Enabled(p, s, CreatePrepare(i, body)) ==>
        Apply(p, s, CreatePrepare(i, body)) ==
          With(s, i, r.(head := d, dirty := r.dirty + {|d|})).(msgs := s.msgs + {Prepare(d)}, logs := s.logs[r.view := d])
    ensures var r := s.rs[i];
      Enabled(p, s, AcceptPrepare(i, c)) <==>
        && r.status == Normal && Prepare(c) in s.msgs && |c| == |r.head| + 1 && c[..|r.head|] == r.head
        && c[|r.head|].view == r.view && c[|r.head|].commit <= r.commitMin && |c| <= r.commitMin + p.pipelineMax
    ensures var r := s.rs[i];
      Enabled(p, s, AcceptPrepare(i, c)) ==>
        Apply(p, s, AcceptPrepare(i, c)) == With(s, i, r.(head := c, dirty := r.dirty + {|r.head| + 1}))
  {
  }

  /** A finished write makes its op clean; only clean ops are acknowledged, in normal operation. */
  lemma WriteSteps(p: Params, s: Cluster, i: nat, op: nat)
    requires ValidParams(p) && i < |s.rs| == p.n
    ensures var r := s.rs[i];
      Enabled(p, s, WriteDone(i, op)) <==> op in r.dirty && op <= |r.head|
    ensures var r := s.rs[i];
      Enabled(p, s, WriteDone(i, op)) ==>
        Apply(p, s, WriteDone(i, op)) == With(s, i, r.(disk := r.disk[op := Good(r.head[..op])], dirty := r.dirty - {op}))
    ensures var r := s.rs[i];
      Enabled(p, s, Acknowledge(i, op)) <==> r.status == Normal && 0 < op <= |r.head| && op !in r.dirty
    ensures var r := s.rs[i];
      Enabled(p, s, Acknowledge(i, op)) ==>
        Apply(p, s, Acknowledge(i, op)) == s.(msgs := s.msgs + {PrepareOK(r.view, i, r.head[..op])})
  {
  }

  /** The replicas that have acknowledged the chain in the view. */
  function Acknowledging(p: Params, s: Cluster, view: nat, c: Chain): (a: set<nat>) {
    set i: nat | i < p.n && PrepareOK(view, i, c) in s.msgs
  }

  /** Who may commit what: the primary with a replication quorum, a backup what it has learned, a repair what it proves. */
  lemma CommitSteps(p: Params, s: Cluster, i: nat, op: nat)
    requires ValidParams(p) && i < |s.rs| == p.n
    ensures var r := s.rs[i];
      Enabled(p, s, CommitOp(i, op)) <==>
        && r.commitMin < op <= |r.head| && op !in r.dirty
        && (|| (r.status == Normal && r.view % p.n == i && |Acknowledging(p, s, r.view, r.head[..op])| >= p.replication)
            || (r.status == Normal && r.view % p.n != i && op <= r.commitMax)
            || (r.repair.Repair? && r.repair.rebuilt && op <= r.repair.commit))
    ensures var r := s.rs[i];
      Enabled(p, s, CommitOp(i, op)) ==>
        Apply(p, s, CommitOp(i, op)) ==
          With(s, i, r.(commitMin := op, commitMax := if r.commitMax < op then op else r.commitMax))
          .(decided := s.decided + {r.head[..op]})
  {
    var r := s.rs[i];
    if op <= |r.head| {
      MembersAre(p.n);
      assert Acks(p, s, r.view, r.head[..op]) == Acknowledging(p, s, r.view, r.head[..op]);
    }
  }

  lemma {:induction false} MembersAre(n: nat)
    ensures forall i: nat :: i in Members(n) <==> i < n
  {
    if n > 0 {
      MembersAre(n - 1);
    }
  }

  /** The primary announces what it has committed, and a backup learns it unless its log says otherwise. */
  lemma LearnSteps(p: Params, s: Cluster, i: nat, c: Chain)
    requires ValidParams(p) && i < |s.rs| == p.n
    ensures var r := s.rs[i];
      Enabled(p, s, SendCommit(i)) <==> r.status == Normal && r.view % p.n == i && r.commitMin <= |r.head|
    ensures var r := s.rs[i];
      Enabled(p, s, SendCommit(i)) ==>
        Apply(p, s, SendCommit(i)) == s.(msgs := s.msgs + {Commit(r.view, r.head[..r.commitMin])})
    ensures var r := s.rs[i];
      Enabled(p, s, LearnCommit(i, c)) <==>
        r.status == Normal && r.view % p.n != i && Commit(r.view, c) in s.msgs && (|c| > |r.head| || r.head[..|c|] == c)
    ensures var r := s.rs[i];
      Enabled(p, s, LearnCommit(i, c)) ==>
        Apply(p, s, LearnCommit(i, c)) == With(s, i, r.(commitMax := if r.commitMax < |c| then |c| else r.commitMax))
  {
  }

  /** Entering a view: only a later one, only without a repair; it is stored before it is joined. */
  lemma ViewSteps(p: Params, s: Cluster, i: nat, v: nat)
    requires ValidParams(p) && i < |s.rs| == p.n
    ensures var r := s.rs[i];
      Enabled(p, s, BeginViewChange(i, v)) <==> v > r.view && r.repair == NoRepair && !r.faulty
    ensures var r := s.rs[i];
      Enabled(p, s, BeginViewChange(i, v)) ==>
        Apply(p, s, BeginViewChange(i, v)) == With(s, i, r.(status := ViewChange, view := v))
    ensures var r := s.rs[i];
      Enabled(p, s, PersistView(i)) <==> r.status == ViewChange && r.durableView < r.view
    ensures var r := s.rs[i];
      Enabled(p, s, PersistView(i)) ==>
        Apply(p, s, PersistView(i)) ==
          With(s, i, r.(durableView := r.view, durableHead := |r.head|,
                        durableCommit := if r.durableCommit < r.commitMax then r.commitMax else r.durableCommit))
    ensures var r := s.rs[i];
      Enabled(p, s, SendJoin(i)) <==> r.status == ViewChange && r.durableView == r.view && |r.checkpoint| <= |r.head|
  {
  }

  /** Asking for a view, and the primary showing its log. */
  lemma ShowSteps(p: Params, s: Cluster, i: nat, nonce: nat)
    requires ValidParams(p) && i < |s.rs| == p.n
    ensures Enabled(p, s, RequestView(i, nonce)) <==> nonce != 0 && GetView(nonce) !in s.msgs
    ensures Enabled(p, s, RequestView(i, nonce)) ==>
      Apply(p, s, RequestView(i, nonce)) == With(s, i, s.rs[i].(nonce := nonce)).(msgs := s.msgs + {GetView(nonce)})
    ensures var r := s.rs[i];
      Enabled(p, s, SendView(i, nonce)) <==>
        r.status == Normal && r.view % p.n == i && r.commitMax <= |r.head| && (nonce == 0 || GetView(nonce) in s.msgs)
    ensures var r := s.rs[i];
      Enabled(p, s, SendView(i, nonce)) ==>
        Apply(p, s, SendView(i, nonce)) == s.(msgs := s.msgs + {View(r.view, nonce, r.head, r.commitMax)})
  {
  }

  /** Repair rewrites what differs, then rebuilds the log, commits what is proven, and installs the view durably. */
  lemma RepairSteps(p: Params, s: Cluster, i: nat, op: nat)
    requires ValidParams(p) && i < |s.rs| == p.n && s.rs[i].repair.Repair?
    ensures var r := s.rs[i];
      Enabled(p, s, RewritePrepare(i, op)) <==>
        !r.repair.rebuilt && r.dirty == {} && r.repair.ancestor < op <= |r.repair.target|
    ensures var r := s.rs[i];
      Enabled(p, s, RewritePrepare(i, op)) ==>
        Apply(p, s, RewritePrepare(i, op)) == With(s, i, r.(disk := r.disk[op := Good(r.repair.target[..op])]))
    ensures var r := s.rs[i];
      Enabled(p, s, Rebuild(i)) <==>
        && !r.repair.rebuilt && r.dirty == {}
        && forall k: nat :: r.repair.ancestor < k <= |r.repair.target| ==> k in r.disk && r.disk[k] == Good(r.repair.target[..k])
    ensures var r := s.rs[i];
      Enabled(p, s, Rebuild(i)) ==>
        Apply(p, s, Rebuild(i)) ==
          With(s, i, r.(head := r.repair.target, view := r.repair.view, repair := r.repair.(rebuilt := true)))
    ensures var r := s.rs[i];
      Enabled(p, s, Install(i)) <==> r.repair.rebuilt && r.commitMin >= r.repair.commit
    ensures var r := s.rs[i];
      Enabled(p, s, Install(i)) ==>
        Apply(p, s, Install(i)).rs ==
          s.rs[i := r.(durableView := r.view, logView := r.view, durableHead := |r.head|,
                       durableCommit := if r.durableCommit < r.repair.commit then r.repair.commit else r.durableCommit,
                       status := Normal, repair := NoRepair, faulty := false)]
        && Apply(p, s, Install(i)).msgs == s.msgs && Apply(p, s, Install(i)).decided == s.decided
  {
  }

  /** The new primary of a stored view that has a view-change quorum of joins acts on what they select. */
  lemma SelectStep(p: Params, s: Cluster, i: nat, js: Joins, a: nat, commit: nat, headers: seq<Chain>)
    requires ValidParams(p) && i < |s.rs| == p.n == |js| && ValidJoins(js, p.pipelineMax)
    requires var r := s.rs[i];
      Select(js, Own(r.commitMin, r.commitMax, |r.checkpoint|), p.negative, p.pipelineMax) == Suffix(commit, headers)
    requires headers != []
    ensures var r := s.rs[i];
      var head := headers[|headers| - 1];
      Enabled(p, s, SelectSuffix(i, js, a)) <==>
        && r.status == ViewChange && r.durableView == r.view && r.view % p.n == i
        && (forall q :: 0 <= q < |js| && js[q].Some? ==> JoinView(r.view, q, js[q].value) in s.msgs)
        && |set q: nat | q < |js| && js[q].Some?| >= p.viewChange
        && commit >= r.commitMin && r.commitMin <= |head| <= r.commitMin + p.pipelineMax
        && (forall k :: 0 <= k < |headers| ==> ViewOf(headers[k]) <= r.view) && AncestorAt(r, head, a)
    ensures var r := s.rs[i];
      Enabled(p, s, SelectSuffix(i, js, a)) ==>
        Apply(p, s, SelectSuffix(i, js, a)).rs ==
          s.rs[i := r.(status := RecoveringHead, commitMax := if r.commitMax < commit then commit else r.commitMax,
                       repair := Repair(r.view, commit, headers[|headers| - 1], a, false))]
        && Apply(p, s, SelectSuffix(i, js, a)).msgs == s.msgs && Apply(p, s, SelectSuffix(i, js, a)).decided == s.decided
  {
    hide Select, ValidJoins, AncestorAt;
    MembersAre(p.n);
    assert Senders(js) == set q: nat | q < |js| && js[q].Some?;
  }

  /** A formatted cluster: nothing is stored, and the primary of view 0 is already leaving it for view 1. */
  lemma FormattedCluster(p: Params, i: nat)
    requires ValidParams(p) && i < p.n
    ensures |Init(p).rs| == p.n && Init(p).msgs == {} && Init(p).decided == {}
    ensures var r := Init(p).rs[i];
      && r.durableView == r.logView == r.durableHead == r.durableCommit == 0 && r.checkpoint == [] && r.disk == map[]
      && r.status == (if i == 0 then ViewChange else Normal) && r.view == (if i == 0 then 1 else 0)
      && r.head == [] && r.dirty == {} && r.commitMin == r.commitMax == r.nonce == 0 && r.repair == NoRepair && !r.faulty
  {
  }

  /** A log that runs too far ahead is repaired a window at a time, starting at what is committed. */
  lemma WindowSteps(p: Params, s: Cluster, i: nat, view: nat, nonce: nat, head: Chain, commit: nat, window: nat)
    requires ValidParams(p) && i < |s.rs| == p.n
    requires var r := s.rs[i];
      window == if commit < r.commitMin + p.pipelineMax then commit else r.commitMin + p.pipelineMax
    ensures var r := s.rs[i];
      Enabled(p, s, AcceptWindow(i, view, nonce, head, commit)) <==>
        && View(view, nonce, head, commit) in s.msgs && view % p.n != i && view >= r.view && r.repair == NoRepair
        && (r.status == ViewChange ==> r.durableView == r.view) && (nonce == 0 || nonce == r.nonce)
        && (view > r.view || r.status == ViewChange || nonce != 0)
        && r.commitMax <= commit <= |head| && r.commitMin < commit && r.commitMin + p.pipelineMax < |head|
        && AncestorAt(r, head[..window], r.commitMin)
    ensures var r := s.rs[i];
      Enabled(p, s, AcceptWindow(i, view, nonce, head, commit)) ==>
        window <= |head| &&
        Apply(p, s, AcceptWindow(i, view, nonce, head, commit)) ==
          With(s, i, r.(status := RecoveringHead, commitMax := commit, nonce := 0,
                        repair := Repair(view, window, head[..window], r.commitMin, false)))
  {
    hide AncestorAt;
  }

  /**
    Only a backup gives up on its view, and only one that has committed all it
    has and knows of more opens a further window.
   */
  lemma OwnViewSteps(p: Params, s: Cluster, i: nat, nonce: nat, head: Chain, commit: nat, window: nat)
    requires ValidParams(p) && i < |s.rs| == p.n
    requires var r := s.rs[i];
      window == if r.commitMax < r.commitMin + p.pipelineMax then r.commitMax else r.commitMin + p.pipelineMax
    ensures Enabled(p, s, GiveUp(i)) <==> s.rs[i].status == Normal && s.rs[i].view % p.n != i
    ensures var r := s.rs[i];
      Enabled(p, s, ContinueWindow(i, nonce, head, commit)) <==>
        && r.status == Normal && r.commitMin == |r.head| && r.commitMin < r.commitMax
        && View(r.view, nonce, head, commit) in s.msgs && window <= |head| && AncestorAt(r, head[..window], r.commitMin)
  {
    hide AncestorAt;
  }

  /** What the journal holds after a crash that keeps some of the unfinished writes and damages some slots. */
  ghost predicate JournalAfter(r: Replica, kept: set<nat>, damaged: set<nat>, disk: map<nat, Slot>) {
    && (forall op :: op in disk <==> op in r.disk || op in kept || op in damaged)
    && forall op :: op in disk ==>
         && (op in damaged ==> disk[op] == Bad)
         && (op !in damaged && op in kept && op <= |r.head| ==> disk[op] == Good(r.head[..op]))
         && (op !in damaged && !(op in kept && op <= |r.head|) ==> disk[op] == if op in r.disk then r.disk[op] else Bad)
  }

  /** The slot of `op` holds the chain, and no later view has excluded it. */
  predicate Stands(r: Replica, disk: map<nat, Slot>, op: nat, c: Chain) {
    op in disk && disk[op] == Good(c) && (op <= r.durableHead || |c| == 0 || c[|c| - 1].view >= r.logView)
  }

  lemma CrashedIs(r: Replica, kept: set<nat>, damaged: set<nat>, disk: map<nat, Slot>)
    requires JournalAfter(r, kept, damaged, disk)
    ensures Crashed(r, kept, damaged) == disk
  {
  }

  lemma CrashedAfter(r: Replica, kept: set<nat>, damaged: set<nat>)
    ensures JournalAfter(r, kept, damaged, Crashed(r, kept, damaged))
  {
  }

  lemma StandsIff(r: Replica, disk: map<nat, Slot>, op: nat, c: Chain)
    requires |c| == op > 0
    ensures Usable(r, disk, op, c) <==> Stands(r, disk, op, c)
  {
  }

  lemma RecoveredIff(r: Replica, disk: map<nat, Slot>, head: Chain)
    ensures IsRecovered(r, disk, head) <==>
      && r.checkpoint <= head
      && (forall op :: |r.checkpoint| < op <= |head| ==> Stands(r, disk, op, head[..op]))
      && forall c: Chain :: |c| == |head| + 1 && c[..|head|] == head ==> !Stands(r, disk, |head| + 1, c)
  {
    hide Usable, Stands;
    forall op | |r.checkpoint| < op <= |head|
      ensures Usable(r, disk, op, head[..op]) <==> Stands(r, disk, op, head[..op])
    {
      StandsIff(r, disk, op, head[..op]);
    }
    if Continues(r, disk, head) {
      var c := disk[|head| + 1].chain;
      StandsIff(r, disk, |head| + 1, c);
    }
    if c: Chain :| |c| == |head| + 1 && c[..|head|] == head && Stands(r, disk, |head| + 1, c) {
      StandsHolds(r, disk, |head| + 1, c);
      StandsIff(r, disk, |head| + 1, c);
    }
  }

  lemma StandsHolds(r: Replica, disk: map<nat, Slot>, op: nat, c: Chain)
    requires Stands(r, disk, op, c)
    ensures op in disk && disk[op] == Good(c)
  {
  }

  /**
    A restart recovers the longest run of prepares above the checkpoint that
    stand, is clean only without a bad slot, and then commits no more than it
    has recovered.
   */
  lemma RestartStep(p: Params, s: Cluster, i: nat, kept: set<nat>, damaged: set<nat>, head: Chain, faulty: bool,
                    disk: map<nat, Slot>)
    requires ValidParams(p) && i < |s.rs| == p.n && JournalAfter(s.rs[i], kept, damaged, disk)
    ensures var r := s.rs[i];
      Enabled(p, s, Restart(i, kept, damaged, head, faulty)) <==>
        && kept <= r.dirty && r.checkpoint <= head
        && (forall op :: |r.checkpoint| < op <= |head| ==> Stands(r, disk, op, head[..op]))
        && (forall c: Chain :: |c| == |head| + 1 && c[..|head|] == head ==> !Stands(r, disk, |head| + 1, c))
        && (!faulty ==>
              && (forall op :: op in disk && op > |r.checkpoint| ==> disk[op] != Bad)
              && r.durableCommit <= |head| && (|head| > |r.checkpoint| ==> head[|head| - 1].commit <= |head|))
    ensures Enabled(p, s, Restart(i, kept, damaged, head, faulty)) ==>
      var q := Apply(p, s, Restart(i, kept, damaged, head, faulty));
      && |q.rs| == p.n && q.msgs == s.msgs && q.rs[i].head == head && q.rs[i].disk == disk
      && (forall j :: 0 <= j < p.n && j != i ==> q.rs[j] == s.rs[j])
      && (faulty ==> q.decided == s.decided)
      && (!faulty ==> q.rs[i].commitMin <= |head| && q.decided == s.decided + {head[..q.rs[i].commitMin]})
  {
    hide IsRecovered, Stands, Crashed;
    CrashedIs(s.rs[i], kept, damaged, disk);
    RecoveredIff(s.rs[i], disk, head);
  }
}
