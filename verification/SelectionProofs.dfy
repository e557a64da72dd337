/** What a resolved selection guarantees, for every set of join records. */
module SelectionProofs {
  import opened Chains
  import opened Quorums
  import opened Selection

  /** Consecutive headers name each other as parent. */
  predicate Linked(hs: seq<Chain>) {
    forall i :: 0 <= i < |hs| - 1 ==> IsParent(hs[i], hs[i + 1])
  }

  /** The header kept at position `i` is the candidate there, has a copy, and is not cut. */
  predicate ResolvedAt(js: Joins, bound: nat, negative: nat, pipelineMax: nat, hs: seq<Chain>, i: nat)
    requires ValidJoins(js, pipelineMax) && i < |hs|
  {
    && Kept(js, bound + i, bound, pipelineMax) && !Cut(js, bound + i, bound, negative, pipelineMax)
    && hs[i] == Candidate(js, bound + i, bound).header
  }

  predicate Resolved(js: Joins, bound: nat, negative: nat, pipelineMax: nat, hs: seq<Chain>)
    requires ValidJoins(js, pipelineMax)
  {
    && Linked(hs)
    && forall i: nat :: i < |hs| ==> ResolvedAt(js, bound, negative, pipelineMax, hs, i)
  }

  /** The walk ends below this op because it is cut, not because joins conflict over it. */
  predicate StopsAt(js: Joins, op: nat, bound: nat, negative: nat, pipelineMax: nat)
    requires ValidJoins(js, pipelineMax)
  {
    Cut(js, op, bound, negative, pipelineMax) && Candidate(js, op, bound).Pick?
  }

  lemma {:induction false} WalkResolves(js: Joins, bound: nat, negative: nat, pipelineMax: nat, maximum: nat, kept: seq<Chain>)
    requires ValidJoins(js, pipelineMax)
    requires Resolved(js, bound, negative, pipelineMax, kept)
    requires bound + |kept| <= maximum + 1
    ensures var r := Walk(js, bound, negative, pipelineMax, maximum, kept);
            r.Some? ==>
              && kept <= r.value && Resolved(js, bound, negative, pipelineMax, r.value)
              && (bound + |r.value| == maximum + 1
                  || (bound + |r.value| <= maximum && StopsAt(js, bound + |r.value|, bound, negative, pipelineMax)))
    decreases maximum + 1 - (bound + |kept|)
  {
    hide Candidate, Cut, Kept, ValidJoins;
    var op := bound + |kept|;
    if op <= maximum && !Candidate(js, op, bound).Conflict? && !Cut(js, op, bound, negative, pipelineMax)
       && Kept(js, op, bound, pipelineMax) {
      var header := Candidate(js, op, bound).header;
      if kept == [] || IsParent(kept[|kept| - 1], header) {
        var longer := kept + [header];
        forall i: nat | i < |longer| ensures ResolvedAt(js, bound, negative, pipelineMax, longer, i) {
          assert i < |kept| ==> ResolvedAt(js, bound, negative, pipelineMax, kept, i);
        }
        WalkResolves(js, bound, negative, pipelineMax, maximum, longer);
      }
    }
  }

  /** The header a pick returns is one that some sender offers. */
  lemma {:induction false} PickOffered(js: Joins, n: nat, op: nat, latest: nat, bound: nat)
    requires n <= |js|
    ensures var p := PickUpTo(js, n, op, latest, bound);
            p.Pick? && p.found ==>
              exists i: nat :: i < n && Offers(js, i, op, latest, bound) && HeaderAt(js[i], op) == Some(p.header)
  {
    if n > 0 {
      PickOffered(js, n - 1, op, latest, bound);
      var q := PickUpTo(js, n - 1, op, latest, bound);
      var p := PickUpTo(js, n, op, latest, bound);
      if p.Pick? && p.found && p != q {
        assert Offers(js, n - 1, op, latest, bound) && HeaderAt(js[n - 1], op) == Some(p.header);
      }
    }
  }

  /** Two senders offer different headers of one view from one log view. */
  predicate Ties(js: Joins, i: nat, j: nat, op: nat, latest: nat, bound: nat)
    requires i < |js| && j < |js|
  {
    && Offers(js, i, op, latest, bound) && Offers(js, j, op, latest, bound) && js[i].value.logView == js[j].value.logView
    && ViewOf(HeaderAt(js[i], op).value) == ViewOf(HeaderAt(js[j], op).value) && HeaderAt(js[i], op) != HeaderAt(js[j], op)
  }

  /** Log view and header view of `i`'s offer are no better than those of the pick. */
  predicate NoBetter(js: Joins, i: nat, op: nat, p: Pick)
    requires i < |js| && p.Pick? && HeaderAt(js[i], op).Some?
  {
    var header := HeaderAt(js[i], op).value;
    || js[i].value.logView < p.log
    || (js[i].value.logView == p.log && (ViewOf(header) < ViewOf(p.header) || header == p.header))
  }

  /** Sender `i` offers the header of the pick from its log view. */
  predicate Gives(js: Joins, i: nat, op: nat, latest: nat, bound: nat, p: Pick)
    requires i < |js| && p.Pick?
  {
    Offers(js, i, op, latest, bound) && HeaderAt(js[i], op) == Some(p.header) && js[i].value.logView == p.log
  }

  /**
    The pick among the first `n` senders is the offer of the highest log view and,
    within it, of the highest header view, and there is one whenever anything is
    offered; a conflict is a tie, and a tie within the latest log view is one.
   */
  ghost predicate IsBest(js: Joins, n: nat, op: nat, latest: nat, bound: nat, p: Pick)
    requires n <= |js|
  {
    && (p.Pick? ==> (p.found <==> exists i: nat :: i < n && Offers(js, i, op, latest, bound)))
    && (p.Pick? && p.found ==> exists i: nat :: i < n && Gives(js, i, op, latest, bound, p))
    && (p.Pick? ==> forall i: nat :: i < n && Offers(js, i, op, latest, bound) ==> NoBetter(js, i, op, p))
    && (p.Conflict? ==> exists i: nat, j: nat :: i < n && j < n && Ties(js, i, j, op, latest, bound))
    && (forall i: nat, j: nat :: i < n && j < n && Ties(js, i, j, op, latest, bound) && js[i].value.logView == latest ==>
          p.Conflict?)
  }

  lemma {:induction false} PickIsBest(js: Joins, n: nat, op: nat, latest: nat, bound: nat)
    requires n <= |js|
    ensures IsBest(js, n, op, latest, bound, PickUpTo(js, n, op, latest, bound))
  {
    if n > 0 {
      PickIsBest(js, n - 1, op, latest, bound);
      BestStep(js, n - 1, op, latest, bound, PickUpTo(js, n - 1, op, latest, bound));
    }
  }

  lemma BestStep(js: Joins, k: nat, op: nat, latest: nat, bound: nat, q: Pick)
    requires k < |js| && IsBest(js, k, op, latest, bound, q)
    ensures IsBest(js, k + 1, op, latest, bound, PickStep(js, k, op, latest, bound, q))
  {
    var p := PickStep(js, k, op, latest, bound, q);
    if p.Pick? && p.found {
      if q.found && p == q {
        var i: nat :| i < k && Gives(js, i, op, latest, bound, q);
        assert Gives(js, i, op, latest, bound, p);
      } else {
        assert Gives(js, k, op, latest, bound, p);
      }
    }
    if q.Pick? && Offers(js, k, op, latest, bound) {
      if j: nat :| j < k && Clash(js, j, k, op, latest) {
        assert Ties(js, j, k, op, latest, bound);
      } else if p.Conflict? {
        var i: nat :| i < k && Gives(js, i, op, latest, bound, q);
        assert Ties(js, i, k, op, latest, bound);
      }
      forall i: nat |
        && i < k && (Ties(js, i, k, op, latest, bound) || Ties(js, k, i, op, latest, bound))
        && js[i].value.logView == latest
        ensures p.Conflict?
      {
        assert Clash(js, i, k, op, latest);
      }
    }
  }

  /** What the candidate of an op is, in terms of what the senders report. */
  lemma CandidateIsBest(js: Joins, op: nat, bound: nat, i: nat)
    requires i < |js| && HeaderAt(js[i], op).Some? && (js[i].value.logView == Latest(js) || op <= bound)
    requires Candidate(js, op, bound).Pick?
    ensures var p := Candidate(js, op, bound);
      && p.found && js[i].value.logView <= p.log
      && (js[i].value.logView == p.log ==> ViewOf(HeaderAt(js[i], op).value) <= ViewOf(p.header))
  {
    PickIsBest(js, |js|, op, Latest(js), bound);
    assert Offers(js, i, op, Latest(js), bound);
  }

  /**
    Who disowns an op and who has a copy, on the fields of a join: a sender disowns
    it if it reports no such op, nacks it, or is of an older log view and has
    another header there; it has a copy if it reports the wanted header as present.
   */
  lemma EvidenceByFields(js: Joins, op: nat, wanted: Option<Chain>, latest: nat, pipelineMax: nat, i: nat)
    requires ValidJoins(js, pipelineMax) && i < |js| && js[i].Some?
    ensures var j := js[i].value;
      var reported := j.head - |j.headers| < op <= j.head;
      && (i in Negatives(js, op, wanted, latest, pipelineMax) <==>
            || !reported || j.nack[j.head - op]
            || (&& j.headers[j.head - op].Some? && j.logView < latest
                && (wanted.Some? ==> j.headers[j.head - op] != wanted)
                && (wanted.None? ==> ViewOf(j.headers[j.head - op].value) < latest)))
      && (i in Copies(js, op, wanted, pipelineMax) <==>
            reported && wanted.Some? && j.headers[j.head - op] == wanted && j.present[j.head - op])
  {
  }

  /** The committed bound is at least everything a join proves committed, and no more than some join or the primary does. */
  lemma BoundByFields(js: Joins, own: Own, pipelineMax: nat)
    requires ValidJoins(js, pipelineMax)
    ensures var r := Bound(js, own, pipelineMax);
      && own.commitMin <= r && own.commitMax <= r && own.checkpoint <= r
      && (forall i: nat :: i < |js| && js[i].Some? ==> ProvenBy(js[i].value, pipelineMax, r))
      && (r > own.commitMin && r > own.commitMax && r > own.checkpoint ==>
            exists i: nat :: i < |js| && js[i].Some? && !ProvenBy(js[i].value, pipelineMax, r - 1))
  {
    BoundIsMaximum(js, own, pipelineMax);
  }

  /** `r` is at least every op the join proves committed: by its commit, its window, the pipeline, or its head's commit. */
  predicate ProvenBy(j: Join, pipelineMax: nat, r: nat) {
    && j.commit <= r && j.checkpoint <= r && j.head <= r + |j.headers| - 1 && j.head <= r + pipelineMax
    && (|j.headers| > 0 && j.headers[0].Some? && j.headers[0].value != [] ==>
          j.headers[0].value[|j.headers[0].value| - 1].commit <= r)
  }

  lemma {:induction false} LinkedPrefixes(hs: seq<Chain>, i: nat, j: nat)
    requires Linked(hs) && i <= j < |hs|
    ensures hs[i] <= hs[j] && |hs[j]| == |hs[i]| + (j - i)
    decreases j - i
  {
    if i < j {
      LinkedPrefixes(hs, i, j - 1);
      assert IsParent(hs[j - 1], hs[j - 1 + 1]);
      assert hs[j - 1] <= hs[j];
    }
  }

  /** The header kept at position `i` has op `bound + i`. */
  lemma KeptOp(js: Joins, bound: nat, pipelineMax: nat, op: nat)
    requires ValidJoins(js, pipelineMax)
    requires Kept(js, op, bound, pipelineMax)
    ensures |Candidate(js, op, bound).header| == op
  {
    hide Latest, Bound, MaximumHead, Copies;
    PickOffered(js, |js|, op, Latest(js), bound);
  }

  /** Where a selection starts and where it stops. */
  lemma SelectionEnds(js: Joins, own: Own, negative: nat, pipelineMax: nat)
    requires ValidJoins(js, pipelineMax)
    ensures var s := Select(js, own, negative, pipelineMax);
            s.Suffix? ==>
              && s.commit == Bound(js, own, pipelineMax)
              && 1 <= |s.headers| <= pipelineMax + 1
              && Resolved(js, s.commit, negative, pipelineMax, s.headers)
              && s.commit + |s.headers| - 1 <= MaximumHead(js, own.checkpoint)
              && (s.commit + |s.headers| - 1 < MaximumHead(js, own.checkpoint) ==>
                    StopsAt(js, s.commit + |s.headers|, s.commit, negative, pipelineMax))
  {
    hide Candidate, Walk, Kept, Latest, MaximumHead, Bound, Negatives;
    var s := Select(js, own, negative, pipelineMax);
    if s.Suffix? {
      WalkResolves(js, s.commit, negative, pipelineMax, MaximumHead(js, own.checkpoint), []);
      assert !Cut(js, s.commit, s.commit, negative, pipelineMax);
    }
  }

  /**
    A resolved selection is a gap-free, hash-linked run of headers from its
    commit to the new head, with a copy of each to repair from.
   */
  lemma SelectionShape(js: Joins, own: Own, negative: nat, pipelineMax: nat)
    requires ValidJoins(js, pipelineMax)
    requires Select(js, own, negative, pipelineMax).Suffix?
    ensures var s := Select(js, own, negative, pipelineMax);
              && |s.headers| >= 1
              && (forall i: nat :: i < |s.headers| ==> |s.headers[i]| == s.commit + i)
              && (forall i: nat, j: nat :: i <= j < |s.headers| ==> s.headers[i] <= s.headers[j])
              && (forall i: nat :: i < |s.headers| ==>
                    Copies(js, |s.headers[i]|, Some(s.headers[i]), pipelineMax) != {})
  {
    hide Candidate, Walk, Cut, Latest, MaximumHead, Bound, Copies, Select, ValidJoins;
    var s := Select(js, own, negative, pipelineMax);
    SelectionEnds(js, own, negative, pipelineMax);
    forall i: nat | i < |s.headers|
      ensures |s.headers[i]| == s.commit + i && Copies(js, |s.headers[i]|, Some(s.headers[i]), pipelineMax) != {}
    {
      assert ResolvedAt(js, s.commit, negative, pipelineMax, s.headers, i);
      KeptOp(js, s.commit, pipelineMax, s.commit + i);
    }
    forall i: nat, j: nat | i <= j < |s.headers| ensures s.headers[i] <= s.headers[j] {
      LinkedPrefixes(s.headers, i, j);
    }
  }

  /** The new head continues the first header, and some join reports it. */
  lemma SelectionHead(js: Joins, own: Own, negative: nat, pipelineMax: nat, x: Suffix) returns (q: nat)
    requires ValidJoins(js, pipelineMax)
    requires x == Select(js, own, negative, pipelineMax) && x.Suffix?
    ensures |x.headers| >= 1 && x.commit == Bound(js, own, pipelineMax)
    ensures var head := x.headers[|x.headers| - 1];
      && x.headers[0] <= head && |x.headers[0]| == x.commit <= |head|
      && q < |js| && HeaderAt(js[q], |head|) == Some(head)
  {
    hide Candidate, Walk, Cut, Latest, MaximumHead, Bound, Copies, Select, ValidJoins;
    SelectionShape(js, own, negative, pipelineMax);
    SelectionEnds(js, own, negative, pipelineMax);
    var last := |x.headers| - 1;
    assert ResolvedAt(js, x.commit, negative, pipelineMax, x.headers, last);
    q := KeptBy(js, x.commit, pipelineMax, x.commit + last);
    assert x.headers[0] <= x.headers[last];
  }

  lemma KeptBy(js: Joins, bound: nat, pipelineMax: nat, op: nat) returns (q: nat)
    requires ValidJoins(js, pipelineMax) && Kept(js, op, bound, pipelineMax)
    ensures q < |js| && HeaderAt(js[q], op) == Some(Candidate(js, op, bound).header)
  {
    hide Latest, Copies;
    PickOffered(js, |js|, op, Latest(js), bound);
    q :| q < |js| && Offers(js, q, op, Latest(js), bound) && HeaderAt(js[q], op) == Some(Candidate(js, op, bound).header);
  }

  // ---- what becomes of an op that a replication quorum holds --------------

  /** Sender `i` reports header `x` at its op and does not nack it. */
  predicate Holds(js: Joins, i: nat, x: Chain)
    requires i < |js|
    requires js[i].Some? ==> |js[i].value.nack| == |js[i].value.headers|
  {
    HeaderAt(js[i], |x|) == Some(x) && !js[i].value.nack[js[i].value.head - |x|]
  }

  function Holders(js: Joins, x: Chain, pipelineMax: nat): (r: set<nat>)
    requires ValidJoins(js, pipelineMax)
  {
    set i: nat | i in Members(|js|) && Holds(js, i, x)
  }

  /** The candidate at this op is held by at least `replication` senders. */
  predicate QuorumHeld(js: Joins, op: nat, bound: nat, replication: nat, pipelineMax: nat)
    requires ValidJoins(js, pipelineMax)
  {
    var p := Candidate(js, op, bound);
    p.Pick? && p.found && |p.header| == op && |Holders(js, p.header, pipelineMax)| >= replication
  }

  lemma HeldIsNotCut(js: Joins, op: nat, bound: nat, replication: nat, negative: nat, pipelineMax: nat)
    requires ValidJoins(js, pipelineMax)
    requires replication + negative > |js|
    requires QuorumHeld(js, op, bound, replication, pipelineMax)
    ensures !Cut(js, op, bound, negative, pipelineMax)
  {
    var p := Candidate(js, op, bound);
    var holders := Holders(js, p.header, pipelineMax);
    var negatives := Negatives(js, op, Wanted(p), Latest(js), pipelineMax);
    forall i: nat | i in holders ensures i !in negatives {
      assert Holds(js, i, p.header);
    }
    if |negatives| >= negative {
      var i := Intersect(|js|, holders, negatives);
      assert false;
    }
  }

  /** No op strictly between the bound and `op` is cut. */
  predicate NothingCutBelow(js: Joins, bound: nat, op: nat, negative: nat, pipelineMax: nat)
    requires ValidJoins(js, pipelineMax)
  {
    forall k: nat :: bound < k < op ==> !Cut(js, k, bound, negative, pipelineMax)
  }

  /** An op that some sender holds is not above the highest head. */
  lemma HeldBelowMaximum(js: Joins, op: nat, bound: nat, replication: nat, pipelineMax: nat, checkpoint: nat)
    requires ValidJoins(js, pipelineMax) && replication > 0 && QuorumHeld(js, op, bound, replication, pipelineMax)
    ensures op <= MaximumHead(js, checkpoint)
  {
    hide Candidate, MaximumHead;
    var x := Candidate(js, op, bound).header;
    var i :| i in Holders(js, x, pipelineMax);
    assert Holds(js, i, x);
    HeadIsMaximum(js, checkpoint);
  }

  /**
    When selection resolves, an op whose candidate a replication quorum holds
    un-nacked is kept, with that header, exactly if no op below it is cut.
   */
  lemma HeldOpKeptIff(js: Joins, own: Own, replication: nat, negative: nat, pipelineMax: nat, op: nat)
    requires ValidJoins(js, pipelineMax) && replication > 0 && replication + negative > |js|
    requires Select(js, own, negative, pipelineMax).Suffix?
    requires var bound := Bound(js, own, pipelineMax);
      bound < op && QuorumHeld(js, op, bound, replication, pipelineMax)
    ensures var s := Select(js, own, negative, pipelineMax);
      var head := s.commit + |s.headers| - 1;
      && (op <= head <==> NothingCutBelow(js, s.commit, op, negative, pipelineMax))
      && (op <= head ==> Wanted(Candidate(js, op, s.commit)) == Some(s.headers[op - s.commit]))
  {
    hide Candidate, Walk, Cut, Latest, MaximumHead, Bound, Copies, Select, ValidJoins, Holders;
    var s := Select(js, own, negative, pipelineMax);
    SelectionEnds(js, own, negative, pipelineMax);
    HeldBelowMaximum(js, op, s.commit, replication, pipelineMax, own.checkpoint);
    HeldIsNotCut(js, op, s.commit, replication, negative, pipelineMax);
    var head := s.commit + |s.headers| - 1;
    if op <= head {
      forall k: nat | s.commit < k < op
        ensures !Cut(js, k, s.commit, negative, pipelineMax)
      {
        assert ResolvedAt(js, s.commit, negative, pipelineMax, s.headers, k - s.commit);
      }
      assert ResolvedAt(js, s.commit, negative, pipelineMax, s.headers, op - s.commit);
    }
  }

  /**
    The chosen head is at or above every op up to which a replication quorum
    holds the candidates un-nacked.
   */
  lemma SelectionKeepsHeldOps(js: Joins, own: Own, replication: nat, negative: nat, pipelineMax: nat, op: nat)
    requires ValidJoins(js, pipelineMax) && replication > 0 && replication + negative > |js|
    requires Select(js, own, negative, pipelineMax).Suffix?
    requires var bound := Bound(js, own, pipelineMax);
      bound < op && forall k: nat :: bound < k <= op ==> QuorumHeld(js, k, bound, replication, pipelineMax)
    ensures var s := Select(js, own, negative, pipelineMax);
      && op <= s.commit + |s.headers| - 1
      && Wanted(Candidate(js, op, s.commit)) == Some(s.headers[op - s.commit])
  {
    hide Candidate, Walk, Cut, Latest, MaximumHead, Bound, Copies, Select, ValidJoins, Holders;
    var bound := Bound(js, own, pipelineMax);
    SelectionEnds(js, own, negative, pipelineMax);
    forall k: nat | bound < k < op
      ensures !Cut(js, k, bound, negative, pipelineMax)
    {
      HeldIsNotCut(js, k, bound, replication, negative, pipelineMax);
    }
    HeldOpKeptIff(js, own, replication, negative, pipelineMax, op);
  }

  /** Two of three senders hold op 2 un-nacked and nack op 1, whose write had not finished. */
  const GAP_JOIN := Join(2, 0, 0, 1, [Some([Entry(1, 0, 1), Entry(1, 0, 2)]), Some([Entry(1, 0, 1)]), Some([])],
                         [true, true, true], [false, true, false])
  const GAP: Joins := [Some(GAP_JOIN), Some(GAP_JOIN), None]

  /** So an op held by a replication quorum can be cut: here the selection ends at op 0. */
  lemma HeldOpCanBeCut()
    ensures ValidJoins(GAP, 2) && QuorumHeld(GAP, 2, 0, 2, 2) && Select(GAP, Own(0, 0, 0), 2, 2) == Suffix(0, [[]])
  {
    GapBounds();
    GapAtZero();
    GapAtOne();
    GapAtTwo();
    hide Candidate, Cut, Kept, Bound, MaximumHead;
    var none: seq<Chain> := [];
    assert none + [[]] == [[]];
    assert Walk(GAP, 0, 2, 2, 2, [[]]) == Some([[]]);
  }

  lemma GapBounds()
    ensures ValidJoins(GAP, 2) && Latest(GAP) == 1 && Bound(GAP, Own(0, 0, 0), 2) == 0 && MaximumHead(GAP, 0) == 2
  {
    BoundIsMaximum(GAP, Own(0, 0, 0), 2);
    HeadIsMaximum(GAP, 0);
    LatestIsMaximum(GAP);
    assert CommittedBound(GAP_JOIN, 2) == 0;
  }

  lemma GapPick(op: nat, x: Chain)
    requires op <= 2 && HeaderAt(Some(GAP_JOIN), op) == Some(x)
    ensures Candidate(GAP, op, 0) == Pick(true, x, 1)
  {
    GapBounds();
    assert PickUpTo(GAP, 1, op, 1, 0) == Pick(true, x, 1);
    assert PickUpTo(GAP, 2, op, 1, 0) == Pick(true, x, 1);
  }

  lemma GapAtZero()
    ensures ValidJoins(GAP, 2) && Candidate(GAP, 0, 0) == Pick(true, [], 1) && !Cut(GAP, 0, 0, 2, 2) && Kept(GAP, 0, 0, 2)
  {
    GapBounds();
    GapPick(0, []);
    assert 0 in Copies(GAP, 0, Some([]), 2);
  }

  lemma GapAtOne()
    ensures ValidJoins(GAP, 2) && Candidate(GAP, 1, 0) == Pick(true, [Entry(1, 0, 1)], 1) && Cut(GAP, 1, 0, 2, 2)
  {
    GapBounds();
    GapPick(1, [Entry(1, 0, 1)]);
    assert Negatives(GAP, 1, Some([Entry(1, 0, 1)]), 1, 2) == {0, 1};
  }

  lemma GapAtTwo()
    ensures ValidJoins(GAP, 2) && QuorumHeld(GAP, 2, 0, 2, 2)
  {
    GapBounds();
    var x := [Entry(1, 0, 1), Entry(1, 0, 2)];
    GapPick(2, x);
    assert Holders(GAP, x, 2) == {0, 1};
  }

  // ---- the candidate when the latest log view agrees ----------------------

  /** Every sender of the latest log view that has a header at `|x|` has `x`, and one has. */
  predicate LatestAgreeOn(js: Joins, x: Chain)
  {
    && (forall i: nat :: i < |js| && HeaderAt(js[i], |x|).Some? && js[i].value.logView == Latest(js) ==>
          HeaderAt(js[i], |x|) == Some(x))
    && exists i: nat :: i < |js| && HeaderAt(js[i], |x|) == Some(x) && js[i].value.logView == Latest(js)
  }

  lemma {:induction false} PickAgreed(js: Joins, n: nat, bound: nat, x: Chain)
    requires n <= |js|
    requires LatestAgreeOn(js, x)
    ensures var p := PickUpTo(js, n, |x|, Latest(js), bound);
            p.Conflict? ||
            if exists i: nat :: i < n && HeaderAt(js[i], |x|) == Some(x) && js[i].value.logView == Latest(js)
            then p == Pick(true, x, Latest(js))
            else p.found ==> p.log < Latest(js)
  {
    if n > 0 {
      PickAgreed(js, n - 1, bound, x);
      var q := PickUpTo(js, n - 1, |x|, Latest(js), bound);
      LatestIsMaximum(js);
    }
  }

  lemma CandidateAgreed(js: Joins, bound: nat, x: Chain)
    requires LatestAgreeOn(js, x)
    ensures Candidate(js, |x|, bound).Conflict? || Candidate(js, |x|, bound) == Pick(true, x, Latest(js))
  {
    PickAgreed(js, |js|, bound, x);
  }

  /** No op of `h` above the bound is disowned by a negative quorum. */
  predicate NeverDisowned(js: Joins, h: Chain, bound: nat, negative: nat, pipelineMax: nat)
    requires ValidJoins(js, pipelineMax)
  {
    forall k: nat :: bound < k <= |h| ==>
      |Negatives(js, k, Some(h[..k]), Latest(js), pipelineMax)| < negative
  }

  /**
    A chain on which the latest log view agrees and which no negative quorum
    disowns is kept whole.
   */
  lemma {:induction false} AgreedChainSurvives(js: Joins, own: Own, negative: nat, pipelineMax: nat, h: Chain)
    requires ValidJoins(js, pipelineMax)
    requires Select(js, own, negative, pipelineMax).Suffix?
    requires Bound(js, own, pipelineMax) <= |h| <= MaximumHead(js, own.checkpoint)
    requires forall k: nat :: Bound(js, own, pipelineMax) <= k <= |h| ==> LatestAgreeOn(js, h[..k])
    requires NeverDisowned(js, h, Bound(js, own, pipelineMax), negative, pipelineMax)
    ensures var s := Select(js, own, negative, pipelineMax);
            |s.headers| >= 1 && h <= s.headers[|s.headers| - 1]
            && s.headers[0] == h[..s.commit]
  {
    hide Candidate, Walk, Latest, MaximumHead, Bound, Copies, Select, ValidJoins, LatestAgreeOn, Negatives;
    var s := Select(js, own, negative, pipelineMax);
    SelectionEnds(js, own, negative, pipelineMax);
    SelectionShape(js, own, negative, pipelineMax);
    var bound := s.commit;
    var head := bound + |s.headers| - 1;
    if head < |h| {
      assert |h[..head + 1]| == head + 1;
      CandidateAgreed(js, bound, h[..head + 1]);
      assert false;
    }
    forall k: nat | bound <= k <= |h| ensures s.headers[k - bound] == h[..k] {
      assert ResolvedAt(js, bound, negative, pipelineMax, s.headers, k - bound);
      assert |h[..k]| == k;
      CandidateAgreed(js, bound, h[..k]);
    }
    assert h[..|h|] == h;
    assert s.headers[|h| - bound] == h;
    assert s.headers[0] == h[..bound];
  }
}
