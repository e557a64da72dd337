/**
  What the new primary selects when every join reports the same log: all of it.
 */
module SharedLog {
  import opened Chains
  import opened Selection
  import opened ConsensusGuards

  /** The join of a replica whose whole log is `h`, written and installed in `log`. */
  predicate Reports(j: Join, h: Chain, log: nat, pipelineMax: nat) {
    && j.head == |h| && j.checkpoint == 0 && j.logView == log && j.commit <= |h| <= j.commit + pipelineMax
    && |j.headers| == Min(|h|, pipelineMax) + 1 && |j.present| == |j.headers| == |j.nack|
    && forall i :: 0 <= i < |j.headers| ==> j.headers[i] == Some(h[..|h| - i]) && j.present[i] && !j.nack[i]
  }

  predicate Unanimous(js: Joins, h: Chain, log: nat, pipelineMax: nat) {
    |js| > 0 && forall i: nat :: i < |js| ==> js[i].Some? && Reports(js[i].value, h, log, pipelineMax)
  }

  lemma ReportIsValid(j: Join, h: Chain, log: nat, pipelineMax: nat)
    requires Reports(j, h, log, pipelineMax) && CommitOf(h) <= |h|
    ensures ValidJoin(j, pipelineMax)
    ensures |h| - Min(|h|, pipelineMax) <= CommittedBound(j, pipelineMax) <= |h| && j.commit <= CommittedBound(j, pipelineMax)
  {
    assert h[..|h| - 0] == h;
    assert j.headers[0] == Some(h);
  }

  lemma UnanimousBounds(js: Joins, h: Chain, log: nat, own: Own, pipelineMax: nat)
    requires Unanimous(js, h, log, pipelineMax) && CommitOf(h) <= |h| && own == Own(own.commitMin, own.commitMin, 0)
    requires own.commitMin <= |h|
    ensures ValidJoins(js, pipelineMax) && Latest(js) == log && MaximumHead(js, 0) == |h|
    ensures var b := Bound(js, own, pipelineMax);
      && |h| - Min(|h|, pipelineMax) <= b <= |h| && own.commitMin <= b
      && forall i: nat :: i < |js| ==> js[i].value.commit <= b
  {
    hide ValidJoin, CommittedBound, Reports, Bound;
    forall i: nat | i < |js| ensures
      && ValidJoin(js[i].value, pipelineMax) && js[i].value.commit <= CommittedBound(js[i].value, pipelineMax)
      && |h| - Min(|h|, pipelineMax) <= CommittedBound(js[i].value, pipelineMax) <= |h|
      && js[i].value.head == |h| && js[i].value.logView == log
    {
      ReportIsValid(js[i].value, h, log, pipelineMax);
      ReportFields(js[i].value, h, log, pipelineMax);
    }
    BoundIsMaximum(js, own, pipelineMax);
    HeadIsMaximum(js, 0);
    LatestIsMaximum(js);
    assert js[0].Some?;
  }

  lemma ReportFields(j: Join, h: Chain, log: nat, pipelineMax: nat)
    requires Reports(j, h, log, pipelineMax)
    ensures j.head == |h| && j.logView == log && |j.nack| == |j.headers| == |j.present|
  {
  }

  lemma ReportHeader(j: Join, h: Chain, log: nat, pipelineMax: nat, op: nat)
    requires Reports(j, h, log, pipelineMax) && |h| - Min(|h|, pipelineMax) <= op <= |h|
    ensures InWindow(j, op) && HeaderAt(Some(j), op) == Some(h[..op])
    ensures |h| - op < |j.present| && j.present[|h| - op] && |h| - op < |j.nack| && !j.nack[|h| - op]
  {
    assert h[..|h| - (|h| - op)] == h[..op];
  }

  lemma {:induction false} UnanimousPick(js: Joins, h: Chain, log: nat, pipelineMax: nat, op: nat, bound: nat, n: nat)
    requires Unanimous(js, h, log, pipelineMax) && |h| - Min(|h|, pipelineMax) <= op <= |h| && n <= |js|
    ensures PickUpTo(js, n, op, log, bound) == if n == 0 then Pick(false, [], 0) else Pick(true, h[..op], log)
  {
    hide Reports, InWindow;
    if n > 0 {
      UnanimousPick(js, h, log, pipelineMax, op, bound, n - 1);
      forall i: nat | i < n ensures HeaderAt(js[i], op) == Some(h[..op]) && js[i].value.logView == log {
        ReportHeader(js[i].value, h, log, pipelineMax, op);
        ReportFields(js[i].value, h, log, pipelineMax);
      }
      assert js[n - 1].Some?;
    }
  }

  lemma UnanimousAt(js: Joins, h: Chain, log: nat, negative: nat, pipelineMax: nat, op: nat, bound: nat)
    requires Unanimous(js, h, log, pipelineMax) && |h| - Min(|h|, pipelineMax) <= op <= |h|
    requires ValidJoins(js, pipelineMax) && Latest(js) == log && negative >= 1
    ensures Candidate(js, op, bound) == Pick(true, h[..op], log)
    ensures !Cut(js, op, bound, negative, pipelineMax) && Kept(js, op, bound, pipelineMax)
  {
    hide Reports, PickUpTo, ValidJoin;
    UnanimousPick(js, h, log, pipelineMax, op, bound, |js|);
    var wanted := Some(h[..op]);
    forall i: nat | i < |js|
      ensures i !in Negatives(js, op, wanted, log, pipelineMax) && i in Copies(js, op, wanted, pipelineMax)
    {
      ReportHeader(js[i].value, h, log, pipelineMax, op);
      ReportFields(js[i].value, h, log, pipelineMax);
      assert js[i].Some? && js[i] == Some(js[i].value);
    }
    assert Negatives(js, op, wanted, log, pipelineMax) == {};
    assert 0 in Copies(js, op, wanted, pipelineMax);
  }

  /** The headers of `h` from op `b` up. */
  function Prefixes(h: Chain, b: nat, count: nat): (hs: seq<Chain>)
    requires b + count <= |h| + 1
  {
    seq(count, i requires 0 <= i < count => h[..b + i])
  }

  lemma {:induction false} UnanimousWalk(js: Joins, h: Chain, log: nat, negative: nat, pipelineMax: nat, b: nat, count: nat)
    requires Unanimous(js, h, log, pipelineMax) && ValidJoins(js, pipelineMax) && Latest(js) == log && negative >= 1
    requires |h| - Min(|h|, pipelineMax) <= b <= |h| && b + count <= |h| + 1
    ensures Walk(js, b, negative, pipelineMax, |h|, Prefixes(h, b, count)) == Some(Prefixes(h, b, |h| + 1 - b))
    decreases |h| + 1 - b - count
  {
    hide Unanimous, ValidJoins, Candidate, Cut, Kept, Walk, Latest;
    var kept := Prefixes(h, b, count);
    if b + count == |h| + 1 {
      WalkEnds(js, b, negative, pipelineMax, |h|, kept);
    } else {
      var op := b + count;
      UnanimousAt(js, h, log, negative, pipelineMax, op, b);
      if count > 0 {
        assert kept[count - 1] == h[..op - 1] == h[..op][..op - 1];
      }
      WalkKeeps(js, b, negative, pipelineMax, |h|, kept, h[..op]);
      assert kept + [h[..op]] == Prefixes(h, b, count + 1);
      UnanimousWalk(js, h, log, negative, pipelineMax, b, count + 1);
    }
  }

  /** Every op survives, whatever the negative quorum, and the bound covers every reported commit. */
  lemma UnanimousSelect(js: Joins, h: Chain, log: nat, own: Own, negative: nat, pipelineMax: nat)
    requires Unanimous(js, h, log, pipelineMax) && CommitOf(h) <= |h| && own == Own(own.commitMin, own.commitMin, 0)
    requires own.commitMin <= |h| && negative >= 1
    ensures ValidJoins(js, pipelineMax)
    ensures var b := Bound(js, own, pipelineMax);
      && b <= |h| <= b + pipelineMax && own.commitMin <= b && (forall i: nat :: i < |js| ==> js[i].value.commit <= b)
      && Select(js, own, negative, pipelineMax) == Suffix(b, Prefixes(h, b, |h| + 1 - b))
  {
    hide Unanimous, ValidJoins, Walk, Bound, MaximumHead, Latest;
    UnanimousBounds(js, h, log, own, pipelineMax);
    var b := Bound(js, own, pipelineMax);
    assert Prefixes(h, b, 0) == [];
    UnanimousWalk(js, h, log, negative, pipelineMax, b, 0);
  }
}
