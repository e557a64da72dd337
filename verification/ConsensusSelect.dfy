/** A selection over a view-change quorum of joins keeps everything earlier views may have committed. */
module ConsensusSelect {
  import opened Chains
  import opened Quorums
  import opened Selection
  import opened SelectionProofs
  import opened Consensus
  import opened ConsensusInvariant
  import opened ConsensusFacts

  ghost predicate JoinsOK(p: Params, s: Cluster, v: nat, js: Joins)
    requires ValidParams(p) && |s.rs| == p.n
  {
    && |js| == p.n && ValidJoins(js, p.pipelineMax) && |Senders(js)| >= p.viewChange && v !in s.logs
    && forall q: nat :: q < |js| && js[q].Some? ==> JoinOK(p, s, v, q, js[q].value)
  }

  /** The chain a join reports. */
  function HeadOf(j: Join): (r: Chain)
    requires |j.headers| >= 1 && j.headers[0].Some?
  {
    j.headers[0].value
  }

  lemma JoinFacts(p: Params, s: Cluster, v: nat, js: Joins, q: nat)
    requires ValidParams(p) && |s.rs| == p.n && JoinsOK(p, s, v, js) && q < |js| && js[q].Some?
    ensures var j := js[q].value;
      && ValidJoin(j, p.pipelineMax) && j.headers[0].Some? && s.rs[q].durableView >= v && j.logView < v
      && j.logView in s.logs && |HeadOf(j)| == j.head && Known(s, HeadOf(j)) && Legit(s, j.logView, v, HeadOf(j))
      && ChosenBy(p, s, v, HeadOf(j)[..j.commit]) && AcksBounded(s, q, v, j.logView)
      && OwedWithin(p, s, q, j.logView, HeadOf(j)) && OwedUnnacked(p, s, q, j)
  {
    hide Known, Legit, ChosenBy, OwedWithin, OwedUnnacked;
    assert JoinOK(p, s, v, q, js[q].value);
  }

  lemma JoinHeader(p: Params, s: Cluster, v: nat, js: Joins, q: nat, k: nat)
    requires ValidParams(p) && |s.rs| == p.n && JoinsOK(p, s, v, js) && q < |js| && js[q].Some?
    ensures var j := js[q].value;
      |j.headers| >= 1 && j.headers[0].Some? && j.head == |HeadOf(j)|
      && (InWindow(j, k) ==> HeaderAt(js[q], k) == Some(HeadOf(j)[..k]))
      && (!InWindow(j, k) ==> HeaderAt(js[q], k) == None)
  {
    hide Known, Legit, ChosenBy, OwedWithin, OwedUnnacked;
    assert JoinOK(p, s, v, q, js[q].value);
    var j := js[q].value;
    if InWindow(j, k) {
      assert j.headers[j.head - k] == Some(HeadOf(j)[..j.head - (j.head - k)]);
    }
  }

  /** A sender that acknowledged `m`, or must have it from an earlier view, reports it un-nacked. */
  lemma OwedJoin(p: Params, s: Cluster, v: nat, js: Joins, q: nat, w: nat, m: Chain)
    requires ValidParams(p) && |s.rs| == p.n && JoinsOK(p, s, v, js) && q < |js| && js[q].Some?
    requires w < v && Choosable(p, s, w, m)
    requires |js[q].value.headers| >= 1 && js[q].value.headers[0].Some?
    requires js[q].value.logView > w || Acked(s, w, q, m)
    ensures var j := js[q].value;
      w <= j.logView && m <= HeadOf(j) && j.head == |HeadOf(j)| && |j.nack| <= j.head + 1
      && forall x: nat :: x < |j.nack| && j.nack[x] ==> j.head - x > |m|
  {
    hide Choosable, Known, Legit, ChosenBy;
    JoinFacts(p, s, v, js, q);
    var j := js[q].value;
    if Acked(s, w, q, m) {
      var c :| PrepareOK(w, q, c) in s.msgs && m <= c;
    }
    assert Owes(p, s, q, j.logView, w, m);
  }

  /** Some sender acknowledged a choosable header. */
  lemma AckingSender(p: Params, s: Cluster, v: nat, js: Joins, w: nat, m: Chain) returns (z: nat)
    requires ValidParams(p) && |s.rs| == p.n && JoinsOK(p, s, v, js)
    requires w < v && Choosable(p, s, w, m)
    ensures z < |js| && js[z].Some? && Acked(s, w, z, m)
  {
    z := Intersect(p.n, Support(p, s, w, m), Senders(js));
    JoinFacts(p, s, v, js, z);
  }

  /** A sender of the latest log view that reports all of `m`. */
  lemma LatestSender(p: Params, s: Cluster, v: nat, js: Joins, w: nat, m: Chain) returns (z: nat)
    requires ValidParams(p) && |s.rs| == p.n && JoinsOK(p, s, v, js)
    requires w < v && Choosable(p, s, w, m)
    ensures z < |js| && js[z].Some? && js[z].value.logView == Latest(js) && w <= Latest(js)
    ensures |js[z].value.headers| >= 1 && js[z].value.headers[0].Some? && m <= HeadOf(js[z].value)
  {
    hide JoinsOK, Choosable, Latest;
    LatestIsMaximum(js);
    var a := AckingSender(p, s, v, js, w, m);
    JoinFacts(p, s, v, js, a);
    OwedJoin(p, s, v, js, a, w, m);
    if js[a].value.logView == Latest(js) {
      z := a;
    } else {
      z :| 0 <= z < |js| && js[z].Some? && Latest(js) == js[z].value.logView;
      JoinFacts(p, s, v, js, z);
      OwedJoin(p, s, v, js, z, w, m);
    }
  }

  lemma InBoundWindow(j: Join, pipelineMax: nat, bound: nat, k: nat)
    requires ValidJoin(j, pipelineMax) && CommittedBound(j, pipelineMax) <= bound <= k <= j.head
    ensures InWindow(j, k)
  {
  }

  lemma AgreeAt(p: Params, s: Cluster, v: nat, js: Joins, own: Own, w: nat, m: Chain, k: nat)
    requires ValidParams(p) && |s.rs| == p.n && InvLogs(p, s) && JoinsOK(p, s, v, js)
    requires w < v && Choosable(p, s, w, m) && Bound(js, own, p.pipelineMax) <= k <= |m|
    ensures LatestAgreeOn(js, m[..k])
  {
    hide JoinsOK, Choosable, Latest, InvLogs, ValidJoins, Bound;
    JoinsValid(p, s, v, js);
    var x := m[..k];
    var z := LatestHas(p, s, v, js, own, w, m, k);
    forall q: nat | q < |js| && HeaderAt(js[q], k).Some? && js[q].value.logView == Latest(js)
      ensures HeaderAt(js[q], k) == Some(x)
    {
      AgreeOne(p, s, v, js, w, m, k, q);
    }
  }

  lemma JoinsValid(p: Params, s: Cluster, v: nat, js: Joins)
    requires ValidParams(p) && |s.rs| == p.n && JoinsOK(p, s, v, js)
    ensures ValidJoins(js, p.pipelineMax)
  {
    hide ValidJoin, JoinOK;
  }

  lemma LatestHas(p: Params, s: Cluster, v: nat, js: Joins, own: Own, w: nat, m: Chain, k: nat) returns (z: nat)
    requires ValidParams(p) && |s.rs| == p.n && JoinsOK(p, s, v, js)
    requires w < v && Choosable(p, s, w, m) && Bound(js, own, p.pipelineMax) <= k <= |m|
    ensures z < |js| && js[z].Some? && js[z].value.logView == Latest(js) && w <= Latest(js)
    ensures HeaderAt(js[z], k) == Some(m[..k])
  {
    assert ValidJoins(js, p.pipelineMax);
    hide JoinsOK, Choosable, Latest, ValidJoins, Bound, Legit, Known, ChosenBy, OwedWithin, OwedUnnacked, AcksBounded;
    z := LatestSender(p, s, v, js, w, m);
    JoinFacts(p, s, v, js, z);
    BoundIsMaximum(js, own, p.pipelineMax);
    InBoundWindow(js[z].value, p.pipelineMax, Bound(js, own, p.pipelineMax), k);
    JoinHeader(p, s, v, js, z, k);
    assert HeadOf(js[z].value)[..k] == m[..k];
  }

  lemma AgreeOne(p: Params, s: Cluster, v: nat, js: Joins, w: nat, m: Chain, k: nat, q: nat)
    requires ValidParams(p) && |s.rs| == p.n && InvLogs(p, s) && JoinsOK(p, s, v, js)
    requires w < v && Choosable(p, s, w, m) && k <= |m| && q < |js|
    requires HeaderAt(js[q], k).Some? && js[q].value.logView == Latest(js) && w <= Latest(js)
    ensures HeaderAt(js[q], k) == Some(m[..k])
  {
    hide JoinsOK, Choosable, Latest, InvLogs, Legit, Known, ChosenBy, OwedWithin, OwedUnnacked, AcksBounded;
    JoinFacts(p, s, v, js, q);
    JoinHeader(p, s, v, js, q, k);
    var h := HeadOf(js[q].value);
    LegitComparable(p, s, Latest(js), v, h, w, m);
    assert h[..k] == m[..k];
  }

  lemma SupportNeverDisowns(p: Params, s: Cluster, v: nat, js: Joins, own: Own, w: nat, m: Chain, k: nat, q: nat)
    requires ValidParams(p) && |s.rs| == p.n && JoinsOK(p, s, v, js)
    requires w < v && Choosable(p, s, w, m) && Bound(js, own, p.pipelineMax) < k <= |m|
    requires q in Support(p, s, w, m)
    ensures q < |js| && (js[q].Some? ==> |js[q].value.nack| == |js[q].value.headers|)
    ensures !Disowns(js, q, k, Some(m[..k]), Latest(js))
  {
    hide Choosable, Latest, Bound;
    if js[q].Some? {
      JoinFacts(p, s, v, js, q);
      assert Acked(s, w, q, m);
      OwedJoin(p, s, v, js, q, w, m);
      var j := js[q].value;
      BoundIsMaximum(js, own, p.pipelineMax);
      InBoundWindow(j, p.pipelineMax, Bound(js, own, p.pipelineMax), k);
      JoinHeader(p, s, v, js, q, k);
      assert HeadOf(j)[..k] == m[..k];
      assert j.nack[j.head - k] ==> j.head - (j.head - k) > |m|;
    }
  }

  lemma NotDisowned(p: Params, s: Cluster, v: nat, js: Joins, own: Own, w: nat, m: Chain)
    requires ValidParams(p) && |s.rs| == p.n && JoinsOK(p, s, v, js)
    requires w < v && Choosable(p, s, w, m)
    ensures NeverDisowned(js, m, Bound(js, own, p.pipelineMax), p.negative, p.pipelineMax)
  {
    hide Latest, Bound, Disowns;
    forall k: nat | Bound(js, own, p.pipelineMax) < k <= |m|
      ensures |Negatives(js, k, Some(m[..k]), Latest(js), p.pipelineMax)| < p.negative
    {
      var negatives := Negatives(js, k, Some(m[..k]), Latest(js), p.pipelineMax);
      var support := Support(p, s, w, m);
      forall q: nat | q in support ensures q !in negatives {
        SupportNeverDisowns(p, s, v, js, own, w, m, k, q);
      }
      if |negatives| >= p.negative {
        var q := Intersect(p.n, support, negatives);
        assert false;
      }
    }
  }

  lemma LatestReaches(p: Params, s: Cluster, v: nat, js: Joins, own: Own, w: nat, m: Chain)
    requires ValidParams(p) && |s.rs| == p.n && JoinsOK(p, s, v, js) && w < v && Choosable(p, s, w, m)
    ensures |m| <= MaximumHead(js, own.checkpoint)
  {
    hide JoinsOK, Choosable, Latest, MaximumHead, Legit, Known, ChosenBy, OwedWithin, OwedUnnacked, AcksBounded;
    var z := LatestSender(p, s, v, js, w, m);
    JoinFacts(p, s, v, js, z);
    HeadIsMaximum(js, own.checkpoint);
  }

  /** A choosable chain that reaches the bound is kept whole. */
  lemma ChoosableSurvives(p: Params, s: Cluster, v: nat, js: Joins, own: Own, x: Suffix, w: nat, m: Chain)
    requires ValidParams(p) && |s.rs| == p.n && InvLogs(p, s) && JoinsOK(p, s, v, js)
    requires w < v && Choosable(p, s, w, m) && Bound(js, own, p.pipelineMax) <= |m|
    requires x == Select(js, own, p.negative, p.pipelineMax) && x.Suffix?
    ensures |x.headers| >= 1 && m <= x.headers[|x.headers| - 1] && x.commit <= |m| && x.headers[0] == m[..x.commit]
  {
    assert ValidJoins(js, p.pipelineMax);
    hide JoinsOK, Choosable, Latest, InvLogs, ValidJoins, Bound, MaximumHead, Select, LatestAgreeOn, NeverDisowned,
         Legit, Known, ChosenBy, OwedWithin, OwedUnnacked, AcksBounded;
    LatestReaches(p, s, v, js, own, w, m);
    forall k: nat | Bound(js, own, p.pipelineMax) <= k <= |m| ensures LatestAgreeOn(js, m[..k]) {
      AgreeAt(p, s, v, js, own, w, m, k);
    }
    NotDisowned(p, s, v, js, own, w, m);
    SelectionEnds(js, own, p.negative, p.pipelineMax);
    AgreedChainSurvives(js, own, p.negative, p.pipelineMax, m);
  }

  // ---- the bound is committed -----------------------------------------------------------

  lemma JoinBoundChosen(p: Params, s: Cluster, v: nat, js: Joins, q: nat) returns (k: Chain)
    requires ValidParams(p) && |s.rs| == p.n && InvLogs(p, s) && JoinsOK(p, s, v, js)
    requires q < |js| && js[q].Some? && ValidJoin(js[q].value, p.pipelineMax)
    ensures |k| == CommittedBound(js[q].value, p.pipelineMax) && ChosenBy(p, s, v, k)
  {
    hide InvLogs;
    assert JoinOK(p, s, v, q, js[q].value);
    var j := js[q].value;
    var h := HeadOf(j);
    var n := CommittedBound(j, p.pipelineMax);
    LegitView(p, s, j.logView, v, h);
    if n <= j.commit {
      k := h[..n];
      ChosenByPrefix(p, s, v, h[..j.commit], k);
    } else {
      KnownCommit(p, s, h);
      assert n <= CommitOf(h);
      k := h[..n];
      ChosenByPrefix(p, s, ViewOf(h), h[..CommitOf(h)], k);
    }
  }

  lemma BoundChosen(p: Params, s: Cluster, v: nat, js: Joins, own: Own, known: Chain) returns (k: Chain)
    requires ValidParams(p) && |s.rs| == p.n && InvLogs(p, s) && JoinsOK(p, s, v, js)
    requires |known| == OwnBound(own) && ChosenBy(p, s, v, known)
    ensures |k| == Bound(js, own, p.pipelineMax) && ChosenBy(p, s, v, k)
  {
    assert ValidJoins(js, p.pipelineMax);
    hide InvLogs, JoinsOK, ChosenBy, Bound;
    var n := Bound(js, own, p.pipelineMax);
    BoundIsMaximum(js, own, p.pipelineMax);
    if n == OwnBound(own) {
      k := known;
    } else {
      var q :| 0 <= q < |js| && js[q].Some? && n == CommittedBound(js[q].value, p.pipelineMax);
      k := JoinBoundChosen(p, s, v, js, q);
    }
  }

  lemma BoundChoosable(p: Params, s: Cluster, v: nat, js: Joins, own: Own, known: Chain) returns (u: nat, k: Chain)
    requires ValidParams(p) && |s.rs| == p.n && InvLogs(p, s) && JoinsOK(p, s, v, js)
    requires |known| == OwnBound(own) && ChosenBy(p, s, v, known)
    ensures ValidJoins(js, p.pipelineMax) && |k| == Bound(js, own, p.pipelineMax) && ChosenBy(p, s, v, k)
    ensures k == [] || (u < v && Choosable(p, s, u, k))
  {
    assert ValidJoins(js, p.pipelineMax);
    hide InvLogs, JoinsOK, Bound, ValidJoins, ChosenBy, Choosable;
    k := BoundChosen(p, s, v, js, own, known);
    u := ChosenBelow(p, s, v, js, k);
  }

  lemma ChosenBelow(p: Params, s: Cluster, v: nat, js: Joins, k: Chain) returns (u: nat)
    requires ValidParams(p) && |s.rs| == p.n && JoinsOK(p, s, v, js) && ChosenBy(p, s, v, k)
    ensures k == [] || (u < v && Choosable(p, s, u, k))
  {
    assert v !in s.logs;
    hide JoinsOK, Ackers;
    u := 0;
    if k != [] {
      u :| u <= v && Chosen(p, s, u, k);
      ChosenIsChoosable(p, s, u, k);
    }
  }

  /** With the chosen header at the bound in hand, one choosable chain. */
  lemma SelectionCoversOne(p: Params, s: Cluster, v: nat, js: Joins, own: Own, x: Suffix, u: nat, k: Chain, w: nat, h: Chain)
    requires ValidParams(p) && |s.rs| == p.n && InvLogs(p, s) && JoinsOK(p, s, v, js)
    requires x == Select(js, own, p.negative, p.pipelineMax) && x.Suffix?
    requires |k| == Bound(js, own, p.pipelineMax) && (k == [] || (u < v && Choosable(p, s, u, k)))
    requires w < v && Choosable(p, s, w, h)
    ensures |x.headers| >= 1 && h <= x.headers[|x.headers| - 1]
  {
    assert ValidJoins(js, p.pipelineMax);
    hide InvLogs, JoinsOK, Bound, Select, ValidJoins, Choosable;
    if |h| >= |k| {
      ChoosableSurvives(p, s, v, js, own, x, w, h);
    } else {
      ChoosableSurvives(p, s, v, js, own, x, u, k);
      ChoosableComparable(p, s, w, h, u, k);
      PrefixTrans(h, k, x.headers[|x.headers| - 1]);
    }
  }

  lemma SelectionStart(p: Params, s: Cluster, v: nat, js: Joins, own: Own, x: Suffix, u: nat, k: Chain)
    requires ValidParams(p) && |s.rs| == p.n && InvLogs(p, s) && JoinsOK(p, s, v, js)
    requires x == Select(js, own, p.negative, p.pipelineMax) && x.Suffix?
    requires |k| == Bound(js, own, p.pipelineMax) && (k == [] || (u < v && Choosable(p, s, u, k)))
    ensures |x.headers| >= 1 && x.commit <= |x.headers[|x.headers| - 1]| && x.headers[|x.headers| - 1][..x.commit] == k
  {
    assert ValidJoins(js, p.pipelineMax);
    hide InvLogs, JoinsOK, Bound, Select, ValidJoins, Choosable, HeaderAt;
    var q := SelectionHead(js, own, p.negative, p.pipelineMax, x);
    if k != [] {
      ChoosableSurvives(p, s, v, js, own, x, u, k);
    }
  }

  /**
    The canonical suffix contains everything any earlier view committed or may
    still commit, and its start is committed.
   */
  lemma SelectionCovers(p: Params, s: Cluster, v: nat, js: Joins, own: Own, x: Suffix, known: Chain)
    requires ValidParams(p) && |s.rs| == p.n && InvLogs(p, s) && JoinsOK(p, s, v, js)
    requires |known| == OwnBound(own) && ChosenBy(p, s, v, known)
    requires x == Select(js, own, p.negative, p.pipelineMax) && x.Suffix?
    ensures |x.headers| >= 1 && x.commit <= |x.headers[|x.headers| - 1]|
    ensures Covers(p, s, v, x.headers[|x.headers| - 1])
    ensures ChosenBy(p, s, v, x.headers[|x.headers| - 1][..x.commit])
  {
    assert ValidJoins(js, p.pipelineMax);
    hide InvLogs, JoinsOK, Bound, Select, ValidJoins, Choosable, ChosenBy;
    var u, k := BoundChoosable(p, s, v, js, own, known);
    SelectionStart(p, s, v, js, own, x, u, k);
    forall w: nat, h: Chain | w < v && Choosable(p, s, w, h) ensures h <= x.headers[|x.headers| - 1] {
      SelectionCoversOne(p, s, v, js, own, x, u, k, w, h);
    }
  }

  /** The new head is a header some replica created. */
  lemma SelectionKnown(p: Params, s: Cluster, v: nat, js: Joins, own: Own, x: Suffix)
    requires ValidParams(p) && |s.rs| == p.n && InvLogs(p, s) && JoinsOK(p, s, v, js)
    requires x == Select(js, own, p.negative, p.pipelineMax) && x.Suffix?
    ensures |x.headers| >= 1 && Known(s, x.headers[|x.headers| - 1])
  {
    assert ValidJoins(js, p.pipelineMax);
    hide InvLogs, JoinsOK, Select, Bound, Known, Legit, ChosenBy;
    var q := SelectionHead(js, own, p.negative, p.pipelineMax, x);
    var head := x.headers[|x.headers| - 1];
    JoinHeader(p, s, v, js, q, |head|);
    JoinFacts(p, s, v, js, q);
    KnownPrefix(p, s, HeadOf(js[q].value), head);
  }

  lemma SendersPromised(p: Params, s: Cluster, v: nat, js: Joins)
    requires ValidParams(p) && |s.rs| == p.n && JoinsOK(p, s, v, js)
    ensures |Promised(p, s, v)| >= p.viewChange
  {
    forall q: nat | q in Senders(js) ensures q in Promised(p, s, v) {
      JoinFacts(p, s, v, js, q);
    }
    SubsetSize(Senders(js), Promised(p, s, v));
  }
}
