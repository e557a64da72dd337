/** Facts about logs and choosable headers, and what a step cannot undo. */
module ConsensusFacts {
  import opened Chains
  import opened Quorums
  import opened Consensus
  import opened ConsensusInvariant

  // ---- comparing chains ------------------------------------------------------

  lemma CanonCovers(p: Params, s: Cluster, v: nat, w: nat, h: Chain)
    requires ValidParams(p) && |s.rs| == p.n && InvLogs(p, s)
    requires v in s.logs && w <= v && Choosable(p, s, w, h)
    ensures InLog(s, v, h) && (w < v ==> h <= s.canon[v])
  {
    assert LogOK(p, s, v);
    if w < v {
      assert Covers(p, s, v, s.canon[v]);
      PrefixTrans(h, s.canon[v], s.logs[v]);
    }
  }

  lemma ChoosableComparable(p: Params, s: Cluster, w: nat, h: Chain, u: nat, k: Chain)
    requires ValidParams(p) && |s.rs| == p.n && InvLogs(p, s)
    requires Choosable(p, s, w, h) && Choosable(p, s, u, k)
    ensures Comparable(h, k)
  {
    var v := Max(w, u);
    CanonCovers(p, s, v, w, h);
    CanonCovers(p, s, v, u, k);
    PrefixesComparable(h, k, s.logs[v]);
  }

  lemma ChosenIsChoosable(p: Params, s: Cluster, u: nat, h: Chain)
    requires |s.rs| == p.n && Chosen(p, s, u, h)
    ensures Choosable(p, s, u, h)
  {
    SubsetSize(Ackers(p, s, u, h), Support(p, s, u, h));
  }

  /** Headers chosen anywhere in the run never contradict each other. */
  lemma AnyChosenComparable(p: Params, s: Cluster, h: Chain, k: Chain)
    requires ValidParams(p) && |s.rs| == p.n && InvLogs(p, s)
    requires AnyChosen(p, s, h) && AnyChosen(p, s, k)
    ensures Comparable(h, k)
  {
    if h != [] && k != [] {
      var w: nat :| Chosen(p, s, w, h);
      var u: nat :| Chosen(p, s, u, k);
      ChosenIsChoosable(p, s, w, h);
      ChosenIsChoosable(p, s, u, k);
      ChoosableComparable(p, s, w, h, u, k);
    }
  }

  lemma ByIsAny(p: Params, s: Cluster, v: nat, h: Chain)
    requires ChosenBy(p, s, v, h)
    ensures AnyChosen(p, s, h)
  {
  }

  lemma ChosenPrefix(p: Params, s: Cluster, u: nat, h: Chain, k: Chain)
    requires Chosen(p, s, u, h) && k <= h
    ensures Chosen(p, s, u, k)
  {
    forall q | q in Ackers(p, s, u, h) ensures q in Ackers(p, s, u, k) {
      var c :| PrepareOK(u, q, c) in s.msgs && h <= c;
      PrefixTrans(k, h, c);
    }
    SubsetSize(Ackers(p, s, u, h), Ackers(p, s, u, k));
    PrefixTrans(k, h, s.logs[u]);
  }

  lemma ChosenByPrefix(p: Params, s: Cluster, v: nat, h: Chain, k: Chain)
    requires ChosenBy(p, s, v, h) && k <= h
    ensures ChosenBy(p, s, v, k)
  {
    if k != [] {
      var u: nat :| u <= v && Chosen(p, s, u, h);
      ChosenPrefix(p, s, u, h, k);
    }
  }

  /** A legitimate log never contradicts what an earlier view may have committed. */
  lemma LegitComparable(p: Params, s: Cluster, l: nat, d: nat, c: Chain, w: nat, h: Chain)
    requires ValidParams(p) && |s.rs| == p.n && InvLogs(p, s)
    requires l in s.logs && Legit(s, l, d, c) && Choosable(p, s, w, h) && w <= l
    ensures Comparable(c, h)
  {
    if InLog(s, l, c) {
      CanonCovers(p, s, l, w, h);
      PrefixesComparable(c, h, s.logs[l]);
    } else {
      var v: nat :| l < v <= d && Source(s, v, c);
      if InLog(s, v, c) {
        CanonCovers(p, s, v, w, h);
        PrefixesComparable(c, h, s.logs[v]);
      } else {
        var t :| (v, t) in s.selections && c <= t;
        assert Sound(p, s, v, t);
        PrefixesComparable(c, h, t);
      }
    }
  }

  lemma LegitChosenComparable(p: Params, s: Cluster, l: nat, d: nat, c: Chain, k: Chain)
    requires ValidParams(p) && |s.rs| == p.n && InvLogs(p, s)
    requires l in s.logs && Legit(s, l, d, c) && ChosenBy(p, s, l, k)
    ensures Comparable(c, k)
  {
    if k != [] {
      var u: nat :| u <= l && Chosen(p, s, u, k);
      ChosenIsChoosable(p, s, u, k);
      LegitComparable(p, s, l, d, c, u, k);
    }
  }

  // ---- known chains -----------------------------------------------------------

  lemma LogEntry(p: Params, s: Cluster, u: nat, i: nat)
    requires ValidParams(p) && |s.rs| == p.n && InvLogs(p, s)
    requires u in s.logs && i < |s.logs[u]|
    ensures EntryOK(p, s, s.logs[u], i) && ViewOf(s.logs[u]) <= u
  {
    hide EntryOK, Sound;
    assert LogOK(p, s, u);
  }

  lemma EntryInPrefix(p: Params, s: Cluster, c: Chain, l: Chain, i: nat)
    requires c <= l && i < |c| && EntryOK(p, s, l, i)
    ensures l[i].view <= ViewOf(c) ==> EntryOK(p, s, c, i)
  {
    hide ChosenBy, Known;
    assert c[..i + 1] == l[..i + 1] && c[i] == l[i];
    assert c[..c[i].commit] == l[..l[i].commit];
    assert i > 0 ==> c[i - 1] == l[i - 1];
  }

  lemma KnownEntry(p: Params, s: Cluster, c: Chain, i: nat)
    requires ValidParams(p) && |s.rs| == p.n && InvLogs(p, s)
    requires Known(s, c) && i < |c|
    ensures EntryOK(p, s, c, i)
  {
    var u := ViewOf(c);
    var l := s.logs[u];
    LogEntry(p, s, u, i);
    EntryInPrefix(p, s, c, l, i);
    assert l[i].view <= ViewOf(l) <= u;
  }

  lemma KnownPrefix(p: Params, s: Cluster, c: Chain, k: Chain)
    requires ValidParams(p) && |s.rs| == p.n && InvLogs(p, s)
    requires Known(s, c) && k <= c
    ensures Known(s, k) && ViewOf(k) <= ViewOf(c)
  {
    hide InvLogs, ChosenBy;
    if k != [] {
      KnownEntry(p, s, c, |k| - 1);
      assert k == c[..|k| - 1 + 1];
    }
  }

  /** What the commit field of a prepare proves. */
  lemma KnownCommit(p: Params, s: Cluster, c: Chain)
    requires ValidParams(p) && |s.rs| == p.n && InvLogs(p, s)
    requires Known(s, c) && c != []
    ensures CommitOf(c) < |c| <= CommitOf(c) + p.pipelineMax
    ensures ChosenBy(p, s, ViewOf(c), c[..CommitOf(c)])
  {
    KnownEntry(p, s, c, |c| - 1);
  }

  lemma LegitView(p: Params, s: Cluster, l: nat, d: nat, c: Chain)
    requires ValidParams(p) && |s.rs| == p.n && InvLogs(p, s)
    requires l in s.logs && Legit(s, l, d, c) && l <= d
    ensures ViewOf(c) <= d && Known(s, c)
  {
    if InLog(s, l, c) {
      LogView(p, s, l, c);
    } else {
      var v: nat :| l < v <= d && Source(s, v, c);
      if InLog(s, v, c) {
        LogView(p, s, v, c);
      } else {
        var t :| (v, t) in s.selections && c <= t;
        assert Sound(p, s, v, t);
        KnownPrefix(p, s, t, c);
      }
    }
  }

  lemma LogView(p: Params, s: Cluster, v: nat, c: Chain)
    requires ValidParams(p) && |s.rs| == p.n && InvLogs(p, s)
    requires InLog(s, v, c)
    ensures ViewOf(c) <= v && Known(s, c)
  {
    assert LogOK(p, s, v);
    if c != [] {
      assert EntryOK(p, s, s.logs[v], |c| - 1);
      assert s.logs[v][..|c| - 1 + 1] == c;
    }
  }

  lemma LegitPrefix(s: Cluster, l: nat, d: nat, c: Chain, k: Chain)
    requires Legit(s, l, d, c) && k <= c
    ensures Legit(s, l, d, k)
  {
    if InLog(s, l, c) {
      PrefixTrans(k, c, s.logs[l]);
    } else {
      var v: nat :| l < v <= d && Source(s, v, c);
      if InLog(s, v, c) {
        PrefixTrans(k, c, s.logs[v]);
      } else {
        var t :| (v, t) in s.selections && c <= t;
        PrefixTrans(k, c, t);
      }
      assert Source(s, v, k);
    }
  }

  // ---- what every step respects -------------------------------------------------

  ghost predicate LogsGrow(s: Cluster, s': Cluster) {
    && (forall v :: v in s.logs ==> v in s'.logs && s.logs[v] <= s'.logs[v])
    && (forall v :: v in s.canon ==> v in s'.canon && s'.canon[v] == s.canon[v])
  }

  ghost predicate ViewsGrow(p: Params, s: Cluster, s': Cluster) {
    && |s.rs| == |s'.rs| == p.n
    && forall q: nat :: q < p.n ==>
         s.rs[q].durableView <= s'.rs[q].durableView && s.rs[q].logView <= s'.rs[q].logView
  }

  /** A new acknowledgement is for the view its author has promised. */
  ghost predicate AcksGrow(p: Params, s: Cluster, s': Cluster)
    requires |s.rs| == p.n
  {
    forall w: nat, q: nat, c: Chain :: PrepareOK(w, q, c) in s'.msgs ==>
      PrepareOK(w, q, c) in s.msgs || (q < p.n && s.rs[q].durableView == w)
  }

  /** Headers that enter a log have not been acknowledged there. */
  ghost predicate NewUnacked(s: Cluster, s': Cluster) {
    forall w: nat, h: Chain, q: nat :: InLog(s', w, h) && !InLog(s, w, h) ==> !Acked(s', w, q, h)
  }

  ghost predicate Evolves(p: Params, s: Cluster, s': Cluster) {
    && LogsGrow(s, s') && ViewsGrow(p, s, s') && AcksGrow(p, s, s') && NewUnacked(s, s')
    && s.msgs <= s'.msgs && s.selections <= s'.selections
  }

  lemma InLogGrows(p: Params, s: Cluster, s': Cluster, w: nat, h: Chain)
    requires Evolves(p, s, s') && InLog(s, w, h)
    ensures InLog(s', w, h)
  {
    PrefixTrans(h, s.logs[w], s'.logs[w]);
  }

  lemma KnownGrows(p: Params, s: Cluster, s': Cluster, c: Chain)
    requires Evolves(p, s, s') && Known(s, c)
    ensures Known(s', c)
  {
    if c != [] { InLogGrows(p, s, s', ViewOf(c), c); }
  }

  lemma ChosenGrows(p: Params, s: Cluster, s': Cluster, u: nat, h: Chain)
    requires Evolves(p, s, s') && Chosen(p, s, u, h)
    ensures Chosen(p, s', u, h)
  {
    InLogGrows(p, s, s', u, h);
    SubsetSize(Ackers(p, s, u, h), Ackers(p, s', u, h));
  }

  lemma ChosenByGrows(p: Params, s: Cluster, s': Cluster, v: nat, v': nat, h: Chain)
    requires Evolves(p, s, s') && ChosenBy(p, s, v, h) && v <= v'
    ensures ChosenBy(p, s', v', h)
  {
    if h != [] {
      var u: nat :| u <= v && Chosen(p, s, u, h);
      ChosenGrows(p, s, s', u, h);
    }
  }

  lemma AnyChosenGrows(p: Params, s: Cluster, s': Cluster, h: Chain)
    requires Evolves(p, s, s') && AnyChosen(p, s, h)
    ensures AnyChosen(p, s', h)
  {
    if h != [] {
      var u: nat :| Chosen(p, s, u, h);
      ChosenGrows(p, s, s', u, h);
    }
  }

  lemma LegitGrows(p: Params, s: Cluster, s': Cluster, l: nat, d: nat, d': nat, c: Chain)
    requires Evolves(p, s, s') && Legit(s, l, d, c) && d <= d'
    ensures Legit(s', l, d', c)
  {
    if InLog(s, l, c) {
      InLogGrows(p, s, s', l, c);
    } else {
      var v: nat :| l < v <= d && Source(s, v, c);
      if InLog(s, v, c) { InLogGrows(p, s, s', v, c); }
      assert Source(s', v, c);
    }
  }

  /** Nothing becomes choosable again. */
  lemma ChoosableBack(p: Params, s: Cluster, s': Cluster, w: nat, h: Chain)
    requires ValidParams(p) && Evolves(p, s, s')
    requires InLog(s, w, h) && Choosable(p, s', w, h)
    ensures Choosable(p, s, w, h)
  {
    forall q | q in Support(p, s', w, h) ensures q in Support(p, s, w, h) {
      assert s.rs[q].durableView <= s'.rs[q].durableView;
      if Acked(s', w, q, h) {
        var c :| PrepareOK(w, q, c) in s'.msgs && h <= c;
        assert PrepareOK(w, q, c) in s.msgs || s.rs[q].durableView == w;
      }
    }
    SubsetSize(Support(p, s', w, h), Support(p, s, w, h));
  }

  /** A header new to an old view's log can no longer be committed there. */
  lemma NewNotChoosable(p: Params, s: Cluster, s': Cluster, w: nat, h: Chain, v: nat)
    requires ValidParams(p) && Evolves(p, s, s')
    requires w < v && |Promised(p, s, v)| >= p.viewChange
    requires InLog(s', w, h) && !InLog(s, w, h)
    ensures !Choosable(p, s', w, h)
  {
    var support := Support(p, s', w, h);
    forall q: nat | q in Promised(p, s, v) ensures q !in support {
      assert s.rs[q].durableView <= s'.rs[q].durableView;
    }
    if |support| >= p.replication {
      var q := Intersect(p.n, support, Promised(p, s, v));
      assert false;
    }
  }

  lemma SoundGrows(p: Params, s: Cluster, s': Cluster, v: nat, t: Chain)
    requires ValidParams(p) && Evolves(p, s, s') && Sound(p, s, v, t)
    ensures Sound(p, s', v, t)
  {
    KnownGrows(p, s, s', t);
    forall q | q in Promised(p, s, v) ensures q in Promised(p, s', v) {
      assert s.rs[q].durableView <= s'.rs[q].durableView;
    }
    SubsetSize(Promised(p, s, v), Promised(p, s', v));
    forall w: nat, h: Chain | w < v && Choosable(p, s', w, h) ensures h <= t {
      if InLog(s, w, h) {
        ChoosableBack(p, s, s', w, h);
      } else {
        NewNotChoosable(p, s, s', w, h, v);
      }
    }
  }

  lemma OwesBack(p: Params, s: Cluster, s': Cluster, q: nat, l: nat, w: nat, h: Chain)
    requires ValidParams(p) && Evolves(p, s, s') && InvLogs(p, s) && l in s.logs
    requires forall c :: PrepareOK(l, q, c) in s'.msgs ==> PrepareOK(l, q, c) in s.msgs
    requires Owes(p, s', q, l, w, h)
    ensures Owes(p, s, q, l, w, h)
  {
    if w < l {
      assert LogOK(p, s, l);
      if InLog(s, w, h) {
        ChoosableBack(p, s, s', w, h);
      } else {
        NewNotChoosable(p, s, s', w, h, l);
        assert false;
      }
    } else {
      assert InLog(s, w, h);
      ChoosableBack(p, s, s', w, h);
    }
  }
}
