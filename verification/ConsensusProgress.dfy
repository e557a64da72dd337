/**
  The cluster can always go on.  Whatever requests arrive, and whichever
  replicas crash and restart in between, some run that meets all five
  conditions of Consensus.Guarded commits every request at every replica.
 */
module ConsensusProgress {
  import opened Chains
  import opened Quorums
  import opened Selection
  import opened Consensus
  import opened ConsensusGuards
  import opened SharedLog

  // ---- how a replica stands between two phases ---------------------------------------------

  /** Entries name only views up to `v` and commits below themselves. */
  predicate Orderly(h: Chain, v: nat) {
    forall k :: 0 <= k < |h| ==> h[k].view <= v && h[k].commit <= k
  }

  /** The log is `h`, all of it is on disk, and recovery from that disk would find it again. */
  predicate Holds(p: Params, r: Replica, h: Chain) {
    && !r.faulty && r.dirty == {} && r.head == h && r.checkpoint == []
    && r.commitMin <= |h| <= r.commitMin + p.pipelineMax && r.durableCommit <= |h| && r.durableHead <= |h|
    && (forall op :: 1 <= op <= |h| ==> op in r.disk)
    && (forall op :: op in r.disk ==> 1 <= op <= |h| && r.disk[op] == Good(h[..op]))
    && forall k :: r.durableHead <= k < |h| ==> h[k].view >= r.logView
  }

  /** At rest, in any view up to `v`. */
  predicate Calm(p: Params, r: Replica, h: Chain, log: nat, v: nat) {
    && Holds(p, r, h) && r.logView == log && r.repair.NoRepair? && r.commitMax == r.commitMin
    && r.durableView <= r.view <= v
  }

  /** Has promised view `v`. */
  predicate Waiting(p: Params, r: Replica, h: Chain, log: nat, v: nat) {
    && Calm(p, r, h, log, v) && r.status == ViewChange && r.view == r.durableView == v && log < v
  }

  /** Repairs towards `h`, which it already has, and commit `b`. */
  predicate Aiming(p: Params, r: Replica, h: Chain, v: nat, b: nat) {
    && Holds(p, r, h) && r.logView < v && r.repair == Repair(v, b, h, |h|, false)
    && r.commitMin <= b == r.commitMax <= |h|
  }

  /** Has installed view `v` and committed up to `c`. */
  predicate Serving(p: Params, r: Replica, h: Chain, v: nat, c: nat) {
    && Calm(p, r, h, v, v) && r.status == Normal && r.view == r.durableView == v && r.commitMin == c
  }

  /** The run goes on as `y`: only replica `k` changed, and no message was lost. */
  ghost predicate Moved(x: Run, y: Run, k: nat) {
    && IsRun(y) && y.p == x.p && y.but == x.but && x.s.msgs <= y.s.msgs && x.s.decided <= y.s.decided
    && k < |x.s.rs| == |y.s.rs| && y.s.rs == x.s.rs[k := y.s.rs[k]]
  }

  lemma RunParams(x: Run)
    requires IsRun(x)
    ensures ValidParams(x.p) && |x.s.rs| == x.p.n
  {
  }

  // ---- one replica at a time ------------------------------------------------------------------

  lemma JoinOne(x: Run, k: nat, h: Chain, log: nat, u: nat, v: nat) returns (y: Run)
    requires IsRun(x) && k < |x.s.rs| && Calm(x.p, Now(x, k), h, log, u) && log <= u < v
    ensures Moved(x, y, k) && Waiting(x.p, Now(y, k), h, log, v) && Now(y, k).commitMin == Now(x, k).commitMin
    ensures JoinView(v, k, JoinOf(x.p, Now(y, k))) in y.s.msgs
  {
    hide IsRun, JoinOf;
    y := DoChange(x, k, v);
    y := DoPersist(y, k);
    y := DoJoin(y, k);
  }

  lemma ReportOf(p: Params, r: Replica, h: Chain, log: nat)
    requires Holds(p, r, h) && r.logView == log
    ensures Reports(JoinOf(p, r), h, log, p.pipelineMax) && JoinOf(p, r).commit == r.commitMin
  {
  }

  lemma InstallOne(x: Run, k: nat, h: Chain, v: nat, b: nat) returns (y: Run)
    requires IsRun(x) && k < |x.s.rs| && Aiming(x.p, Now(x, k), h, v, b)
    ensures Moved(x, y, k) && Serving(x.p, Now(y, k), h, v, b)
  {
    hide IsRun;
    y := DoRebuild(x, k);
    if Now(y, k).commitMin < b {
      y := DoCommit(y, k, b, {});
    }
    y := DoInstall(y, k);
  }

  lemma AdoptOne(x: Run, k: nat, h: Chain, log: nat, v: nat, b: nat) returns (y: Run)
    requires IsRun(x) && k < |x.s.rs| && Waiting(x.p, Now(x, k), h, log, v) && Primary(x.p, v) != k
    requires View(v, 0, h, b) in x.s.msgs && Now(x, k).commitMin <= b <= |h|
    ensures Moved(x, y, k) && Serving(x.p, Now(y, k), h, v, b)
  {
    hide IsRun;
    var z := DoAccept(x, k, v, 0, h, b, |h|);
    y := InstallOne(z, k, h, v, b);
  }

  lemma LearnOne(x: Run, k: nat, h: Chain, v: nat, c: nat) returns (y: Run)
    requires IsRun(x) && k < |x.s.rs| && Serving(x.p, Now(x, k), h, v, c) && Primary(x.p, v) != k && c < |h|
    requires Commit(v, h) in x.s.msgs
    ensures Moved(x, y, k) && Serving(x.p, Now(y, k), h, v, |h|)
  {
    hide IsRun;
    y := DoLearn(x, k, h);
    y := DoCommit(y, k, |h|, {});
  }

  /** A prepare that extends a settled log. */
  function Extended(h: Chain, v: nat, body: int): (c: Chain) {
    h + [Entry(v, |h|, body)]
  }

  lemma WriteOne(x: Run, k: nat, h: Chain, v: nat, body: int) returns (y: Run)
    requires IsRun(x) && k < |x.s.rs|
    requires var c := Extended(h, v, body); var r := Now(x, k);
      r.dirty == {|c|} && r.head == c && Serving(x.p, r.(head := h, dirty := {}), h, v, |h|)
    ensures Moved(x, y, k) && Serving(x.p, Now(y, k), Extended(h, v, body), v, |h|)
  {
    hide IsRun;
    var c := Extended(h, v, body);
    RunParams(x);
    y := DoWrite(x, k, |c|);
    assert c[..|c|] == c && forall op :: 1 <= op <= |h| ==> c[..op] == h[..op];
  }

  lemma PrepareOne(x: Run, k: nat, h: Chain, v: nat, body: int) returns (y: Run)
    requires IsRun(x) && k < |x.s.rs| && Serving(x.p, Now(x, k), h, v, |h|)
    requires Prepare(Extended(h, v, body)) in x.s.msgs
    ensures Moved(x, y, k) && Serving(x.p, Now(y, k), Extended(h, v, body), v, |h|)
  {
    hide IsRun;
    var c := Extended(h, v, body);
    RunParams(x);
    var z := DoPrepare(x, k, c);
    assert Now(z, k).(head := h, dirty := {}) == Now(x, k);
    y := WriteOne(z, k, h, v, body);
  }

  lemma CreateOne(x: Run, k: nat, h: Chain, v: nat, body: int) returns (y: Run)
    requires IsRun(x) && k < |x.s.rs| && Serving(x.p, Now(x, k), h, v, |h|) && Primary(x.p, v) == k
    ensures Moved(x, y, k) && Serving(x.p, Now(y, k), Extended(h, v, body), v, |h|)
    ensures Prepare(Extended(h, v, body)) in y.s.msgs
  {
    hide IsRun;
    RunParams(x);
    var z := DoCreate(x, k, body);
    assert Now(z, k).(head := h, dirty := {}) == Now(x, k);
    y := WriteOne(z, k, h, v, body);
  }

  /** A crash loses nothing that was written: the replica comes back with the same log. */
  lemma CrashOne(x: Run, k: nat, h: Chain, log: nat, v: nat) returns (y: Run)
    requires IsRun(x) && k < |x.s.rs| && Calm(x.p, Now(x, k), h, log, v) && Orderly(h, v)
    ensures Moved(x, y, k) && Calm(x.p, Now(y, k), h, log, v + 1)
  {
    hide IsRun;
    var r := Now(x, k);
    forall op | 0 < op <= |h| ensures Usable(r, r.disk, op, h[..op]) {
      assert ViewOf(h[..op]) == h[op - 1].view;
    }
    y := DoRestart(x, k, h);
  }

  // ---- the whole cluster, phase by phase ---------------------------------------------------------

  /** `y` continues `x`. */
  ghost predicate Goes(x: Run, y: Run) {
    && IsRun(y) && y.p == x.p && y.but == x.but && x.s.msgs <= y.s.msgs && x.s.decided <= y.s.decided
    && |x.s.rs| == |y.s.rs| == x.p.n
  }

  predicate AllCalm(x: Run, h: Chain, log: nat, v: nat) {
    Orderly(h, v) && log <= v && forall k :: 0 <= k < |x.s.rs| ==> Calm(x.p, x.s.rs[k], h, log, v)
  }

  predicate AllServing(x: Run, h: Chain, v: nat, c: nat) {
    Orderly(h, v) && forall k :: 0 <= k < |x.s.rs| ==> Serving(x.p, x.s.rs[k], h, v, c)
  }

  /** The first `m` replicas have joined view `v`. */
  ghost predicate Joined(x: Run, m: nat, h: Chain, log: nat, v: nat) {
    && m <= |x.s.rs|
    && forall k :: 0 <= k < m ==>
         && Waiting(x.p, x.s.rs[k], h, log, v)
         && JoinView(v, k, JoinOf(x.p, x.s.rs[k])) in x.s.msgs
  }

  lemma {:induction false} JoinAll(x: Run, m: nat, h: Chain, log: nat, u: nat, v: nat) returns (y: Run)
    requires IsRun(x) && m <= |x.s.rs| && AllCalm(x, h, log, u) && u < v
    ensures Goes(x, y) && Joined(y, m, h, log, v) && forall k :: m <= k < |x.s.rs| ==> y.s.rs[k] == x.s.rs[k]
  {
    hide IsRun, Calm, Waiting, JoinOf, Orderly;
    RunParams(x);
    if m == 0 {
      y := x;
    } else {
      var z := JoinAll(x, m - 1, h, log, u, v);
      y := JoinOne(z, m - 1, h, log, u, v);
    }
  }

  /** The joins the new primary has received: one from every replica. */
  ghost function Received(x: Run): (js: Joins)
    requires forall k :: 0 <= k < |x.s.rs| ==> |x.s.rs[k].checkpoint| <= |x.s.rs[k].head|
  {
    seq(|x.s.rs|, k requires 0 <= k < |x.s.rs| => Some(JoinOf(x.p, x.s.rs[k])))
  }

  lemma ReceivedIsUnanimous(x: Run, h: Chain, log: nat, v: nat)
    requires IsRun(x) && Joined(x, x.p.n, h, log, v)
    ensures forall k :: 0 <= k < |x.s.rs| ==> |x.s.rs[k].checkpoint| <= |x.s.rs[k].head|
    ensures Unanimous(Received(x), h, log, x.p.pipelineMax) && Senders(Received(x)) == Members(x.p.n)
    ensures forall k :: 0 <= k < |x.s.rs| ==> Received(x)[k].value.commit == x.s.rs[k].commitMin
  {
    hide IsRun, JoinOf, Reports;
    RunParams(x);
    forall k | 0 <= k < |x.s.rs|
      ensures |x.s.rs[k].checkpoint| <= |x.s.rs[k].head|
      ensures Reports(JoinOf(x.p, x.s.rs[k]), h, log, x.p.pipelineMax) && JoinOf(x.p, x.s.rs[k]).commit == x.s.rs[k].commitMin
    {
      ReportOf(x.p, x.s.rs[k], h, log);
    }
    assert forall k: nat :: k in Members(x.p.n) <==> k < x.p.n;
  }

  lemma OrderlyHeaders(h: Chain, v: nat)
    requires Orderly(h, v)
    ensures CommitOf(h) <= |h| && forall op :: 0 <= op <= |h| ==> ViewOf(h[..op]) <= v
  {
    forall op | 0 < op <= |h| ensures ViewOf(h[..op]) <= v {
      assert h[..op][op - 1] == h[op - 1];
    }
  }

  /** What the joins of all replicas select. */
  lemma Selected(x: Run, h: Chain, log: nat, v: nat, own: Own) returns (js: Joins, b: nat)
    requires IsRun(x) && Joined(x, x.p.n, h, log, v) && Orderly(h, v)
    requires own == Own(own.commitMin, own.commitMin, 0) && own.commitMin <= |h|
    ensures |js| == x.p.n && ValidJoins(js, x.p.pipelineMax) && |Senders(js)| >= x.p.viewChange
    ensures forall q :: 0 <= q < |js| && js[q].Some? ==> JoinView(v, q, js[q].value) in x.s.msgs
    ensures own.commitMin <= b <= |h| <= b + x.p.pipelineMax
    ensures Select(js, own, x.p.negative, x.p.pipelineMax) == Suffix(b, Prefixes(h, b, |h| + 1 - b))
    ensures forall k :: 0 <= k < |x.s.rs| ==> x.s.rs[k].commitMin <= b
  {
    hide IsRun, Select, ValidJoins, Senders, Bound, Unanimous, JoinOf, Orderly, Waiting, Prefixes;
    RunParams(x);
    ReceivedIsUnanimous(x, h, log, v);
    js := Received(x);
    OrderlyHeaders(h, v);
    MembersSize(x.p.n);
    UnanimousSelect(js, h, log, own, x.p.negative, x.p.pipelineMax);
    b := Bound(js, own, x.p.pipelineMax);
    forall k | 0 <= k < |x.s.rs| ensures x.s.rs[k].commitMin <= b {
      assert js[k].value.commit == x.s.rs[k].commitMin;
    }
  }

  /** The new primary has every join and selects the whole log. */
  lemma SelectOne(x: Run, h: Chain, log: nat, v: nat) returns (y: Run, b: nat)
    requires IsRun(x) && Joined(x, x.p.n, h, log, v) && Orderly(h, v)
    ensures var i := Primary(x.p, v);
      && Moved(x, y, i) && y.s.msgs == x.s.msgs && Aiming(x.p, Now(y, i), h, v, b)
      && forall k :: 0 <= k < |x.s.rs| ==> x.s.rs[k].commitMin <= b
  {
    hide IsRun, Select, ValidJoins, Senders, JoinOf, Orderly;
    RunParams(x);
    var i := Primary(x.p, v);
    assert Waiting(x.p, Now(x, i), h, log, v);
    var js;
    js, b := Selected(x, h, log, v, OwnOf(Now(x, i)));
    OrderlyHeaders(h, v);
    assert Prefixes(h, b, |h| + 1 - b)[|h| - b] == h[..|h|] == h;
    y := DoSelect(x, i, js, |h|, b, Prefixes(h, b, |h| + 1 - b));
  }

  lemma ShowOne(x: Run, k: nat, h: Chain, v: nat, b: nat) returns (y: Run)
    requires IsRun(x) && k < |x.s.rs| && Serving(x.p, Now(x, k), h, v, b) && Primary(x.p, v) == k
    ensures Moved(x, y, k) && y.s.rs == x.s.rs && View(v, 0, h, b) in y.s.msgs && b <= |h|
  {
    hide IsRun;
    y := DoView(x, k, 0);
  }

  lemma {:induction false} AdoptAll(x: Run, m: nat, h: Chain, log: nat, v: nat, b: nat) returns (y: Run)
    requires IsRun(x) && m <= |x.s.rs| && View(v, 0, h, b) in x.s.msgs && b <= |h|
    requires Primary(x.p, v) < |x.s.rs| && Serving(x.p, x.s.rs[Primary(x.p, v)], h, v, b)
    requires forall k :: 0 <= k < |x.s.rs| && k != Primary(x.p, v) ==>
      Waiting(x.p, x.s.rs[k], h, log, v) && x.s.rs[k].commitMin <= b
    ensures Goes(x, y) && forall k :: 0 <= k < m ==> Serving(x.p, y.s.rs[k], h, v, b)
    ensures forall k :: m <= k < |x.s.rs| ==> y.s.rs[k] == x.s.rs[k]
  {
    hide IsRun, Serving, Waiting, Primary;
    RunParams(x);
    if m == 0 {
      y := x;
    } else {
      y := AdoptAll(x, m - 1, h, log, v, b);
      if m - 1 != Primary(x.p, v) {
        y := AdoptOne(y, m - 1, h, log, v, b);
      }
    }
  }

  /** A view change: every replica ends up in view `v` with the log it had. */
  lemma ChangeView(x: Run, h: Chain, log: nat, u: nat, v: nat) returns (y: Run, b: nat)
    requires IsRun(x) && AllCalm(x, h, log, u) && u < v
    ensures Goes(x, y) && AllServing(y, h, v, b) && b <= |h|
  {
    hide IsRun, Calm, Waiting, JoinOf, Primary, Serving, Aiming;
    RunParams(x);
    var i := Primary(x.p, v);
    y := JoinAll(x, x.p.n, h, log, u, v);
    assert Joined(y, y.p.n, h, log, v);
    y, b := SelectOne(y, h, log, v);
    y := InstallOne(y, i, h, v, b);
    y := ShowOne(y, i, h, v, b);
    y := AdoptAll(y, x.p.n, h, log, v, b);
  }

  lemma {:induction false} AckAll(x: Run, m: nat, h: Chain, v: nat, c: nat) returns (y: Run)
    requires IsRun(x) && m <= |x.s.rs| && AllServing(x, h, v, c) && h != []
    ensures Goes(x, y) && y.s.rs == x.s.rs && forall k :: 0 <= k < m ==> PrepareOK(v, k, h) in y.s.msgs
  {
    hide IsRun, Orderly;
    RunParams(x);
    if m == 0 {
      y := x;
    } else {
      y := AckAll(x, m - 1, h, v, c);
      assert h[..|h|] == h;
      y := DoAck(y, m - 1, |h|);
    }
  }

  lemma {:induction false} LearnAll(x: Run, m: nat, h: Chain, v: nat, c: nat) returns (y: Run)
    requires IsRun(x) && m <= |x.s.rs| && Commit(v, h) in x.s.msgs && c < |h|
    requires Primary(x.p, v) < |x.s.rs| && Serving(x.p, x.s.rs[Primary(x.p, v)], h, v, |h|)
    requires forall k :: 0 <= k < |x.s.rs| && k != Primary(x.p, v) ==> Serving(x.p, x.s.rs[k], h, v, c)
    ensures Goes(x, y) && forall k :: 0 <= k < m ==> Serving(x.p, y.s.rs[k], h, v, |h|)
    ensures forall k :: m <= k < |x.s.rs| ==> y.s.rs[k] == x.s.rs[k]
  {
    hide IsRun, Serving, Primary;
    RunParams(x);
    if m == 0 {
      y := x;
    } else {
      y := LearnAll(x, m - 1, h, v, c);
      if m - 1 != Primary(x.p, v) {
        y := LearnOne(y, m - 1, h, v, c);
      }
    }
  }

  /** The primary commits what every replica has acknowledged. */
  lemma CommitOne(x: Run, h: Chain, v: nat, c: nat) returns (y: Run)
    requires IsRun(x) && AllServing(x, h, v, c) && c < |h|
    requires forall k :: 0 <= k < x.p.n ==> PrepareOK(v, k, h) in x.s.msgs
    ensures Moved(x, y, Primary(x.p, v)) && Serving(x.p, Now(y, Primary(x.p, v)), h, v, |h|)
    ensures Commit(v, h) in y.s.msgs && h in y.s.decided
  {
    hide IsRun, Orderly;
    RunParams(x);
    var i := Primary(x.p, v);
    assert h[..|h|] == h;
    MembersSize(x.p.n);
    y := DoCommit(x, i, |h|, Members(x.p.n));
    y := DoAnnounce(y, i);
  }

  lemma {:induction false} MembersSize(n: nat)
    ensures |Members(n)| == n && forall k: nat :: k in Members(n) <==> k < n
  {
    if n > 0 {
      MembersSize(n - 1);
    }
  }

  /** Everything prepared gets committed everywhere. */
  lemma Settle(x: Run, h: Chain, v: nat, c: nat) returns (y: Run)
    requires IsRun(x) && AllServing(x, h, v, c) && c <= |h|
    ensures Goes(x, y) && AllServing(y, h, v, |h|) && (c < |h| ==> h in y.s.decided)
  {
    hide IsRun, Serving, Primary, Orderly;
    RunParams(x);
    if c == |h| {
      y := x;
    } else {
      y := AckAll(x, x.p.n, h, v, c);
      y := CommitOne(y, h, v, c);
      y := LearnAll(y, x.p.n, h, v, c);
    }
  }

  lemma {:induction false} PrepareAll(x: Run, m: nat, h: Chain, v: nat, body: int) returns (y: Run)
    requires IsRun(x) && m <= |x.s.rs| && Prepare(Extended(h, v, body)) in x.s.msgs
    requires Primary(x.p, v) < |x.s.rs| && Serving(x.p, x.s.rs[Primary(x.p, v)], Extended(h, v, body), v, |h|)
    requires forall k :: 0 <= k < |x.s.rs| && k != Primary(x.p, v) ==> Serving(x.p, x.s.rs[k], h, v, |h|)
    ensures Goes(x, y) && forall k :: 0 <= k < m ==> Serving(x.p, y.s.rs[k], Extended(h, v, body), v, |h|)
    ensures forall k :: m <= k < |x.s.rs| ==> y.s.rs[k] == x.s.rs[k]
  {
    hide IsRun, Serving, Primary, Extended;
    RunParams(x);
    if m == 0 {
      y := x;
    } else {
      y := PrepareAll(x, m - 1, h, v, body);
      if m - 1 != Primary(x.p, v) {
        y := PrepareOne(y, m - 1, h, v, body);
      }
    }
  }

  /** One request, from the primary to a commit at every replica. */
  lemma Append(x: Run, h: Chain, v: nat, body: int) returns (y: Run)
    requires IsRun(x) && AllServing(x, h, v, |h|)
    ensures Goes(x, y) && AllServing(y, Extended(h, v, body), v, |Extended(h, v, body)|)
    ensures Extended(h, v, body) in y.s.decided
  {
    hide IsRun, Serving, Primary;
    RunParams(x);
    var c := Extended(h, v, body);
    y := CreateOne(x, Primary(x.p, v), h, v, body);
    y := PrepareAll(y, x.p.n, h, v, body);
    assert Orderly(c, v);
    y := Settle(y, c, v, |h|);
  }

  // ---- any history of requests and crashes -------------------------------------------------------

  datatype Event = Request(body: int) | Crash(i: nat)

  function Bodies(es: seq<Event>): (bs: seq<int>) {
    if es == [] then []
    else
      var last := es[|es| - 1];
      Bodies(es[..|es| - 1]) + if last.Request? then [last.body] else []
  }

  function BodiesOf(h: Chain): (bs: seq<int>) {
    seq(|h|, k requires 0 <= k < |h| => h[k].body)
  }

  lemma InitCalm(p: Params) returns (x: Run)
    requires ValidParams(p)
    ensures IsRun(x) && x.p == p && x.but == {} && AllCalm(x, [], 0, 1)
  {
    x := Start(p, {});
  }

  lemma ServingIsCalm(x: Run, h: Chain, v: nat)
    requires AllServing(x, h, v, |h|)
    ensures AllCalm(x, h, v, v)
  {
  }

  lemma Requested(x: Run, h: Chain, log: nat, u: nat, body: int) returns (y: Run, c: Chain)
    requires IsRun(x) && AllCalm(x, h, log, u)
    ensures Goes(x, y) && AllCalm(y, c, u + 1, u + 1) && BodiesOf(c) == BodiesOf(h) + [body]
  {
    hide IsRun, AllCalm, AllServing;
    var b;
    y, b := ChangeView(x, h, log, u, u + 1);
    y := Settle(y, h, u + 1, b);
    y := Append(y, h, u + 1, body);
    c := Extended(h, u + 1, body);
    ServingIsCalm(y, c, u + 1);
  }

  lemma Crashes(x: Run, h: Chain, log: nat, u: nat, i: nat) returns (y: Run)
    requires IsRun(x) && AllCalm(x, h, log, u) && i < x.p.n
    ensures Goes(x, y) && AllCalm(y, h, log, u + 1)
  {
    hide IsRun;
    RunParams(x);
    y := CrashOne(x, i, h, log, u);
  }

  lemma {:induction false} Serve(p: Params, es: seq<Event>) returns (x: Run, h: Chain, log: nat, v: nat)
    requires ValidParams(p) && forall e :: e in es && e.Crash? ==> e.i < p.n
    ensures IsRun(x) && x.p == p && x.but == {} && AllCalm(x, h, log, v) && BodiesOf(h) == Bodies(es)
  {
    hide IsRun, AllCalm;
    if es == [] {
      x := InitCalm(p);
      h, log, v := [], 0, 1;
    } else {
      var last := es[|es| - 1];
      x, h, log, v := Serve(p, es[..|es| - 1]);
      match last {
        case Request(body) => x, h := Requested(x, h, log, v, body); log, v := v + 1, v + 1;
        case Crash(i) => x := Crashes(x, h, log, v, i); v := v + 1;
      }
    }
  }

  lemma {:induction false} NothingWaived(p: Params, s: Cluster, steps: seq<Step>, q: Cluster)
    requires ValidParams(p) && RunBut(p, {}, s, steps, q)
    ensures GuardedRun(p, s, steps, q)
    decreases |steps|
  {
    hide Enabled, Apply, Meets, Guarded;
    if steps != [] {
      GuardedMeetsAll(p, s, steps[0]);
      NothingWaived(p, Apply(p, s, steps[0]), steps[1..], q);
    }
  }

  /** Every replica serves in one view, with one log that holds the requests in order, all committed. */
  ghost predicate Committed(p: Params, q: Cluster, bodies: seq<int>) {
    |q.rs| == p.n && forall i, j :: 0 <= i < p.n && 0 <= j < p.n ==>
      && q.rs[i].status == Normal && q.rs[i].repair.NoRepair? && q.rs[i].view == q.rs[j].view && q.rs[i].head == q.rs[j].head
      && BodiesOf(q.rs[i].head) == bodies && q.rs[i].commitMin == |bodies|
      && forall op :: 1 <= op <= |bodies| ==> op in q.rs[i].disk && q.rs[i].disk[op] == Good(q.rs[i].head[..op])
  }

  lemma ServingIsCommitted(x: Run, h: Chain, v: nat)
    requires |x.s.rs| == x.p.n && AllServing(x, h, v, |h|)
    ensures Committed(x.p, x.s, BodiesOf(h))
  {
  }

  /** Whatever the requests and the crashes between them, all can be committed within the five conditions. */
  lemma EveryRequestCanCommit(p: Params, es: seq<Event>)
    requires ValidParams(p) && forall e :: e in es && e.Crash? ==> e.i < p.n
    ensures exists steps, q :: GuardedRun(p, Init(p), steps, q) && Committed(p, q, Bodies(es))
  {
    hide AllCalm, AllServing, GuardedRun, RunBut, Committed;
    var x, h, log, v := Serve(p, es);
    var y, b := ChangeView(x, h, log, v, v + 1);
    y := Settle(y, h, v + 1, b);
    NothingWaived(p, Init(p), y.steps, y.s);
    ServingIsCommitted(y, h, v + 1);
  }
}
