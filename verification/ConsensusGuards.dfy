/**
  The five conditions of Consensus.Guarded, one by one, and the tools to build
  concrete runs that meet all of them but one.
 */
module ConsensusGuards {
  import opened Chains
  import opened Quorums
  import opened Selection
  import opened Consensus

  datatype Guard = LowerOpsDurable | NothingInFlight | OwnLogReached | PromisedFirst | WindowInLog

  predicate Meets(p: Params, s: Cluster, step: Step, g: Guard)
    requires ValidParams(p) && Enabled(p, s, step)
  {
    var r := s.rs[step.i];
    match g
    case LowerOpsDurable => step.Acknowledge? ==> forall k :: k in r.dirty ==> k > step.op
    case NothingInFlight => step.PersistView? ==> r.dirty == {}
    case OwnLogReached => step.AcceptView? && step.view == r.logView && !r.faulty ==> |step.head| >= |r.head|
    case PromisedFirst => step.AcceptView? ==> step.view == r.durableView
    case WindowInLog =>
      step.AcceptWindow? ==>
        step.view == r.logView && !r.faulty && Min(step.commit, r.commitMin + p.pipelineMax) >= |r.head|
  }

  lemma GuardedMeetsAll(p: Params, s: Cluster, step: Step)
    requires ValidParams(p) && Enabled(p, s, step)
    ensures Guarded(p, s, step) <==> forall g :: Meets(p, s, step, g)
  {
    hide Enabled;
    if forall g :: Meets(p, s, step, g) {
      assert Meets(p, s, step, LowerOpsDurable) && Meets(p, s, step, NothingInFlight) && Meets(p, s, step, OwnLogReached);
      assert Meets(p, s, step, PromisedFirst) && Meets(p, s, step, WindowInLog);
    }
  }

  /** A run whose steps meet every condition except perhaps those in `but`. */
  ghost predicate RunBut(p: Params, but: set<Guard>, s: Cluster, steps: seq<Step>, q: Cluster)
    requires ValidParams(p)
    decreases |steps|
  {
    if steps == [] then s == q
    else
      && Enabled(p, s, steps[0]) && (forall g :: g !in but ==> Meets(p, s, steps[0], g))
      && RunBut(p, but, Apply(p, s, steps[0]), steps[1..], q)
  }

  /** Without condition `g`, agreement fails in some run of `p`. */
  ghost predicate Needed(p: Params, g: Guard) {
    ValidParams(p) && exists steps, q :: RunBut(p, {g}, Init(p), steps, q) && !Agreement(q)
  }

  datatype Run = Run(p: Params, but: set<Guard>, steps: seq<Step>, s: Cluster)

  ghost predicate IsRun(x: Run) {
    ValidParams(x.p) && RunBut(x.p, x.but, Init(x.p), x.steps, x.s) && |x.s.rs| == x.p.n
  }

  lemma Start(p: Params, but: set<Guard>) returns (x: Run)
    requires ValidParams(p)
    ensures x == Run(p, but, [], Init(p)) && IsRun(x)
  {
    x := Run(p, but, [], Init(p));
  }

  lemma Finish(x: Run, g: Guard, c: Chain, d: Chain)
    requires IsRun(x) && x.but == {g} && c in x.s.decided && d in x.s.decided && !Comparable(c, d)
    ensures Needed(x.p, g)
  {
  }

  lemma {:induction false} Extend(p: Params, but: set<Guard>, s: Cluster, steps: seq<Step>, t: Cluster, step: Step)
    requires ValidParams(p) && RunBut(p, but, s, steps, t)
    requires Enabled(p, t, step) && forall g :: g !in but ==> Meets(p, t, step, g)
    ensures RunBut(p, but, s, steps + [step], Apply(p, t, step))
    decreases |steps|
  {
    hide Enabled, Apply, Meets;
    if steps == [] {
      assert (steps + [step])[1..] == [];
    } else {
      assert (steps + [step])[1..] == steps[1..] + [step];
      Extend(p, but, Apply(p, s, steps[0]), steps[1..], t, step);
    }
  }

  lemma ApplySize(p: Params, s: Cluster, step: Step)
    requires ValidParams(p) && Enabled(p, s, step)
    ensures |Apply(p, s, step).rs| == |s.rs|
  {
    hide Select, ValidJoins, Crashed, IsRecovered, AncestorAt, Rewritten, ViewAdmitted;
  }

  lemma Take(x: Run, step: Step) returns (y: Run)
    requires IsRun(x) && Enabled(x.p, x.s, step) && forall g :: g !in x.but ==> Meets(x.p, x.s, step, g)
    ensures y == x.(steps := x.steps + [step], s := Apply(x.p, x.s, step)) && IsRun(y)
  {
    hide Enabled, Apply, Meets;
    Extend(x.p, x.but, Init(x.p), x.steps, x.s, step);
    ApplySize(x.p, x.s, step);
    y := x.(steps := x.steps + [step], s := Apply(x.p, x.s, step));
  }

  // ---- the walk of a concrete selection, one op at a time ----------------------------------

  lemma WalkKeeps(js: Joins, bound: nat, negative: nat, pipelineMax: nat, maximum: nat, kept: seq<Chain>, header: Chain)
    requires ValidJoins(js, pipelineMax) && bound + |kept| <= maximum
    requires var op := bound + |kept|;
      && !Cut(js, op, bound, negative, pipelineMax) && Kept(js, op, bound, pipelineMax)
      && Candidate(js, op, bound).header == header
    requires kept != [] ==> IsParent(kept[|kept| - 1], header)
    ensures Walk(js, bound, negative, pipelineMax, maximum, kept) == Walk(js, bound, negative, pipelineMax, maximum, kept + [header])
  {
    hide Candidate, Cut, IsParent;
  }

  lemma WalkCuts(js: Joins, bound: nat, negative: nat, pipelineMax: nat, maximum: nat, kept: seq<Chain>)
    requires ValidJoins(js, pipelineMax) && bound + |kept| <= maximum
    requires !Candidate(js, bound + |kept|, bound).Conflict? && Cut(js, bound + |kept|, bound, negative, pipelineMax)
    ensures Walk(js, bound, negative, pipelineMax, maximum, kept) == Some(kept)
  {
    hide Candidate, Cut;
  }

  lemma WalkEnds(js: Joins, bound: nat, negative: nat, pipelineMax: nat, maximum: nat, kept: seq<Chain>)
    requires ValidJoins(js, pipelineMax) && bound + |kept| > maximum
    ensures Walk(js, bound, negative, pipelineMax, maximum, kept) == Some(kept)
  {
  }

  // ---- the first selection of a formatted cluster ------------------------------------------

  /** The join of a replica that has no prepare and never left log view 0. */
  const BLANK := Join(0, 0, 0, 0, [Some([])], [true], [false])

  /** Exactly the `senders` among `n` replicas have joined, each with an empty log. */
  function Blanks(n: nat, senders: set<nat>): (js: Joins) {
    seq(n, i requires 0 <= i < n => if i in senders then Some(BLANK) else None)
  }

  lemma {:induction false} BlankPick(n: nat, senders: set<nat>, k: nat)
    requires k <= n
    ensures var p := PickUpTo(Blanks(n, senders), k, 0, 0, 0);
      p == Pick(p.Pick? && p.found, [], 0) && p.found == exists i :: i in senders && i < k
  {
    if k > 0 {
      BlankPick(n, senders, k - 1);
      assert Blanks(n, senders)[k - 1] == if k - 1 in senders then Some(BLANK) else None;
    }
  }

  lemma BlankBounds(n: nat, senders: set<nat>, pipelineMax: nat)
    ensures var js := Blanks(n, senders);
      && ValidJoins(js, pipelineMax) && Latest(js) == 0
      && Bound(js, Own(0, 0, 0), pipelineMax) == 0 && MaximumHead(js, 0) == 0
  {
    var js := Blanks(n, senders);
    assert CommittedBound(BLANK, pipelineMax) == 0;
    BoundIsMaximum(js, Own(0, 0, 0), pipelineMax);
    HeadIsMaximum(js, 0);
    LatestIsMaximum(js);
  }

  lemma BlankRoot(n: nat, senders: set<nat>, negative: nat, pipelineMax: nat)
    requires senders != {} && forall i :: i in senders ==> i < n
    ensures var js := Blanks(n, senders);
      && ValidJoins(js, pipelineMax) && Senders(js) == senders && Candidate(js, 0, 0) == Pick(true, [], 0)
      && !Cut(js, 0, 0, negative, pipelineMax) && Kept(js, 0, 0, pipelineMax)
  {
    BlankBounds(n, senders, pipelineMax);
    BlankPick(n, senders, n);
    var i :| i in senders;
    assert i in Copies(Blanks(n, senders), 0, Some([]), pipelineMax);
  }

  /** The first selection starts the log at the root. */
  lemma SelectBlanks(n: nat, senders: set<nat>, negative: nat, pipelineMax: nat)
    requires senders != {} && forall i :: i in senders ==> i < n
    ensures var js := Blanks(n, senders);
      && ValidJoins(js, pipelineMax) && Senders(js) == senders
      && Select(js, Own(0, 0, 0), negative, pipelineMax) == Suffix(0, [[]])
  {
    hide Candidate, Cut, Kept, ValidJoins, Senders, Walk, Bound, MaximumHead, Latest, Blanks;
    var js := Blanks(n, senders);
    BlankBounds(n, senders, pipelineMax);
    BlankRoot(n, senders, negative, pipelineMax);
    WalkKeeps(js, 0, negative, pipelineMax, 0, [], []);
    var none: seq<Chain> := [];
    assert none + [[]] == [[]];
    WalkEnds(js, 0, negative, pipelineMax, 0, [[]]);
  }

  // ---- one lemma per kind of step: what it needs and what it does -------------------------

  function Now(x: Run, i: nat): (r: Replica)
    requires i < |x.s.rs|
  {
    x.s.rs[i]
  }

  /** The run after a step of replica `i` that leaves it as `r`. */
  function After(x: Run, i: nat, r: Replica, step: Step): (y: Run)
    requires i < |x.s.rs|
  {
    x.(steps := x.steps + [step], s := x.s.(rs := x.s.rs[i := r]))
  }

  function Sent(x: Run, m: Message, step: Step): (y: Run) {
    x.(steps := x.steps + [step], s := x.s.(msgs := x.s.msgs + {m}))
  }

  lemma DoPersist(x: Run, i: nat) returns (y: Run)
    requires IsRun(x) && i < |x.s.rs|
    requires Now(x, i).status == ViewChange && Now(x, i).durableView < Now(x, i).view
    requires NothingInFlight in x.but || Now(x, i).dirty == {}
    ensures IsRun(y)
    ensures var r := Now(x, i);
      y == After(x, i, r.(durableView := r.view, durableHead := |r.head|,
                          durableCommit := Max(r.durableCommit, r.commitMax)), PersistView(i))
  {
    hide RunBut;
    y := Take(x, PersistView(i));
  }

  lemma DoJoin(x: Run, i: nat) returns (y: Run)
    requires IsRun(x) && i < |x.s.rs|
    requires Now(x, i).status == ViewChange && Now(x, i).durableView == Now(x, i).view
    requires |Now(x, i).checkpoint| <= |Now(x, i).head|
    ensures IsRun(y)
    ensures y == Sent(x, JoinView(Now(x, i).view, i, JoinOf(x.p, Now(x, i))), SendJoin(i))
  {
    hide RunBut, JoinOf;
    y := Take(x, SendJoin(i));
  }

  lemma DoChange(x: Run, i: nat, v: nat) returns (y: Run)
    requires IsRun(x) && i < |x.s.rs|
    requires Now(x, i).repair.NoRepair? && !Now(x, i).faulty && v > Now(x, i).view
    ensures IsRun(y)
    ensures y == After(x, i, Now(x, i).(status := ViewChange, view := v), BeginViewChange(i, v))
  {
    hide RunBut;
    y := Take(x, BeginViewChange(i, v));
  }

  lemma DoSelect(x: Run, i: nat, js: Joins, a: nat, commit: nat, headers: seq<Chain>) returns (y: Run)
    requires IsRun(x) && i < |x.s.rs|
    requires Now(x, i).status == ViewChange && Now(x, i).durableView == Now(x, i).view && Primary(x.p, Now(x, i).view) == i
    requires |js| == x.p.n && ValidJoins(js, x.p.pipelineMax) && |Senders(js)| >= x.p.viewChange
    requires forall q :: 0 <= q < |js| && js[q].Some? ==> JoinView(Now(x, i).view, q, js[q].value) in x.s.msgs
    requires Select(js, OwnOf(Now(x, i)), x.p.negative, x.p.pipelineMax) == Suffix(commit, headers)
    requires headers != [] && commit >= Now(x, i).commitMin && AncestorAt(Now(x, i), headers[|headers| - 1], a)
    requires Now(x, i).commitMin <= |headers[|headers| - 1]| <= Now(x, i).commitMin + x.p.pipelineMax
    requires forall k :: 0 <= k < |headers| ==> ViewOf(headers[k]) <= Now(x, i).view
    ensures IsRun(y)
    ensures var r := Now(x, i);
      && i < |y.s.rs| && y.p == x.p && y.but == x.but && y.s.msgs == x.s.msgs && y.s.decided == x.s.decided
      && y.s.rs == x.s.rs[i := r.(status := RecoveringHead, commitMax := Max(r.commitMax, commit),
                                  repair := Repair(r.view, commit, headers[|headers| - 1], a, false))]
  {
    hide RunBut, AncestorAt, Senders;
    y := Take(x, SelectSuffix(i, js, a));
  }

  /** The first selection: the senders report empty logs, and so does the primary. */
  lemma DoSelectBlanks(x: Run, i: nat, senders: set<nat>) returns (y: Run)
    requires IsRun(x) && i < |x.s.rs|
    requires Now(x, i).status == ViewChange && Now(x, i).durableView == Now(x, i).view && Primary(x.p, Now(x, i).view) == i
    requires senders != {} && |senders| >= x.p.viewChange
    requires forall q :: q in senders ==> q < x.p.n && JoinView(Now(x, i).view, q, BLANK) in x.s.msgs
    requires OwnOf(Now(x, i)) == Own(0, 0, 0) && Now(x, i).dirty == {}
    ensures IsRun(y)
    ensures var r := Now(x, i);
      && i < |y.s.rs| && y.p == x.p && y.but == x.but && y.s.msgs == x.s.msgs && y.s.decided == x.s.decided
      && y.s.rs == x.s.rs[i := r.(status := RecoveringHead, repair := Repair(r.view, 0, [], 0, false))]
  {
    hide IsRun, Select, ValidJoins, Senders;
    SelectBlanks(x.p.n, senders, x.p.negative, x.p.pipelineMax);
    var js := Blanks(x.p.n, senders);
    assert forall q :: 0 <= q < |js| && js[q].Some? ==> js[q].value == BLANK;
    y := DoSelect(x, i, js, 0, 0, [[]]);
  }

  lemma DoRewrite(x: Run, i: nat, op: nat) returns (y: Run)
    requires IsRun(x) && i < |x.s.rs|
    requires Now(x, i).repair.Repair? && !Now(x, i).repair.rebuilt && Now(x, i).dirty == {}
    requires Now(x, i).repair.ancestor < op <= |Now(x, i).repair.target|
    ensures IsRun(y)
    ensures var r := Now(x, i);
      y == After(x, i, r.(disk := r.disk[op := Good(r.repair.target[..op])]), RewritePrepare(i, op))
  {
    hide RunBut;
    y := Take(x, RewritePrepare(i, op));
  }

  lemma DoRebuild(x: Run, i: nat) returns (y: Run)
    requires IsRun(x) && i < |x.s.rs|
    requires Now(x, i).repair.Repair? && !Now(x, i).repair.rebuilt && Now(x, i).dirty == {} && Rewritten(Now(x, i))
    ensures IsRun(y)
    ensures var r := Now(x, i);
      y == After(x, i, r.(head := r.repair.target, view := r.repair.view, repair := r.repair.(rebuilt := true)), Rebuild(i))
  {
    hide RunBut, Rewritten;
    y := Take(x, Rebuild(i));
  }

  lemma DoInstall(x: Run, i: nat) returns (y: Run)
    requires IsRun(x) && i < |x.s.rs|
    requires Now(x, i).repair.Repair? && Now(x, i).repair.rebuilt && Now(x, i).commitMin >= Now(x, i).repair.commit
    ensures IsRun(y)
    ensures var r := Now(x, i);
      && i < |y.s.rs| && y.p == x.p && y.but == x.but && y.s.msgs == x.s.msgs && y.s.decided == x.s.decided
      && y.s.rs == x.s.rs[i := r.(durableView := r.view, logView := r.view, durableHead := |r.head|,
                                  durableCommit := Max(r.durableCommit, r.repair.commit),
                                  status := Normal, repair := NoRepair, faulty := false)]
  {
    hide RunBut;
    y := Take(x, Install(i));
  }

  lemma DoRequest(x: Run, i: nat, nonce: nat) returns (y: Run)
    requires IsRun(x) && i < |x.s.rs|
    requires nonce != 0 && GetView(nonce) !in x.s.msgs
    ensures IsRun(y)
    ensures y == Sent(x, GetView(nonce), RequestView(i, nonce))
                 .(s := x.s.(msgs := x.s.msgs + {GetView(nonce)}, rs := x.s.rs[i := Now(x, i).(nonce := nonce)]))
  {
    hide RunBut;
    y := Take(x, RequestView(i, nonce));
  }

  lemma DoView(x: Run, i: nat, nonce: nat) returns (y: Run)
    requires IsRun(x) && i < |x.s.rs|
    requires Now(x, i).status == Normal && Primary(x.p, Now(x, i).view) == i && Now(x, i).commitMax <= |Now(x, i).head|
    requires nonce == 0 || GetView(nonce) in x.s.msgs
    ensures IsRun(y)
    ensures y == Sent(x, View(Now(x, i).view, nonce, Now(x, i).head, Now(x, i).commitMax), SendView(i, nonce))
  {
    hide RunBut;
    y := Take(x, SendView(i, nonce));
  }

  lemma DoAccept(x: Run, i: nat, view: nat, nonce: nat, head: Chain, commit: nat, a: nat) returns (y: Run)
    requires IsRun(x) && i < |x.s.rs|
    requires ViewAdmitted(x.p, x.s, i, view, nonce, head, commit)
    requires |head| - Now(x, i).commitMin <= x.p.pipelineMax && AncestorAt(Now(x, i), head, a)
    requires PromisedFirst in x.but || view == Now(x, i).durableView
    requires OwnLogReached in x.but || (view == Now(x, i).logView && !Now(x, i).faulty ==> |head| >= |Now(x, i).head|)
    ensures IsRun(y)
    ensures y == After(x, i, Now(x, i).(status := RecoveringHead, commitMax := commit, nonce := 0,
                          repair := Repair(view, commit, head, a, false)), AcceptView(i, view, nonce, head, commit, a))
  {
    hide RunBut, ViewAdmitted, AncestorAt;
    y := Take(x, AcceptView(i, view, nonce, head, commit, a));
  }

  lemma DoWindow(x: Run, i: nat, view: nat, nonce: nat, head: Chain, commit: nat) returns (y: Run)
    requires IsRun(x) && i < |x.s.rs|
    requires WindowInLog in x.but && ViewAdmitted(x.p, x.s, i, view, nonce, head, commit)
    requires commit > Now(x, i).commitMin && |head| - Now(x, i).commitMin > x.p.pipelineMax
    requires AncestorAt(Now(x, i), head[..Min(commit, Now(x, i).commitMin + x.p.pipelineMax)], Now(x, i).commitMin)
    ensures IsRun(y)
    ensures var window := Min(commit, Now(x, i).commitMin + x.p.pipelineMax);
      y == After(x, i, Now(x, i).(status := RecoveringHead, commitMax := commit, nonce := 0,
                          repair := Repair(view, window, head[..window], Now(x, i).commitMin, false)),
                 AcceptWindow(i, view, nonce, head, commit))
  {
    hide RunBut, AncestorAt;
    y := Take(x, AcceptWindow(i, view, nonce, head, commit));
  }

  lemma DoCreate(x: Run, i: nat, body: int) returns (y: Run)
    requires IsRun(x) && i < |x.s.rs|
    requires Now(x, i).status == Normal && Primary(x.p, Now(x, i).view) == i
    requires |Now(x, i).head| - Now(x, i).commitMin < x.p.pipelineMax
    ensures IsRun(y)
    ensures var r := Now(x, i);
      var c := r.head + [Entry(r.view, r.commitMin, body)];
      && i < |y.s.rs| && y.p == x.p && y.but == x.but && y.s.decided == x.s.decided && y.s.msgs == x.s.msgs + {Prepare(c)}
      && y.s.rs == x.s.rs[i := r.(head := c, dirty := r.dirty + {|c|})]
  {
    hide RunBut;
    y := Take(x, CreatePrepare(i, body));
  }

  lemma DoPrepare(x: Run, i: nat, c: Chain) returns (y: Run)
    requires IsRun(x) && i < |x.s.rs|
    requires Now(x, i).status == Normal && Prepare(c) in x.s.msgs && IsParent(Now(x, i).head, c) && ViewOf(c) == Now(x, i).view
    requires CommitOf(c) <= Now(x, i).commitMin && |Now(x, i).head| - Now(x, i).commitMin < x.p.pipelineMax
    ensures IsRun(y)
    ensures y == After(x, i, Now(x, i).(head := c, dirty := Now(x, i).dirty + {|c|}), AcceptPrepare(i, c))
  {
    hide RunBut;
    y := Take(x, AcceptPrepare(i, c));
  }

  lemma DoWrite(x: Run, i: nat, op: nat) returns (y: Run)
    requires IsRun(x) && i < |x.s.rs|
    requires op in Now(x, i).dirty && op <= |Now(x, i).head|
    ensures IsRun(y)
    ensures var r := Now(x, i);
      y == After(x, i, r.(disk := r.disk[op := Good(r.head[..op])], dirty := r.dirty - {op}), WriteDone(i, op))
  {
    hide RunBut;
    y := Take(x, WriteDone(i, op));
  }

  lemma DoAck(x: Run, i: nat, op: nat) returns (y: Run)
    requires IsRun(x) && i < |x.s.rs|
    requires Now(x, i).status == Normal && 1 <= op <= |Now(x, i).head| && op !in Now(x, i).dirty
    requires LowerOpsDurable in x.but || forall k :: k in Now(x, i).dirty ==> k > op
    ensures IsRun(y)
    ensures y == Sent(x, PrepareOK(Now(x, i).view, i, Now(x, i).head[..op]), Acknowledge(i, op))
  {
    hide RunBut;
    y := Take(x, Acknowledge(i, op));
  }

  lemma DoCommit(x: Run, i: nat, op: nat, acks: set<nat>) returns (y: Run)
    requires IsRun(x) && i < |x.s.rs|
    requires Now(x, i).commitMin < op <= |Now(x, i).head| && op !in Now(x, i).dirty
    requires || (Now(x, i).status == Normal && Primary(x.p, Now(x, i).view) == i && |acks| >= x.p.replication
                 && forall k :: k in acks ==> k < x.p.n && PrepareOK(Now(x, i).view, k, Now(x, i).head[..op]) in x.s.msgs)
             || (Now(x, i).status == Normal && Primary(x.p, Now(x, i).view) != i && op <= Now(x, i).commitMax)
             || (Now(x, i).repair.Repair? && Now(x, i).repair.rebuilt && op <= Now(x, i).repair.commit)
    ensures IsRun(y)
    ensures var r := Now(x, i);
      && i < |y.s.rs| && y.p == x.p && y.but == x.but && y.s.msgs == x.s.msgs && y.s.decided == x.s.decided + {r.head[..op]}
      && y.s.rs == x.s.rs[i := r.(commitMin := op, commitMax := Max(r.commitMax, op))]
  {
    hide RunBut;
    if x.s.rs[i].status == Normal && Primary(x.p, x.s.rs[i].view) == i && |acks| >= x.p.replication
       && (forall k :: k in acks ==> k < x.p.n && PrepareOK(x.s.rs[i].view, k, x.s.rs[i].head[..op]) in x.s.msgs) {
      SubsetSize(acks, Acks(x.p, x.s, x.s.rs[i].view, x.s.rs[i].head[..op]));
    }
    y := Take(x, CommitOp(i, op));
  }

  lemma DoAnnounce(x: Run, i: nat) returns (y: Run)
    requires IsRun(x) && i < |x.s.rs|
    requires Now(x, i).status == Normal && Primary(x.p, Now(x, i).view) == i && Now(x, i).commitMin <= |Now(x, i).head|
    ensures IsRun(y)
    ensures y == Sent(x, Commit(Now(x, i).view, Now(x, i).head[..Now(x, i).commitMin]), SendCommit(i))
  {
    hide RunBut;
    y := Take(x, SendCommit(i));
  }

  lemma DoLearn(x: Run, i: nat, c: Chain) returns (y: Run)
    requires IsRun(x) && i < |x.s.rs|
    requires Now(x, i).status == Normal && Primary(x.p, Now(x, i).view) != i && Commit(Now(x, i).view, c) in x.s.msgs
    requires |c| <= |Now(x, i).head| ==> c <= Now(x, i).head
    ensures IsRun(y)
    ensures y == After(x, i, Now(x, i).(commitMax := Max(Now(x, i).commitMax, |c|)), LearnCommit(i, c))
  {
    hide RunBut;
    y := Take(x, LearnCommit(i, c));
  }

  lemma DoRestart(x: Run, i: nat, head: Chain) returns (y: Run)
    requires IsRun(x) && i < |x.s.rs|
    requires IsRecovered(Now(x, i), Now(x, i).disk, head)
    requires forall op :: op in Now(x, i).disk ==> Now(x, i).disk[op].Good?
    requires Now(x, i).durableCommit <= |head| && RecoveredCommit(x.p, Now(x, i), head) <= |head|
    ensures IsRun(y)
    ensures var r := Now(x, i);
      && i < |y.s.rs| && y.p == x.p && y.but == x.but && y.s.msgs == x.s.msgs
      && y.s.decided == x.s.decided + {head[..RecoveredCommit(x.p, r, head)]}
      && y.s.rs == x.s.rs[i := Reopen(x.p, i, r, r.disk, head, false)]
  {
    hide RunBut, Reopen, RecoveredCommit;
    assert Crashed(x.s.rs[i], {}, {}) == x.s.rs[i].disk;
    y := Take(x, Restart(i, {}, {}, head, false));
  }
}
