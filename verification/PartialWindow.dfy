/**
  Three replicas: a lagging replica installs a later log view with only a
  window of its log.  At the next view change that log view is the latest, so
  the committed op it lacks is disowned everywhere.
 */
module PartialWindow {
  import opened Chains
  import opened Selection
  import opened Consensus
  import opened ConsensusGuards

  const P := Params(3, 2, 2, 2, 1)
  const A: Chain := [Entry(1, 0, 100)]
  const B: Chain := [Entry(1, 0, 100), Entry(1, 1, 101)]
  const C: Chain := [Entry(1, 0, 100), Entry(3, 1, 200)]

  const JOINS_1: Joins := [
      Some(Join(0, 0, 0, 1, [Some([])], [true], [false])),
      None,
      Some(Join(2, 1, 0, 1, [Some(B), Some(A)], [true, true], [false, false]))]

  lemma Selection1Bounds()
    ensures ValidJoins(JOINS_1, 1) && Senders(JOINS_1) == {0, 2}
    ensures Latest(JOINS_1) == 1 && Bound(JOINS_1, Own(1, 1, 0), 1) == 1 && MaximumHead(JOINS_1, 0) == 2
  {
    BoundIsMaximum(JOINS_1, Own(1, 1, 0), 1);
    HeadIsMaximum(JOINS_1, 0);
    LatestIsMaximum(JOINS_1);
    assert CommittedBound(JOINS_1[0].value, 1) == 0;
    assert CommittedBound(JOINS_1[2].value, 1) == 1;
  }

  lemma Selection1At1()
    ensures ValidJoins(JOINS_1, 1) && Candidate(JOINS_1, 1, 1) == Pick(true, A, 1)
    ensures !Cut(JOINS_1, 1, 1, 2, 1) && Kept(JOINS_1, 1, 1, 1)
  {
    Selection1Bounds();
    var js := JOINS_1;
    assert PickUpTo(js, 0, 1, 1, 1) == Pick(false, [], 0);
    assert PickUpTo(js, 1, 1, 1, 1) == Pick(false, [], 0);
    assert PickUpTo(js, 2, 1, 1, 1) == Pick(false, [], 0);
    assert PickUpTo(js, 3, 1, 1, 1) == Pick(true, A, 1);
    assert Negatives(js, 1, Some(A), 1, 1) == {0};
    assert 2 in Copies(js, 1, Some(A), 1);
  }

  lemma Selection1At2()
    ensures ValidJoins(JOINS_1, 1) && Candidate(JOINS_1, 2, 1) == Pick(true, B, 1)
    ensures !Cut(JOINS_1, 2, 1, 2, 1) && Kept(JOINS_1, 2, 1, 1)
  {
    Selection1Bounds();
    var js := JOINS_1;
    assert PickUpTo(js, 0, 2, 1, 1) == Pick(false, [], 0);
    assert PickUpTo(js, 1, 2, 1, 1) == Pick(false, [], 0);
    assert PickUpTo(js, 2, 2, 1, 1) == Pick(false, [], 0);
    assert PickUpTo(js, 3, 2, 1, 1) == Pick(true, B, 1);
    assert Negatives(js, 2, Some(B), 1, 1) == {0};
    assert 2 in Copies(js, 2, Some(B), 1);
  }

  lemma Selection1()
    ensures ValidJoins(JOINS_1, 1) && Senders(JOINS_1) == {0, 2}
    ensures Select(JOINS_1, Own(1, 1, 0), 2, 1) == Suffix(1, [A, B])
  {
    hide Candidate, Cut, Kept, ValidJoins, Senders, Walk, Bound, MaximumHead, Latest;
    Selection1Bounds();
    Selection1At1();
    WalkKeeps(JOINS_1, 1, 2, 1, 2, [], A);
    var none: seq<Chain> := [];
    assert none + [A] == [A];
    Selection1At2();
    WalkKeeps(JOINS_1, 1, 2, 1, 2, [A], B);
    assert [A] + [B] == [A, B];
    WalkEnds(JOINS_1, 1, 2, 1, 2, [A, B]);
  }

  const JOINS_2: Joins := [
      Some(Join(1, 1, 0, 2, [Some(A), Some([])], [true, true], [false, false])),
      Some(Join(2, 1, 0, 1, [Some(B), Some(A)], [true, true], [false, false])),
      None]

  lemma Selection2Bounds()
    ensures ValidJoins(JOINS_2, 1) && Senders(JOINS_2) == {0, 1}
    ensures Latest(JOINS_2) == 2 && Bound(JOINS_2, Own(1, 1, 0), 1) == 1 && MaximumHead(JOINS_2, 0) == 2
  {
    BoundIsMaximum(JOINS_2, Own(1, 1, 0), 1);
    HeadIsMaximum(JOINS_2, 0);
    LatestIsMaximum(JOINS_2);
    assert CommittedBound(JOINS_2[0].value, 1) == 1;
    assert CommittedBound(JOINS_2[1].value, 1) == 1;
  }

  lemma Selection2At1()
    ensures ValidJoins(JOINS_2, 1) && Candidate(JOINS_2, 1, 1) == Pick(true, A, 2)
    ensures !Cut(JOINS_2, 1, 1, 2, 1) && Kept(JOINS_2, 1, 1, 1)
  {
    Selection2Bounds();
    var js := JOINS_2;
    assert PickUpTo(js, 0, 1, 2, 1) == Pick(false, [], 0);
    assert PickUpTo(js, 1, 1, 2, 1) == Pick(true, A, 2);
    assert PickUpTo(js, 2, 1, 2, 1) == Pick(true, A, 2);
    assert PickUpTo(js, 3, 1, 2, 1) == Pick(true, A, 2);
    assert Negatives(js, 1, Some(A), 2, 1) == {};
    assert 0 in Copies(js, 1, Some(A), 1);
  }

  lemma Selection2At2()
    ensures ValidJoins(JOINS_2, 1) && Candidate(JOINS_2, 2, 1) == Pick(false, [], 0)
    ensures Cut(JOINS_2, 2, 1, 2, 1)
  {
    Selection2Bounds();
    var js := JOINS_2;
    assert PickUpTo(js, 0, 2, 2, 1) == Pick(false, [], 0);
    assert PickUpTo(js, 1, 2, 2, 1) == Pick(false, [], 0);
    assert PickUpTo(js, 2, 2, 2, 1) == Pick(false, [], 0);
    assert PickUpTo(js, 3, 2, 2, 1) == Pick(false, [], 0);
    assert Negatives(js, 2, None, 2, 1) == {0, 1};
  }

  lemma Selection2()
    ensures ValidJoins(JOINS_2, 1) && Senders(JOINS_2) == {0, 1}
    ensures Select(JOINS_2, Own(1, 1, 0), 2, 1) == Suffix(1, [A])
  {
    hide Candidate, Cut, Kept, ValidJoins, Senders, Walk, Bound, MaximumHead, Latest;
    Selection2Bounds();
    Selection2At1();
    WalkKeeps(JOINS_2, 1, 2, 1, 2, [], A);
    var none: seq<Chain> := [];
    assert none + [A] == [A];
    Selection2At2();
    WalkCuts(JOINS_2, 1, 2, 1, 2, [A]);
  }

  lemma Part1() returns (x: Run)
    ensures IsRun(x) && x.p == P && x.but == {WindowInLog}
    ensures x.s.rs == [
      Replica(1, 0, 0, 0, [], map[], ViewChange, 1, [], {}, 0, 0, 0, NoRepair, false),
      Replica(1, 0, 0, 0, [], map[], ViewChange, 1, [], {}, 0, 0, 0, NoRepair, false),
      Replica(0, 0, 0, 0, [], map[], Normal, 0, [], {}, 0, 0, 0, NoRepair, false)]
    ensures JoinView(1, 0, BLANK) in x.s.msgs
    ensures JoinView(1, 1, BLANK) in x.s.msgs
  {
    hide IsRun, Select, ValidJoins, Senders;
    x := Start(P, {WindowInLog});
    x := DoPersist(x, 0);
    assert Now(x, 0).head[..0] == [];
    assert JoinOf(P, Now(x, 0)) == BLANK;
    x := DoJoin(x, 0);
    x := DoChange(x, 1, 1);
    x := DoPersist(x, 1);
    assert Now(x, 1).head[..0] == [];
    assert JoinOf(P, Now(x, 1)) == BLANK;
    x := DoJoin(x, 1);
  }

  lemma Part2() returns (x: Run)
    ensures IsRun(x) && x.p == P && x.but == {WindowInLog}
    ensures x.s.rs == [
      Replica(1, 0, 0, 0, [], map[], ViewChange, 1, [], {}, 0, 0, 0, NoRepair, false),
      Replica(1, 1, 0, 0, [], map[], Normal, 1, [], {}, 0, 0, 0, NoRepair, false),
      Replica(0, 0, 0, 0, [], map[], Normal, 0, [], {}, 0, 0, 0, NoRepair, false)]
    ensures View(1, 0, [], 0) in x.s.msgs
  {
    hide IsRun, Select, ValidJoins, Senders;
    x := Part1();
    x := DoSelectBlanks(x, 1, {0, 1});
    x := DoRebuild(x, 1);
    x := DoInstall(x, 1);
    x := DoView(x, 1, 0);
  }

  lemma Part3() returns (x: Run)
    ensures IsRun(x) && x.p == P && x.but == {WindowInLog}
    ensures x.s.rs == [
      Replica(1, 1, 0, 0, [], map[], Normal, 1, [], {}, 0, 0, 0, NoRepair, false),
      Replica(1, 1, 0, 0, [], map[], Normal, 1, [], {}, 0, 0, 0, NoRepair, false),
      Replica(1, 1, 0, 0, [], map[], Normal, 1, [], {}, 0, 0, 0, NoRepair, false)]
  {
    hide IsRun, Select, ValidJoins, Senders;
    x := Part2();
    x := DoAccept(x, 0, 1, 0, [], 0, 0);
    x := DoRebuild(x, 0);
    x := DoInstall(x, 0);
    x := DoChange(x, 2, 1);
    x := DoPersist(x, 2);
    x := DoAccept(x, 2, 1, 0, [], 0, 0);
    x := DoRebuild(x, 2);
    x := DoInstall(x, 2);
  }

  lemma Part4() returns (x: Run)
    ensures IsRun(x) && x.p == P && x.but == {WindowInLog}
    ensures x.s.rs == [
      Replica(1, 1, 0, 0, [], map[], Normal, 1, [], {}, 0, 0, 0, NoRepair, false),
      Replica(1, 1, 0, 0, [], map[1 := Good(A)], Normal, 1, A, {}, 1, 1, 0, NoRepair, false),
      Replica(1, 1, 0, 0, [], map[1 := Good(A)], Normal, 1, A, {}, 1, 1, 0, NoRepair, false)]
  {
    hide IsRun, Select, ValidJoins, Senders;
    x := Part3();
    x := DoCreate(x, 1, 100);
    assert Now(x, 1).head == A;
    assert Now(x, 1).dirty == {1};
    x := DoWrite(x, 1, 1);
    assert A == A[..1];
    assert Now(x, 1).disk == map[1 := Good(A)];
    assert Now(x, 1).dirty == {};
    assert Now(x, 1).head[..1] == A;
    x := DoAck(x, 1, 1);
    assert IsParent(Now(x, 2).head, A);
    x := DoPrepare(x, 2, A);
    assert Now(x, 2).dirty == {1};
    x := DoWrite(x, 2, 1);
    assert A == A[..1];
    assert Now(x, 2).disk == map[1 := Good(A)];
    assert Now(x, 2).dirty == {};
    assert Now(x, 2).head[..1] == A;
    x := DoAck(x, 2, 1);
    assert Now(x, 1).head[..1] == A;
    x := DoCommit(x, 1, 1, {1, 2});
    assert Now(x, 1).head[..1] == A;
    x := DoAnnounce(x, 1);
    x := DoLearn(x, 2, A);
    assert Now(x, 2).head[..1] == A;
    x := DoCommit(x, 2, 1, {});
  }

  lemma Part5() returns (x: Run)
    ensures IsRun(x) && x.p == P && x.but == {WindowInLog}
    ensures x.s.rs == [
      Replica(1, 1, 0, 0, [], map[], Normal, 1, [], {}, 0, 0, 0, NoRepair, false),
      Replica(1, 1, 0, 0, [], map[1 := Good(A), 2 := Good(B)], Normal, 1, B, {}, 2, 2, 0, NoRepair, false),
      Replica(1, 1, 0, 0, [], map[1 := Good(A), 2 := Good(B)], Normal, 1, B, {}, 1, 1, 0, NoRepair, false)]
    ensures B in x.s.decided
  {
    hide IsRun, Select, ValidJoins, Senders;
    x := Part4();
    x := DoCreate(x, 1, 101);
    assert Now(x, 1).head == B;
    assert Now(x, 1).dirty == {2};
    x := DoWrite(x, 1, 2);
    assert B == B[..2];
    assert Now(x, 1).disk == map[1 := Good(A), 2 := Good(B)];
    assert Now(x, 1).dirty == {};
    assert Now(x, 1).head[..2] == B;
    x := DoAck(x, 1, 2);
    assert IsParent(Now(x, 2).head, B);
    x := DoPrepare(x, 2, B);
    assert Now(x, 2).dirty == {2};
    x := DoWrite(x, 2, 2);
    assert B == B[..2];
    assert Now(x, 2).disk == map[1 := Good(A), 2 := Good(B)];
    assert Now(x, 2).dirty == {};
    assert Now(x, 2).head[..2] == B;
    x := DoAck(x, 2, 2);
    assert Now(x, 1).head[..2] == B;
    x := DoCommit(x, 1, 2, {1, 2});
  }

  lemma Part6() returns (x: Run)
    ensures IsRun(x) && x.p == P && x.but == {WindowInLog}
    ensures x.s.rs == [
      Replica(2, 1, 0, 0, [], map[], ViewChange, 2, [], {}, 0, 0, 0, NoRepair, false),
      Replica(1, 1, 0, 0, [], map[1 := Good(A), 2 := Good(B)], Normal, 1, B, {}, 2, 2, 0, NoRepair, false),
      Replica(2, 1, 2, 1, [], map[1 := Good(A), 2 := Good(B)], ViewChange, 2, B, {}, 1, 1, 0, NoRepair, false)]
    ensures JoinView(2, 2, Join(2, 1, 0, 1, [Some(B), Some(A)], [true, true], [false, false])) in x.s.msgs
    ensures JoinView(2, 0, Join(0, 0, 0, 1, [Some([])], [true], [false])) in x.s.msgs
    ensures B in x.s.decided
  {
    hide IsRun, Select, ValidJoins, Senders;
    x := Part5();
    x := DoChange(x, 2, 2);
    x := DoPersist(x, 2);
    assert Now(x, 2).head[..2] == B;
    assert Now(x, 2).head[..1] == A;
    assert JoinOf(P, Now(x, 2)) == Join(2, 1, 0, 1, [Some(B), Some(A)], [true, true], [false, false]);
    x := DoJoin(x, 2);
    x := DoChange(x, 0, 2);
    x := DoPersist(x, 0);
    assert Now(x, 0).head[..0] == [];
    assert JoinOf(P, Now(x, 0)) == Join(0, 0, 0, 1, [Some([])], [true], [false]);
    x := DoJoin(x, 0);
  }

  lemma Part7() returns (x: Run)
    ensures IsRun(x) && x.p == P && x.but == {WindowInLog}
    ensures x.s.rs == [
      Replica(2, 1, 0, 0, [], map[], ViewChange, 2, [], {}, 0, 0, 0, NoRepair, false),
      Replica(1, 1, 0, 0, [], map[1 := Good(A), 2 := Good(B)], Normal, 1, B, {}, 2, 2, 0, NoRepair, false),
      Replica(2, 2, 2, 1, [], map[1 := Good(A), 2 := Good(B)], Normal, 2, B, {}, 1, 1, 0, NoRepair, false)]
    ensures View(2, 0, B, 1) in x.s.msgs
    ensures B in x.s.decided
  {
    hide IsRun, Select, ValidJoins, Senders;
    x := Part6();
    Selection1();
    x := DoSelect(x, 2, JOINS_1, 2, 1, [A, B]);
    x := DoRebuild(x, 2);
    x := DoInstall(x, 2);
    x := DoView(x, 2, 0);
  }

  lemma Part8() returns (x: Run)
    ensures IsRun(x) && x.p == P && x.but == {WindowInLog}
    ensures x.s.rs == [
      Replica(2, 2, 1, 1, [], map[1 := Good(A)], Normal, 2, A, {}, 1, 1, 0, NoRepair, false),
      Replica(1, 1, 0, 0, [], map[1 := Good(A), 2 := Good(B)], Normal, 1, B, {}, 2, 2, 0, NoRepair, false),
      Replica(2, 2, 2, 1, [], map[1 := Good(A), 2 := Good(B)], Normal, 2, B, {}, 1, 1, 0, NoRepair, false)]
    ensures B in x.s.decided
  {
    hide IsRun, Select, ValidJoins, Senders;
    x := Part7();
    assert B[..1] == A;
    x := DoWindow(x, 0, 2, 0, B, 1);
    x := DoRewrite(x, 0, 1);
    assert A == A[..1];
    assert Now(x, 0).disk == map[1 := Good(A)];
    x := DoRebuild(x, 0);
    assert Now(x, 0).head[..1] == A;
    x := DoCommit(x, 0, 1, {});
    x := DoInstall(x, 0);
  }

  lemma Part9() returns (x: Run)
    ensures IsRun(x) && x.p == P && x.but == {WindowInLog}
    ensures x.s.rs == [
      Replica(2, 2, 1, 1, [], map[1 := Good(A)], Normal, 2, A, {}, 1, 1, 0, NoRepair, false),
      Replica(1, 1, 0, 0, [], map[1 := Good(A), 2 := Good(B)], ViewChange, 2, B, {}, 1, 1, 0, NoRepair, false),
      Replica(2, 2, 2, 1, [], map[1 := Good(A), 2 := Good(B)], Normal, 2, B, {}, 1, 1, 0, NoRepair, false)]
    ensures B in x.s.decided
  {
    hide IsRun, Select, ValidJoins, Senders;
    x := Part8();
    assert B[..1] == A;
    assert B[..2] == B;
    x := DoRestart(x, 1, B);
  }

  lemma Part10() returns (x: Run)
    ensures IsRun(x) && x.p == P && x.but == {WindowInLog}
    ensures x.s.rs == [
      Replica(3, 2, 1, 1, [], map[1 := Good(A)], ViewChange, 3, A, {}, 1, 1, 0, NoRepair, false),
      Replica(3, 1, 2, 1, [], map[1 := Good(A), 2 := Good(B)], ViewChange, 3, B, {}, 1, 1, 0, NoRepair, false),
      Replica(2, 2, 2, 1, [], map[1 := Good(A), 2 := Good(B)], Normal, 2, B, {}, 1, 1, 0, NoRepair, false)]
    ensures JoinView(3, 1, Join(2, 1, 0, 1, [Some(B), Some(A)], [true, true], [false, false])) in x.s.msgs
    ensures JoinView(3, 0, Join(1, 1, 0, 2, [Some(A), Some([])], [true, true], [false, false])) in x.s.msgs
    ensures B in x.s.decided
  {
    hide IsRun, Select, ValidJoins, Senders;
    x := Part9();
    x := DoChange(x, 1, 3);
    x := DoPersist(x, 1);
    assert Now(x, 1).head[..2] == B;
    assert Now(x, 1).head[..1] == A;
    assert JoinOf(P, Now(x, 1)) == Join(2, 1, 0, 1, [Some(B), Some(A)], [true, true], [false, false]);
    x := DoJoin(x, 1);
    x := DoChange(x, 0, 3);
    x := DoPersist(x, 0);
    assert Now(x, 0).head[..1] == A;
    assert Now(x, 0).head[..0] == [];
    assert JoinOf(P, Now(x, 0)) == Join(1, 1, 0, 2, [Some(A), Some([])], [true, true], [false, false]);
    x := DoJoin(x, 0);
  }

  lemma Part11() returns (x: Run)
    ensures IsRun(x) && x.p == P && x.but == {WindowInLog}
    ensures x.s.rs == [
      Replica(3, 3, 1, 1, [], map[1 := Good(A)], Normal, 3, A, {}, 1, 1, 0, NoRepair, false),
      Replica(3, 1, 2, 1, [], map[1 := Good(A), 2 := Good(B)], ViewChange, 3, B, {}, 1, 1, 0, NoRepair, false),
      Replica(2, 2, 2, 1, [], map[1 := Good(A), 2 := Good(B)], Normal, 2, B, {}, 1, 1, 0, NoRepair, false)]
    ensures View(3, 0, A, 1) in x.s.msgs
    ensures B in x.s.decided
  {
    hide IsRun, Select, ValidJoins, Senders;
    x := Part10();
    Selection2();
    x := DoSelect(x, 0, JOINS_2, 1, 1, [A]);
    x := DoRebuild(x, 0);
    x := DoInstall(x, 0);
    x := DoView(x, 0, 0);
  }

  lemma Part12() returns (x: Run)
    ensures IsRun(x) && x.p == P && x.but == {WindowInLog}
    ensures x.s.rs == [
      Replica(3, 3, 1, 1, [], map[1 := Good(A)], Normal, 3, A, {}, 1, 1, 0, NoRepair, false),
      Replica(3, 3, 1, 1, [], map[1 := Good(A), 2 := Good(B)], Normal, 3, A, {}, 1, 1, 0, NoRepair, false),
      Replica(2, 2, 2, 1, [], map[1 := Good(A), 2 := Good(B)], Normal, 2, B, {}, 1, 1, 0, NoRepair, false)]
    ensures B in x.s.decided
  {
    hide IsRun, Select, ValidJoins, Senders;
    x := Part11();
    assert Now(x, 1).head[..1] == A[..1];
    x := DoAccept(x, 1, 3, 0, A, 1, 1);
    x := DoRebuild(x, 1);
    x := DoInstall(x, 1);
  }

  lemma Part13() returns (x: Run)
    ensures IsRun(x) && x.p == P && x.but == {WindowInLog}
    ensures x.s.rs == [
      Replica(3, 3, 1, 1, [], map[1 := Good(A), 2 := Good(C)], Normal, 3, C, {}, 2, 2, 0, NoRepair, false),
      Replica(3, 3, 1, 1, [], map[1 := Good(A), 2 := Good(C)], Normal, 3, C, {}, 1, 1, 0, NoRepair, false),
      Replica(2, 2, 2, 1, [], map[1 := Good(A), 2 := Good(B)], Normal, 2, B, {}, 1, 1, 0, NoRepair, false)]
    ensures B in x.s.decided && C in x.s.decided
  {
    hide IsRun, Select, ValidJoins, Senders;
    x := Part12();
    x := DoCreate(x, 0, 200);
    assert Now(x, 0).head == C;
    assert Now(x, 0).dirty == {2};
    assert IsParent(Now(x, 1).head, C);
    x := DoPrepare(x, 1, C);
    assert Now(x, 1).dirty == {2};
    x := DoWrite(x, 1, 2);
    assert C == C[..2];
    assert Now(x, 1).disk == map[1 := Good(A), 2 := Good(C)];
    assert Now(x, 1).dirty == {};
    assert Now(x, 1).head[..2] == C;
    x := DoAck(x, 1, 2);
    x := DoWrite(x, 0, 2);
    assert C == C[..2];
    assert Now(x, 0).disk == map[1 := Good(A), 2 := Good(C)];
    assert Now(x, 0).dirty == {};
    assert Now(x, 0).head[..2] == C;
    x := DoAck(x, 0, 2);
    assert Now(x, 0).head[..2] == C;
    x := DoCommit(x, 0, 2, {0, 1});
  }

  lemma GuardNeeded()
    ensures Needed(P, WindowInLog)
  {
    hide IsRun;
    var x := Part13();
    assert B[..2] == B != C;
    Finish(x, WindowInLog, B, C);
  }
}
