/**
  Two replicas: a view message that answers an old request arrives late, in the
  log view the replica already has, and removes a prepare it acknowledged.
 */
module LateViewMessage {
  import opened Chains
  import opened Selection
  import opened Consensus
  import opened ConsensusGuards

  const P := Params(2, 2, 2, 1, 1)
  const A: Chain := [Entry(1, 0, 100)]
  const B: Chain := [Entry(2, 0, 200)]

  const JOINS_1: Joins := [
      Some(Join(0, 0, 0, 1, [Some([])], [true], [false])),
      Some(Join(1, 0, 0, 1, [Some(A), Some([])], [true, true], [false, false]))]

  lemma Selection1Bounds()
    ensures ValidJoins(JOINS_1, 1) && Senders(JOINS_1) == {0, 1}
    ensures Latest(JOINS_1) == 1 && Bound(JOINS_1, Own(0, 0, 0), 1) == 0 && MaximumHead(JOINS_1, 0) == 1
  {
    BoundIsMaximum(JOINS_1, Own(0, 0, 0), 1);
    HeadIsMaximum(JOINS_1, 0);
    LatestIsMaximum(JOINS_1);
    assert CommittedBound(JOINS_1[0].value, 1) == 0;
    assert CommittedBound(JOINS_1[1].value, 1) == 0;
  }

  lemma Selection1At0()
    ensures ValidJoins(JOINS_1, 1) && Candidate(JOINS_1, 0, 0) == Pick(true, [], 1)
    ensures !Cut(JOINS_1, 0, 0, 1, 1) && Kept(JOINS_1, 0, 0, 1)
  {
    Selection1Bounds();
    var js := JOINS_1;
    assert PickUpTo(js, 0, 0, 1, 0) == Pick(false, [], 0);
    assert PickUpTo(js, 1, 0, 1, 0) == Pick(true, [], 1);
    assert PickUpTo(js, 2, 0, 1, 0) == Pick(true, [], 1);
    assert Negatives(js, 0, Some([]), 1, 1) == {};
    assert 0 in Copies(js, 0, Some([]), 1);
  }

  lemma Selection1At1()
    ensures ValidJoins(JOINS_1, 1) && Candidate(JOINS_1, 1, 0) == Pick(true, A, 1)
    ensures Cut(JOINS_1, 1, 0, 1, 1)
  {
    Selection1Bounds();
    var js := JOINS_1;
    assert PickUpTo(js, 0, 1, 1, 0) == Pick(false, [], 0);
    assert PickUpTo(js, 1, 1, 1, 0) == Pick(false, [], 0);
    assert PickUpTo(js, 2, 1, 1, 0) == Pick(true, A, 1);
    assert Negatives(js, 1, Some(A), 1, 1) == {0};
  }

  lemma Selection1()
    ensures ValidJoins(JOINS_1, 1) && Senders(JOINS_1) == {0, 1}
    ensures Select(JOINS_1, Own(0, 0, 0), 1, 1) == Suffix(0, [[]])
  {
    hide Candidate, Cut, Kept, ValidJoins, Senders, Walk, Bound, MaximumHead, Latest;
    Selection1Bounds();
    Selection1At0();
    WalkKeeps(JOINS_1, 0, 1, 1, 1, [], []);
    var none: seq<Chain> := [];
    assert none + [[]] == [[]];
    Selection1At1();
    WalkCuts(JOINS_1, 0, 1, 1, 1, [[]]);
  }

  lemma Part1() returns (x: Run)
    ensures IsRun(x) && x.p == P && x.but == {OwnLogReached}
    ensures x.s.rs == [
      Replica(1, 0, 0, 0, [], map[], ViewChange, 1, [], {}, 0, 0, 0, NoRepair, false),
      Replica(1, 0, 0, 0, [], map[], ViewChange, 1, [], {}, 0, 0, 0, NoRepair, false)]
    ensures JoinView(1, 0, BLANK) in x.s.msgs
    ensures JoinView(1, 1, BLANK) in x.s.msgs
    ensures GetView(7) !in x.s.msgs
  {
    hide IsRun, Select, ValidJoins, Senders;
    x := Start(P, {OwnLogReached});
    x := DoPersist(x, 0);
    assert Now(x, 0).head[..0] == [];
    assert JoinOf(P, Now(x, 0)) == BLANK;
    x := DoJoin(x, 0);
    x := DoChange(x, 1, 1);
    x := DoPersist(x, 1);
    assert Now(x, 1).head[..0] == [];
    assert JoinOf(P, Now(x, 1)) == BLANK;
    x := DoJoin(x, 1);
  }

  lemma Part2() returns (x: Run)
    ensures IsRun(x) && x.p == P && x.but == {OwnLogReached}
    ensures x.s.rs == [
      Replica(1, 0, 0, 0, [], map[], ViewChange, 1, [], {}, 0, 0, 0, NoRepair, false),
      Replica(1, 1, 0, 0, [], map[], Normal, 1, [], {}, 0, 0, 0, NoRepair, false)]
    ensures View(1, 0, [], 0) in x.s.msgs
    ensures GetView(7) !in x.s.msgs
  {
    hide IsRun, Select, ValidJoins, Senders;
    x := Part1();
    x := DoSelectBlanks(x, 1, {0, 1});
    x := DoRebuild(x, 1);
    x := DoInstall(x, 1);
    x := DoView(x, 1, 0);
  }

  lemma Part3() returns (x: Run)
    ensures IsRun(x) && x.p == P && x.but == {OwnLogReached}
    ensures x.s.rs == [
      Replica(1, 1, 0, 0, [], map[], Normal, 1, [], {}, 0, 0, 7, NoRepair, false),
      Replica(1, 1, 0, 0, [], map[], Normal, 1, [], {}, 0, 0, 0, NoRepair, false)]
    ensures View(1, 7, [], 0) in x.s.msgs
  {
    hide IsRun, Select, ValidJoins, Senders;
    x := Part2();
    x := DoAccept(x, 0, 1, 0, [], 0, 0);
    x := DoRebuild(x, 0);
    x := DoInstall(x, 0);
    x := DoRequest(x, 0, 7);
    x := DoView(x, 1, 7);
  }

  lemma Part4() returns (x: Run)
    ensures IsRun(x) && x.p == P && x.but == {OwnLogReached}
    ensures x.s.rs == [
      Replica(1, 1, 0, 0, [], map[1 := Good(A)], Normal, 1, A, {}, 0, 0, 7, NoRepair, false),
      Replica(1, 1, 0, 0, [], map[1 := Good(A)], Normal, 1, A, {}, 1, 1, 0, NoRepair, false)]
    ensures View(1, 7, [], 0) in x.s.msgs
    ensures A in x.s.decided
  {
    hide IsRun, Select, ValidJoins, Senders;
    x := Part3();
    x := DoCreate(x, 1, 100);
    assert Now(x, 1).head == A;
    assert Now(x, 1).dirty == {1};
    assert IsParent(Now(x, 0).head, A);
    x := DoPrepare(x, 0, A);
    assert Now(x, 0).dirty == {1};
    x := DoWrite(x, 0, 1);
    assert A == A[..1];
    assert Now(x, 0).disk == map[1 := Good(A)];
    assert Now(x, 0).dirty == {};
    assert Now(x, 0).head[..1] == A;
    x := DoAck(x, 0, 1);
    x := DoWrite(x, 1, 1);
    assert A == A[..1];
    assert Now(x, 1).disk == map[1 := Good(A)];
    assert Now(x, 1).dirty == {};
    assert Now(x, 1).head[..1] == A;
    x := DoAck(x, 1, 1);
    assert Now(x, 1).head[..1] == A;
    x := DoCommit(x, 1, 1, {0, 1});
  }

  lemma Part5() returns (x: Run)
    ensures IsRun(x) && x.p == P && x.but == {OwnLogReached}
    ensures x.s.rs == [
      Replica(1, 1, 0, 0, [], map[1 := Good(A)], Normal, 1, [], {}, 0, 0, 0, NoRepair, false),
      Replica(1, 1, 0, 0, [], map[1 := Good(A)], ViewChange, 2, A, {}, 0, 0, 0, NoRepair, false)]
    ensures A in x.s.decided
  {
    hide IsRun, Select, ValidJoins, Senders;
    x := Part4();
    x := DoAccept(x, 0, 1, 7, [], 0, 0);
    x := DoRebuild(x, 0);
    x := DoInstall(x, 0);
    assert A[..1] == A;
    x := DoRestart(x, 1, A);
  }

  lemma Part6() returns (x: Run)
    ensures IsRun(x) && x.p == P && x.but == {OwnLogReached}
    ensures x.s.rs == [
      Replica(2, 1, 0, 0, [], map[1 := Good(A)], ViewChange, 2, [], {}, 0, 0, 0, NoRepair, false),
      Replica(2, 1, 1, 0, [], map[1 := Good(A)], ViewChange, 2, A, {}, 0, 0, 0, NoRepair, false)]
    ensures JoinView(2, 1, Join(1, 0, 0, 1, [Some(A), Some([])], [true, true], [false, false])) in x.s.msgs
    ensures JoinView(2, 0, Join(0, 0, 0, 1, [Some([])], [true], [false])) in x.s.msgs
    ensures A in x.s.decided
  {
    hide IsRun, Select, ValidJoins, Senders;
    x := Part5();
    x := DoPersist(x, 1);
    assert Now(x, 1).head[..1] == A;
    assert Now(x, 1).head[..0] == [];
    assert JoinOf(P, Now(x, 1)) == Join(1, 0, 0, 1, [Some(A), Some([])], [true, true], [false, false]);
    x := DoJoin(x, 1);
    x := DoChange(x, 0, 2);
    x := DoPersist(x, 0);
    assert Now(x, 0).head[..0] == [];
    assert JoinOf(P, Now(x, 0)) == Join(0, 0, 0, 1, [Some([])], [true], [false]);
    x := DoJoin(x, 0);
  }

  lemma Part7() returns (x: Run)
    ensures IsRun(x) && x.p == P && x.but == {OwnLogReached}
    ensures x.s.rs == [
      Replica(2, 2, 0, 0, [], map[1 := Good(A)], Normal, 2, [], {}, 0, 0, 0, NoRepair, false),
      Replica(2, 1, 1, 0, [], map[1 := Good(A)], ViewChange, 2, A, {}, 0, 0, 0, NoRepair, false)]
    ensures View(2, 0, [], 0) in x.s.msgs
    ensures A in x.s.decided
  {
    hide IsRun, Select, ValidJoins, Senders;
    x := Part6();
    Selection1();
    x := DoSelect(x, 0, JOINS_1, 0, 0, [[]]);
    x := DoRebuild(x, 0);
    x := DoInstall(x, 0);
    x := DoView(x, 0, 0);
  }

  lemma Part8() returns (x: Run)
    ensures IsRun(x) && x.p == P && x.but == {OwnLogReached}
    ensures x.s.rs == [
      Replica(2, 2, 0, 0, [], map[1 := Good(A)], Normal, 2, [], {}, 0, 0, 0, NoRepair, false),
      Replica(2, 2, 0, 0, [], map[1 := Good(A)], Normal, 2, [], {}, 0, 0, 0, NoRepair, false)]
    ensures A in x.s.decided
  {
    hide IsRun, Select, ValidJoins, Senders;
    x := Part7();
    x := DoAccept(x, 1, 2, 0, [], 0, 0);
    x := DoRebuild(x, 1);
    x := DoInstall(x, 1);
  }

  lemma Part9() returns (x: Run)
    ensures IsRun(x) && x.p == P && x.but == {OwnLogReached}
    ensures x.s.rs == [
      Replica(2, 2, 0, 0, [], map[1 := Good(B)], Normal, 2, B, {}, 1, 1, 0, NoRepair, false),
      Replica(2, 2, 0, 0, [], map[1 := Good(B)], Normal, 2, B, {}, 0, 0, 0, NoRepair, false)]
    ensures A in x.s.decided && B in x.s.decided
  {
    hide IsRun, Select, ValidJoins, Senders;
    x := Part8();
    x := DoCreate(x, 0, 200);
    assert Now(x, 0).head == B;
    assert Now(x, 0).dirty == {1};
    assert IsParent(Now(x, 1).head, B);
    x := DoPrepare(x, 1, B);
    assert Now(x, 1).dirty == {1};
    x := DoWrite(x, 1, 1);
    assert B == B[..1];
    assert Now(x, 1).disk == map[1 := Good(B)];
    assert Now(x, 1).dirty == {};
    assert Now(x, 1).head[..1] == B;
    x := DoAck(x, 1, 1);
    x := DoWrite(x, 0, 1);
    assert B == B[..1];
    assert Now(x, 0).disk == map[1 := Good(B)];
    assert Now(x, 0).dirty == {};
    assert Now(x, 0).head[..1] == B;
    x := DoAck(x, 0, 1);
    assert Now(x, 0).head[..1] == B;
    x := DoCommit(x, 0, 1, {0, 1});
  }

  lemma GuardNeeded()
    ensures Needed(P, OwnLogReached)
  {
    hide IsRun;
    var x := Part9();
    assert A[..1] == A != B;
    Finish(x, OwnLogReached, A, B);
  }
}
