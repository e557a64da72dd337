/**
  Three replicas: op 2 is acknowledged while op 1 is still being written.  A
  crash loses op 1, recovery stops below it, and the join that follows counts
  as a nack of op 2, which a quorum had committed.
 */
module AckBeforeLowerOps {
  import opened Chains
  import opened Selection
  import opened Consensus
  import opened ConsensusGuards

  const P := Params(3, 2, 2, 2, 2)
  const A: Chain := [Entry(1, 0, 100)]
  const B: Chain := [Entry(1, 0, 100), Entry(1, 0, 101)]
  const C: Chain := [Entry(1, 0, 100), Entry(2, 0, 200)]

  const JOINS_1: Joins := [
      Some(Join(1, 0, 0, 1, [Some(A), Some([])], [true, true], [false, false])),
      None,
      Some(Join(0, 0, 0, 1, [Some([])], [true], [false]))]

  lemma Selection1Bounds()
    ensures ValidJoins(JOINS_1, 2) && Senders(JOINS_1) == {0, 2}
    ensures Latest(JOINS_1) == 1 && Bound(JOINS_1, Own(0, 0, 0), 2) == 0 && MaximumHead(JOINS_1, 0) == 1
  {
    BoundIsMaximum(JOINS_1, Own(0, 0, 0), 2);
    HeadIsMaximum(JOINS_1, 0);
    LatestIsMaximum(JOINS_1);
    assert CommittedBound(JOINS_1[0].value, 2) == 0;
    assert CommittedBound(JOINS_1[2].value, 2) == 0;
  }

  lemma Selection1At0()
    ensures ValidJoins(JOINS_1, 2) && Candidate(JOINS_1, 0, 0) == Pick(true, [], 1)
    ensures !Cut(JOINS_1, 0, 0, 2, 2) && Kept(JOINS_1, 0, 0, 2)
  {
    Selection1Bounds();
    var js := JOINS_1;
    assert PickUpTo(js, 0, 0, 1, 0) == Pick(false, [], 0);
    assert PickUpTo(js, 1, 0, 1, 0) == Pick(true, [], 1);
    assert PickUpTo(js, 2, 0, 1, 0) == Pick(true, [], 1);
    assert PickUpTo(js, 3, 0, 1, 0) == Pick(true, [], 1);
    assert Negatives(js, 0, Some([]), 1, 2) == {};
    assert 0 in Copies(js, 0, Some([]), 2);
  }

  lemma Selection1At1()
    ensures ValidJoins(JOINS_1, 2) && Candidate(JOINS_1, 1, 0) == Pick(true, A, 1)
    ensures !Cut(JOINS_1, 1, 0, 2, 2) && Kept(JOINS_1, 1, 0, 2)
  {
    Selection1Bounds();
    var js := JOINS_1;
    assert PickUpTo(js, 0, 1, 1, 0) == Pick(false, [], 0);
    assert PickUpTo(js, 1, 1, 1, 0) == Pick(true, A, 1);
    assert PickUpTo(js, 2, 1, 1, 0) == Pick(true, A, 1);
    assert PickUpTo(js, 3, 1, 1, 0) == Pick(true, A, 1);
    assert Negatives(js, 1, Some(A), 1, 2) == {2};
    assert 0 in Copies(js, 1, Some(A), 2);
  }

  lemma Selection1()
    ensures ValidJoins(JOINS_1, 2) && Senders(JOINS_1) == {0, 2}
    ensures Select(JOINS_1, Own(0, 0, 0), 2, 2) == Suffix(0, [[], A])
  {
    hide Candidate, Cut, Kept, ValidJoins, Senders, Walk, Bound, MaximumHead, Latest;
    Selection1Bounds();
    Selection1At0();
    WalkKeeps(JOINS_1, 0, 2, 2, 1, [], []);
    var none: seq<Chain> := [];
    assert none + [[]] == [[]];
    Selection1At1();
    WalkKeeps(JOINS_1, 0, 2, 2, 1, [[]], A);
    assert [[]] + [A] == [[], A];
    WalkEnds(JOINS_1, 0, 2, 2, 1, [[], A]);
  }

  lemma Part1() returns (x: Run)
    ensures IsRun(x) && x.p == P && x.but == {LowerOpsDurable}
    ensures x.s.rs == [
      Replica(1, 0, 0, 0, [], map[], ViewChange, 1, [], {}, 0, 0, 0, NoRepair, false),
      Replica(1, 0, 0, 0, [], map[], ViewChange, 1, [], {}, 0, 0, 0, NoRepair, false),
      Replica(0, 0, 0, 0, [], map[], Normal, 0, [], {}, 0, 0, 0, NoRepair, false)]
    ensures JoinView(1, 0, BLANK) in x.s.msgs
    ensures JoinView(1, 1, BLANK) in x.s.msgs
  {
    hide IsRun, Select, ValidJoins, Senders;
    x := Start(P, {LowerOpsDurable});
    x := DoPersist(x, 0);
    assert Now(x, 0).head[..0] == [];
    assert JoinOf(P, Now(x, 0)) == BLANK;
    x := DoJoin(x, 0);
    x := DoChange(x, 1, 1);
    x := DoPersist(x, 1);
    assert Now(x, 1).head[..0] == [];
    assert JoinOf(P, Now(x, 1)) == BLANK;
    x := DoJoin(x, 1);
  }

  lemma Part2() returns (x: Run)
    ensures IsRun(x) && x.p == P && x.but == {LowerOpsDurable}
    ensures x.s.rs == [
      Replica(1, 0, 0, 0, [], map[], ViewChange, 1, [], {}, 0, 0, 0, NoRepair, false),
      Replica(1, 1, 0, 0, [], map[], Normal, 1, [], {}, 0, 0, 0, NoRepair, false),
      Replica(0, 0, 0, 0, [], map[], Normal, 0, [], {}, 0, 0, 0, NoRepair, false)]
    ensures View(1, 0, [], 0) in x.s.msgs
  {
    hide IsRun, Select, ValidJoins, Senders;
    x := Part1();
    x := DoSelectBlanks(x, 1, {0, 1});
    x := DoRebuild(x, 1);
    x := DoInstall(x, 1);
    x := DoView(x, 1, 0);
  }

  lemma Part3() returns (x: Run)
    ensures IsRun(x) && x.p == P && x.but == {LowerOpsDurable}
    ensures x.s.rs == [
      Replica(1, 1, 0, 0, [], map[], Normal, 1, [], {}, 0, 0, 0, NoRepair, false),
      Replica(1, 1, 0, 0, [], map[], Normal, 1, [], {}, 0, 0, 0, NoRepair, false),
      Replica(1, 1, 0, 0, [], map[], Normal, 1, [], {}, 0, 0, 0, NoRepair, false)]
  {
    hide IsRun, Select, ValidJoins, Senders;
    x := Part2();
    x := DoAccept(x, 0, 1, 0, [], 0, 0);
    x := DoRebuild(x, 0);
    x := DoInstall(x, 0);
    x := DoChange(x, 2, 1);
    x := DoPersist(x, 2);
    x := DoAccept(x, 2, 1, 0, [], 0, 0);
    x := DoRebuild(x, 2);
    x := DoInstall(x, 2);
  }

  lemma Part4() returns (x: Run)
    ensures IsRun(x) && x.p == P && x.but == {LowerOpsDurable}
    ensures x.s.rs == [
      Replica(1, 1, 0, 0, [], map[], Normal, 1, [], {}, 0, 0, 0, NoRepair, false),
      Replica(1, 1, 0, 0, [], map[1 := Good(A), 2 := Good(B)], Normal, 1, B, {}, 0, 0, 0, NoRepair, false),
      Replica(1, 1, 0, 0, [], map[], Normal, 1, [], {}, 0, 0, 0, NoRepair, false)]
    ensures Prepare(A) in x.s.msgs
    ensures Prepare(B) in x.s.msgs
    ensures PrepareOK(1, 1, A) in x.s.msgs
    ensures PrepareOK(1, 1, B) in x.s.msgs
  {
    hide IsRun, Select, ValidJoins, Senders;
    x := Part3();
    x := DoCreate(x, 1, 100);
    assert Now(x, 1).head == A;
    assert Now(x, 1).dirty == {1};
    x := DoCreate(x, 1, 101);
    assert Now(x, 1).head == B;
    assert Now(x, 1).dirty == {1, 2};
    x := DoWrite(x, 1, 1);
    assert A == B[..1];
    assert Now(x, 1).disk == map[1 := Good(A)];
    assert Now(x, 1).dirty == {2};
    assert Now(x, 1).head[..1] == A;
    x := DoAck(x, 1, 1);
    x := DoWrite(x, 1, 2);
    assert B == B[..2];
    assert Now(x, 1).disk == map[1 := Good(A), 2 := Good(B)];
    assert Now(x, 1).dirty == {};
    assert Now(x, 1).head[..2] == B;
    x := DoAck(x, 1, 2);
  }

  lemma Part5() returns (x: Run)
    ensures IsRun(x) && x.p == P && x.but == {LowerOpsDurable}
    ensures x.s.rs == [
      Replica(1, 1, 0, 0, [], map[1 := Good(A)], Normal, 1, A, {}, 0, 0, 0, NoRepair, false),
      Replica(1, 1, 0, 0, [], map[1 := Good(A), 2 := Good(B)], Normal, 1, B, {}, 0, 0, 0, NoRepair, false),
      Replica(1, 1, 0, 0, [], map[2 := Good(B)], Normal, 1, B, {1}, 0, 0, 0, NoRepair, false)]
    ensures PrepareOK(1, 1, A) in x.s.msgs
    ensures PrepareOK(1, 1, B) in x.s.msgs
    ensures PrepareOK(1, 0, A) in x.s.msgs
    ensures PrepareOK(1, 2, B) in x.s.msgs
  {
    hide IsRun, Select, ValidJoins, Senders;
    x := Part4();
    assert IsParent(Now(x, 0).head, A);
    x := DoPrepare(x, 0, A);
    assert Now(x, 0).dirty == {1};
    x := DoWrite(x, 0, 1);
    assert A == A[..1];
    assert Now(x, 0).disk == map[1 := Good(A)];
    assert Now(x, 0).dirty == {};
    assert Now(x, 0).head[..1] == A;
    x := DoAck(x, 0, 1);
    assert IsParent(Now(x, 2).head, A);
    x := DoPrepare(x, 2, A);
    assert Now(x, 2).dirty == {1};
    assert IsParent(Now(x, 2).head, B);
    x := DoPrepare(x, 2, B);
    assert Now(x, 2).dirty == {1, 2};
    x := DoWrite(x, 2, 2);
    assert B == B[..2];
    assert Now(x, 2).disk == map[2 := Good(B)];
    assert Now(x, 2).dirty == {1};
    assert Now(x, 2).head[..2] == B;
    x := DoAck(x, 2, 2);
  }

  lemma Part6() returns (x: Run)
    ensures IsRun(x) && x.p == P && x.but == {LowerOpsDurable}
    ensures x.s.rs == [
      Replica(1, 1, 0, 0, [], map[1 := Good(A)], Normal, 1, A, {}, 0, 0, 0, NoRepair, false),
      Replica(1, 1, 0, 0, [], map[1 := Good(A), 2 := Good(B)], Normal, 1, B, {}, 2, 2, 0, NoRepair, false),
      Replica(1, 1, 0, 0, [], map[2 := Good(B)], Normal, 1, B, {1}, 0, 0, 0, NoRepair, false)]
    ensures B in x.s.decided
  {
    hide IsRun, Select, ValidJoins, Senders;
    x := Part5();
    assert Now(x, 1).head[..1] == A;
    x := DoCommit(x, 1, 1, {0, 1});
    assert Now(x, 1).head[..2] == B;
    x := DoCommit(x, 1, 2, {1, 2});
  }

  lemma Part7() returns (x: Run)
    ensures IsRun(x) && x.p == P && x.but == {LowerOpsDurable}
    ensures x.s.rs == [
      Replica(2, 1, 1, 0, [], map[1 := Good(A)], ViewChange, 2, A, {}, 0, 0, 0, NoRepair, false),
      Replica(1, 1, 0, 0, [], map[1 := Good(A), 2 := Good(B)], Normal, 1, B, {}, 2, 2, 0, NoRepair, false),
      Replica(2, 1, 0, 0, [], map[2 := Good(B)], ViewChange, 2, [], {}, 0, 0, 0, NoRepair, false)]
    ensures JoinView(2, 2, Join(0, 0, 0, 1, [Some([])], [true], [false])) in x.s.msgs
    ensures JoinView(2, 0, Join(1, 0, 0, 1, [Some(A), Some([])], [true, true], [false, false])) in x.s.msgs
    ensures B in x.s.decided
  {
    hide IsRun, Select, ValidJoins, Senders;
    x := Part6();
    x := DoRestart(x, 2, []);
    assert Now(x, 2).dirty == {};
    x := DoChange(x, 2, 2);
    x := DoPersist(x, 2);
    assert Now(x, 2).head[..0] == [];
    assert JoinOf(P, Now(x, 2)) == Join(0, 0, 0, 1, [Some([])], [true], [false]);
    x := DoJoin(x, 2);
    x := DoChange(x, 0, 2);
    x := DoPersist(x, 0);
    assert Now(x, 0).head[..1] == A;
    assert Now(x, 0).head[..0] == [];
    assert JoinOf(P, Now(x, 0)) == Join(1, 0, 0, 1, [Some(A), Some([])], [true, true], [false, false]);
    x := DoJoin(x, 0);
  }

  lemma Part8() returns (x: Run)
    ensures IsRun(x) && x.p == P && x.but == {LowerOpsDurable}
    ensures x.s.rs == [
      Replica(2, 1, 1, 0, [], map[1 := Good(A)], ViewChange, 2, A, {}, 0, 0, 0, NoRepair, false),
      Replica(1, 1, 0, 0, [], map[1 := Good(A), 2 := Good(B)], Normal, 1, B, {}, 2, 2, 0, NoRepair, false),
      Replica(2, 2, 1, 0, [], map[1 := Good(A), 2 := Good(B)], Normal, 2, A, {}, 0, 0, 0, NoRepair, false)]
    ensures View(2, 0, A, 0) in x.s.msgs
    ensures B in x.s.decided
  {
    hide IsRun, Select, ValidJoins, Senders;
    x := Part7();
    Selection1();
    x := DoSelect(x, 2, JOINS_1, 0, 0, [[], A]);
    x := DoRewrite(x, 2, 1);
    assert A == A[..1];
    assert Now(x, 2).disk == map[1 := Good(A), 2 := Good(B)];
    x := DoRebuild(x, 2);
    x := DoInstall(x, 2);
    x := DoView(x, 2, 0);
  }

  lemma Part9() returns (x: Run)
    ensures IsRun(x) && x.p == P && x.but == {LowerOpsDurable}
    ensures x.s.rs == [
      Replica(2, 2, 1, 0, [], map[1 := Good(A)], Normal, 2, A, {}, 0, 0, 0, NoRepair, false),
      Replica(1, 1, 0, 0, [], map[1 := Good(A), 2 := Good(B)], Normal, 1, B, {}, 2, 2, 0, NoRepair, false),
      Replica(2, 2, 1, 0, [], map[1 := Good(A), 2 := Good(B)], Normal, 2, A, {}, 0, 0, 0, NoRepair, false)]
    ensures B in x.s.decided
  {
    hide IsRun, Select, ValidJoins, Senders;
    x := Part8();
    assert Now(x, 0).head[..1] == A[..1];
    x := DoAccept(x, 0, 2, 0, A, 0, 1);
    x := DoRebuild(x, 0);
    x := DoInstall(x, 0);
  }

  lemma Part10() returns (x: Run)
    ensures IsRun(x) && x.p == P && x.but == {LowerOpsDurable}
    ensures x.s.rs == [
      Replica(2, 2, 1, 0, [], map[1 := Good(A), 2 := Good(C)], Normal, 2, C, {}, 0, 0, 0, NoRepair, false),
      Replica(1, 1, 0, 0, [], map[1 := Good(A), 2 := Good(B)], Normal, 1, B, {}, 2, 2, 0, NoRepair, false),
      Replica(2, 2, 1, 0, [], map[1 := Good(A), 2 := Good(C)], Normal, 2, C, {}, 2, 2, 0, NoRepair, false)]
    ensures B in x.s.decided && C in x.s.decided
  {
    hide IsRun, Select, ValidJoins, Senders;
    x := Part9();
    x := DoCreate(x, 2, 200);
    assert Now(x, 2).head == C;
    assert Now(x, 2).dirty == {2};
    assert IsParent(Now(x, 0).head, C);
    x := DoPrepare(x, 0, C);
    assert Now(x, 0).dirty == {2};
    x := DoWrite(x, 0, 2);
    assert C == C[..2];
    assert Now(x, 0).disk == map[1 := Good(A), 2 := Good(C)];
    assert Now(x, 0).dirty == {};
    assert Now(x, 0).head[..2] == C;
    x := DoAck(x, 0, 2);
    x := DoWrite(x, 2, 2);
    assert C == C[..2];
    assert Now(x, 2).disk == map[1 := Good(A), 2 := Good(C)];
    assert Now(x, 2).dirty == {};
    assert Now(x, 2).head[..2] == C;
    x := DoAck(x, 2, 2);
    assert Now(x, 2).head[..2] == C;
    x := DoCommit(x, 2, 2, {0, 2});
  }

  lemma GuardNeeded()
    ensures Needed(P, LowerOpsDurable)
  {
    hide IsRun;
    var x := Part10();
    assert B[..2] == B != C;
    Finish(x, LowerOpsDurable, B, C);
  }
}
