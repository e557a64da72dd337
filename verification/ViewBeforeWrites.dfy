/**
  Three replicas: a view is persisted while a prepare is in flight, so the
  stored head covers a slot that still holds a prepare of an abandoned view.
  The crash keeps that prepare and replays it up to the stored commit bound.
 */
module ViewBeforeWrites {
  import opened Chains
  import opened Selection
  import opened Consensus
  import opened ConsensusGuards

  const P := Params(3, 2, 2, 2, 1)
  const A: Chain := [Entry(1, 0, 100)]
  const B: Chain := [Entry(2, 0, 200)]

  lemma Part1() returns (x: Run)
    ensures IsRun(x) && x.p == P && x.but == {NothingInFlight}
    ensures x.s.rs == [
      Replica(1, 0, 0, 0, [], map[], ViewChange, 1, [], {}, 0, 0, 0, NoRepair, false),
      Replica(1, 0, 0, 0, [], map[], ViewChange, 1, [], {}, 0, 0, 0, NoRepair, false),
      Replica(0, 0, 0, 0, [], map[], Normal, 0, [], {}, 0, 0, 0, NoRepair, false)]
    ensures JoinView(1, 0, BLANK) in x.s.msgs
    ensures JoinView(1, 1, BLANK) in x.s.msgs
  {
    hide IsRun, Select, ValidJoins, Senders;
    x := Start(P, {NothingInFlight});
    x := DoPersist(x, 0);
    assert Now(x, 0).head[..0] == [];
    assert JoinOf(P, Now(x, 0)) == BLANK;
    x := DoJoin(x, 0);
    x := DoChange(x, 1, 1);
    x := DoPersist(x, 1);
    assert Now(x, 1).head[..0] == [];
    assert JoinOf(P, Now(x, 1)) == BLANK;
    x := DoJoin(x, 1);
  }

  lemma Part2() returns (x: Run)
    ensures IsRun(x) && x.p == P && x.but == {NothingInFlight}
    ensures x.s.rs == [
      Replica(1, 0, 0, 0, [], map[], ViewChange, 1, [], {}, 0, 0, 0, NoRepair, false),
      Replica(1, 1, 0, 0, [], map[], Normal, 1, [], {}, 0, 0, 0, NoRepair, false),
      Replica(0, 0, 0, 0, [], map[], Normal, 0, [], {}, 0, 0, 0, NoRepair, false)]
  {
    hide IsRun, Select, ValidJoins, Senders;
    x := Part1();
    x := DoSelectBlanks(x, 1, {0, 1});
    x := DoRebuild(x, 1);
    x := DoInstall(x, 1);
  }

  lemma Part3() returns (x: Run)
    ensures IsRun(x) && x.p == P && x.but == {NothingInFlight}
    ensures x.s.rs == [
      Replica(1, 0, 0, 0, [], map[], ViewChange, 1, [], {}, 0, 0, 0, NoRepair, false),
      Replica(1, 1, 0, 0, [], map[1 := Good(A)], Normal, 1, A, {}, 0, 0, 0, NoRepair, false),
      Replica(0, 0, 0, 0, [], map[], Normal, 0, [], {}, 0, 0, 0, NoRepair, false)]
  {
    hide IsRun, Select, ValidJoins, Senders;
    x := Part2();
    x := DoCreate(x, 1, 100);
    assert Now(x, 1).head == A;
    assert Now(x, 1).dirty == {1};
    x := DoWrite(x, 1, 1);
    assert A == A[..1];
    assert Now(x, 1).disk == map[1 := Good(A)];
    assert Now(x, 1).dirty == {};
  }

  lemma Part4() returns (x: Run)
    ensures IsRun(x) && x.p == P && x.but == {NothingInFlight}
    ensures x.s.rs == [
      Replica(2, 0, 0, 0, [], map[], ViewChange, 2, [], {}, 0, 0, 0, NoRepair, false),
      Replica(1, 1, 0, 0, [], map[1 := Good(A)], Normal, 1, A, {}, 0, 0, 0, NoRepair, false),
      Replica(2, 2, 0, 0, [], map[], Normal, 2, [], {}, 0, 0, 0, NoRepair, false)]
    ensures View(2, 0, [], 0) in x.s.msgs
  {
    hide IsRun, Select, ValidJoins, Senders;
    x := Part3();
    x := DoChange(x, 2, 2);
    x := DoPersist(x, 2);
    assert Now(x, 2).head[..0] == [];
    assert JoinOf(P, Now(x, 2)) == BLANK;
    x := DoJoin(x, 2);
    x := DoChange(x, 0, 2);
    x := DoPersist(x, 0);
    assert Now(x, 0).head[..0] == [];
    assert JoinOf(P, Now(x, 0)) == BLANK;
    x := DoJoin(x, 0);
    x := DoSelectBlanks(x, 2, {0, 2});
    x := DoRebuild(x, 2);
    x := DoInstall(x, 2);
    x := DoView(x, 2, 0);
  }

  lemma Part5() returns (x: Run)
    ensures IsRun(x) && x.p == P && x.but == {NothingInFlight}
    ensures x.s.rs == [
      Replica(2, 2, 0, 0, [], map[], Normal, 2, [], {}, 0, 0, 0, NoRepair, false),
      Replica(2, 2, 0, 0, [], map[1 := Good(A)], Normal, 2, [], {}, 0, 0, 0, NoRepair, false),
      Replica(2, 2, 0, 0, [], map[], Normal, 2, [], {}, 0, 0, 0, NoRepair, false)]
  {
    hide IsRun, Select, ValidJoins, Senders;
    x := Part4();
    x := DoAccept(x, 0, 2, 0, [], 0, 0);
    x := DoRebuild(x, 0);
    x := DoInstall(x, 0);
    x := DoChange(x, 1, 2);
    x := DoPersist(x, 1);
    x := DoAccept(x, 1, 2, 0, [], 0, 0);
    x := DoRebuild(x, 1);
    x := DoInstall(x, 1);
  }

  lemma Part6() returns (x: Run)
    ensures IsRun(x) && x.p == P && x.but == {NothingInFlight}
    ensures x.s.rs == [
      Replica(2, 2, 0, 0, [], map[1 := Good(B)], Normal, 2, B, {}, 0, 0, 0, NoRepair, false),
      Replica(2, 2, 0, 0, [], map[1 := Good(A)], Normal, 2, [], {}, 0, 0, 0, NoRepair, false),
      Replica(2, 2, 0, 0, [], map[1 := Good(B)], Normal, 2, B, {}, 1, 1, 0, NoRepair, false)]
    ensures Prepare(B) in x.s.msgs
    ensures Commit(2, B) in x.s.msgs
    ensures B in x.s.decided
  {
    hide IsRun, Select, ValidJoins, Senders;
    x := Part5();
    x := DoCreate(x, 2, 200);
    assert Now(x, 2).head == B;
    assert Now(x, 2).dirty == {1};
    x := DoWrite(x, 2, 1);
    assert B == B[..1];
    assert Now(x, 2).disk == map[1 := Good(B)];
    assert Now(x, 2).dirty == {};
    assert Now(x, 2).head[..1] == B;
    x := DoAck(x, 2, 1);
    assert IsParent(Now(x, 0).head, B);
    x := DoPrepare(x, 0, B);
    assert Now(x, 0).dirty == {1};
    x := DoWrite(x, 0, 1);
    assert B == B[..1];
    assert Now(x, 0).disk == map[1 := Good(B)];
    assert Now(x, 0).dirty == {};
    assert Now(x, 0).head[..1] == B;
    x := DoAck(x, 0, 1);
    assert Now(x, 2).head[..1] == B;
    x := DoCommit(x, 2, 1, {0, 2});
    assert Now(x, 2).head[..1] == B;
    x := DoAnnounce(x, 2);
  }

  lemma Part7() returns (x: Run)
    ensures IsRun(x) && x.p == P && x.but == {NothingInFlight}
    ensures x.s.rs == [
      Replica(2, 2, 0, 0, [], map[1 := Good(B)], Normal, 2, B, {}, 0, 0, 0, NoRepair, false),
      Replica(3, 2, 1, 1, [], map[1 := Good(A)], ViewChange, 3, A, {}, 1, 1, 0, NoRepair, false),
      Replica(2, 2, 0, 0, [], map[1 := Good(B)], Normal, 2, B, {}, 1, 1, 0, NoRepair, false)]
    ensures B in x.s.decided && A in x.s.decided
  {
    hide IsRun, Select, ValidJoins, Senders;
    x := Part6();
    assert IsParent(Now(x, 1).head, B);
    x := DoPrepare(x, 1, B);
    assert Now(x, 1).dirty == {1};
    x := DoLearn(x, 1, B);
    x := DoChange(x, 1, 3);
    x := DoPersist(x, 1);
    assert A[..1] == A;
    x := DoRestart(x, 1, A);
    assert Now(x, 1).dirty == {};
  }

  lemma GuardNeeded()
    ensures Needed(P, NothingInFlight)
  {
    hide IsRun;
    var x := Part7();
    assert B[..1] == B != A;
    Finish(x, NothingInFlight, B, A);
  }
}
