/**
  Five replicas: a view message is acted on before its view is promised.  After
  a crash the replica joins an earlier view with a prepare of the later one that
  proves a commit, and the selection takes another header for the committed op.
 */
module UnpromisedView {
  import opened Chains
  import opened Selection
  import opened Consensus
  import opened ConsensusGuards

  const P := Params(5, 3, 3, 3, 2)
  const A: Chain := [Entry(1, 0, 100)]
  const B: Chain := [Entry(2, 0, 200)]
  const C: Chain := [Entry(2, 0, 200), Entry(4, 1, 201)]

  const JOINS_1: Joins := [
      None,
      Some(Join(1, 0, 0, 1, [Some(A), Some([])], [true, true], [false, false])),
      Some(Join(1, 0, 0, 2, [Some(B), Some([])], [true, true], [false, false])),
      None,
      Some(BLANK)]

  lemma Selection1Bounds()
    ensures ValidJoins(JOINS_1, 2) && Senders(JOINS_1) == {1, 2, 4}
    ensures Latest(JOINS_1) == 2 && Bound(JOINS_1, Own(0, 0, 0), 2) == 0 && MaximumHead(JOINS_1, 0) == 1
  {
    BoundIsMaximum(JOINS_1, Own(0, 0, 0), 2);
    HeadIsMaximum(JOINS_1, 0);
    LatestIsMaximum(JOINS_1);
    assert CommittedBound(JOINS_1[1].value, 2) == 0;
    assert CommittedBound(JOINS_1[2].value, 2) == 0;
    assert CommittedBound(JOINS_1[4].value, 2) == 0;
  }

  lemma Selection1At0()
    ensures ValidJoins(JOINS_1, 2) && Candidate(JOINS_1, 0, 0) == Pick(true, [], 2)
    ensures !Cut(JOINS_1, 0, 0, 3, 2) && Kept(JOINS_1, 0, 0, 2)
  {
    Selection1Bounds();
    var js := JOINS_1;
    assert PickUpTo(js, 0, 0, 2, 0) == Pick(false, [], 0);
    assert PickUpTo(js, 1, 0, 2, 0) == Pick(false, [], 0);
    assert PickUpTo(js, 2, 0, 2, 0) == Pick(true, [], 1);
    assert PickUpTo(js, 3, 0, 2, 0) == Pick(true, [], 2);
    assert PickUpTo(js, 4, 0, 2, 0) == Pick(true, [], 2);
    assert PickUpTo(js, 5, 0, 2, 0) == Pick(true, [], 2);
    assert Negatives(js, 0, Some([]), 2, 2) == {};
    assert 1 in Copies(js, 0, Some([]), 2);
  }

  lemma Selection1At1()
    ensures ValidJoins(JOINS_1, 2) && Candidate(JOINS_1, 1, 0) == Pick(true, B, 2)
    ensures !Cut(JOINS_1, 1, 0, 3, 2) && Kept(JOINS_1, 1, 0, 2)
  {
    Selection1Bounds();
    var js := JOINS_1;
    assert PickUpTo(js, 0, 1, 2, 0) == Pick(false, [], 0);
    assert PickUpTo(js, 1, 1, 2, 0) == Pick(false, [], 0);
    assert PickUpTo(js, 2, 1, 2, 0) == Pick(false, [], 0);
    assert PickUpTo(js, 3, 1, 2, 0) == Pick(true, B, 2);
    assert PickUpTo(js, 4, 1, 2, 0) == Pick(true, B, 2);
    assert PickUpTo(js, 5, 1, 2, 0) == Pick(true, B, 2);
    assert Negatives(js, 1, Some(B), 2, 2) == {1, 4};
    assert 2 in Copies(js, 1, Some(B), 2);
  }

  lemma Selection1()
    ensures ValidJoins(JOINS_1, 2) && Senders(JOINS_1) == {1, 2, 4}
    ensures Select(JOINS_1, Own(0, 0, 0), 3, 2) == Suffix(0, [[], B])
  {
    hide Candidate, Cut, Kept, ValidJoins, Senders, Walk, Bound, MaximumHead, Latest;
    Selection1Bounds();
    Selection1At0();
    WalkKeeps(JOINS_1, 0, 3, 2, 1, [], []);
    var none: seq<Chain> := [];
    assert none + [[]] == [[]];
    Selection1At1();
    WalkKeeps(JOINS_1, 0, 3, 2, 1, [[]], B);
    assert [[]] + [B] == [[], B];
    WalkEnds(JOINS_1, 0, 3, 2, 1, [[], B]);
  }

  const JOINS_2: Joins := [
      Some(Join(2, 1, 0, 0, [Some(C), Some(B), Some([])], [true, true, true], [false, false, false])),
      Some(Join(1, 0, 0, 1, [Some(A), Some([])], [true, true], [false, false])),
      None,
      Some(BLANK),
      Some(BLANK)]

  lemma Selection2Bounds()
    ensures ValidJoins(JOINS_2, 2) && Senders(JOINS_2) == {0, 1, 3, 4}
    ensures Latest(JOINS_2) == 1 && Bound(JOINS_2, Own(0, 0, 0), 2) == 1 && MaximumHead(JOINS_2, 0) == 2
  {
    BoundIsMaximum(JOINS_2, Own(0, 0, 0), 2);
    HeadIsMaximum(JOINS_2, 0);
    LatestIsMaximum(JOINS_2);
    assert CommittedBound(JOINS_2[0].value, 2) == 1;
    assert CommittedBound(JOINS_2[1].value, 2) == 0;
    assert CommittedBound(JOINS_2[3].value, 2) == 0;
    assert CommittedBound(JOINS_2[4].value, 2) == 0;
  }

  lemma Selection2At1()
    ensures ValidJoins(JOINS_2, 2) && Candidate(JOINS_2, 1, 1) == Pick(true, A, 1)
    ensures !Cut(JOINS_2, 1, 1, 3, 2) && Kept(JOINS_2, 1, 1, 2)
  {
    Selection2Bounds();
    var js := JOINS_2;
    assert PickUpTo(js, 0, 1, 1, 1) == Pick(false, [], 0);
    assert PickUpTo(js, 1, 1, 1, 1) == Pick(true, B, 0);
    assert PickUpTo(js, 2, 1, 1, 1) == Pick(true, A, 1);
    assert PickUpTo(js, 3, 1, 1, 1) == Pick(true, A, 1);
    assert PickUpTo(js, 4, 1, 1, 1) == Pick(true, A, 1);
    assert PickUpTo(js, 5, 1, 1, 1) == Pick(true, A, 1);
    assert Negatives(js, 1, Some(A), 1, 2) == {0, 3, 4};
    assert 1 in Copies(js, 1, Some(A), 2);
  }

  lemma Selection2At2()
    ensures ValidJoins(JOINS_2, 2) && Candidate(JOINS_2, 2, 1) == Pick(false, [], 0)
    ensures Cut(JOINS_2, 2, 1, 3, 2)
  {
    Selection2Bounds();
    var js := JOINS_2;
    assert PickUpTo(js, 0, 2, 1, 1) == Pick(false, [], 0);
    assert PickUpTo(js, 1, 2, 1, 1) == Pick(false, [], 0);
    assert PickUpTo(js, 2, 2, 1, 1) == Pick(false, [], 0);
    assert PickUpTo(js, 3, 2, 1, 1) == Pick(false, [], 0);
    assert PickUpTo(js, 4, 2, 1, 1) == Pick(false, [], 0);
    assert PickUpTo(js, 5, 2, 1, 1) == Pick(false, [], 0);
    assert Negatives(js, 2, None, 1, 2) == {1, 3, 4};
  }

  lemma Selection2()
    ensures ValidJoins(JOINS_2, 2) && Senders(JOINS_2) == {0, 1, 3, 4}
    ensures Select(JOINS_2, Own(0, 0, 0), 3, 2) == Suffix(1, [A])
  {
    hide Candidate, Cut, Kept, ValidJoins, Senders, Walk, Bound, MaximumHead, Latest;
    Selection2Bounds();
    Selection2At1();
    WalkKeeps(JOINS_2, 1, 3, 2, 2, [], A);
    var none: seq<Chain> := [];
    assert none + [A] == [A];
    Selection2At2();
    WalkCuts(JOINS_2, 1, 3, 2, 2, [A]);
  }

  lemma Part1() returns (x: Run)
    ensures IsRun(x) && x.p == P && x.but == {PromisedFirst}
    ensures x.s.rs == [
      Replica(1, 0, 0, 0, [], map[], ViewChange, 1, [], {}, 0, 0, 0, NoRepair, false),
      Replica(1, 0, 0, 0, [], map[], ViewChange, 1, [], {}, 0, 0, 0, NoRepair, false),
      Replica(0, 0, 0, 0, [], map[], Normal, 0, [], {}, 0, 0, 0, NoRepair, false),
      Replica(1, 0, 0, 0, [], map[], ViewChange, 1, [], {}, 0, 0, 0, NoRepair, false),
      Replica(0, 0, 0, 0, [], map[], Normal, 0, [], {}, 0, 0, 0, NoRepair, false)]
    ensures JoinView(1, 0, BLANK) in x.s.msgs
    ensures JoinView(1, 1, BLANK) in x.s.msgs
    ensures JoinView(1, 3, BLANK) in x.s.msgs
  {
    hide IsRun, Select, ValidJoins, Senders;
    x := Start(P, {PromisedFirst});
    x := DoPersist(x, 0);
    assert Now(x, 0).head[..0] == [];
    assert JoinOf(P, Now(x, 0)) == BLANK;
    x := DoJoin(x, 0);
    x := DoChange(x, 1, 1);
    x := DoPersist(x, 1);
    assert Now(x, 1).head[..0] == [];
    assert JoinOf(P, Now(x, 1)) == BLANK;
    x := DoJoin(x, 1);
    x := DoChange(x, 3, 1);
    x := DoPersist(x, 3);
    assert Now(x, 3).head[..0] == [];
    assert JoinOf(P, Now(x, 3)) == BLANK;
    x := DoJoin(x, 3);
  }

  lemma Part2() returns (x: Run)
    ensures IsRun(x) && x.p == P && x.but == {PromisedFirst}
    ensures x.s.rs == [
      Replica(1, 0, 0, 0, [], map[], ViewChange, 1, [], {}, 0, 0, 0, NoRepair, false),
      Replica(1, 1, 0, 0, [], map[], Normal, 1, [], {}, 0, 0, 0, NoRepair, false),
      Replica(0, 0, 0, 0, [], map[], Normal, 0, [], {}, 0, 0, 0, NoRepair, false),
      Replica(1, 0, 0, 0, [], map[], ViewChange, 1, [], {}, 0, 0, 0, NoRepair, false),
      Replica(0, 0, 0, 0, [], map[], Normal, 0, [], {}, 0, 0, 0, NoRepair, false)]
  {
    hide IsRun, Select, ValidJoins, Senders;
    x := Part1();
    x := DoSelectBlanks(x, 1, {0, 1, 3});
    x := DoRebuild(x, 1);
    x := DoInstall(x, 1);
  }

  lemma Part3() returns (x: Run)
    ensures IsRun(x) && x.p == P && x.but == {PromisedFirst}
    ensures x.s.rs == [
      Replica(1, 0, 0, 0, [], map[], ViewChange, 1, [], {}, 0, 0, 0, NoRepair, false),
      Replica(1, 1, 0, 0, [], map[1 := Good(A)], Normal, 1, A, {}, 0, 0, 0, NoRepair, false),
      Replica(0, 0, 0, 0, [], map[], Normal, 0, [], {}, 0, 0, 0, NoRepair, false),
      Replica(1, 0, 0, 0, [], map[], ViewChange, 1, [], {}, 0, 0, 0, NoRepair, false),
      Replica(0, 0, 0, 0, [], map[], Normal, 0, [], {}, 0, 0, 0, NoRepair, false)]
  {
    hide IsRun, Select, ValidJoins, Senders;
    x := Part2();
    x := DoCreate(x, 1, 100);
    assert Now(x, 1).head == A;
    assert Now(x, 1).dirty == {1};
    x := DoWrite(x, 1, 1);
    assert A == A[..1];
    assert Now(x, 1).disk == map[1 := Good(A)];
    assert Now(x, 1).dirty == {};
  }

  lemma Part4() returns (x: Run)
    ensures IsRun(x) && x.p == P && x.but == {PromisedFirst}
    ensures x.s.rs == [
      Replica(1, 0, 0, 0, [], map[], ViewChange, 1, [], {}, 0, 0, 0, NoRepair, false),
      Replica(1, 1, 0, 0, [], map[1 := Good(A)], Normal, 1, A, {}, 0, 0, 0, NoRepair, false),
      Replica(2, 0, 0, 0, [], map[], ViewChange, 2, [], {}, 0, 0, 0, NoRepair, false),
      Replica(2, 0, 0, 0, [], map[], ViewChange, 2, [], {}, 0, 0, 0, NoRepair, false),
      Replica(2, 0, 0, 0, [], map[], ViewChange, 2, [], {}, 0, 0, 0, NoRepair, false)]
    ensures JoinView(2, 2, BLANK) in x.s.msgs
    ensures JoinView(2, 3, BLANK) in x.s.msgs
    ensures JoinView(2, 4, BLANK) in x.s.msgs
  {
    hide IsRun, Select, ValidJoins, Senders;
    x := Part3();
    x := DoChange(x, 2, 2);
    x := DoPersist(x, 2);
    assert Now(x, 2).head[..0] == [];
    assert JoinOf(P, Now(x, 2)) == BLANK;
    x := DoJoin(x, 2);
    x := DoChange(x, 3, 2);
    x := DoPersist(x, 3);
    assert Now(x, 3).head[..0] == [];
    assert JoinOf(P, Now(x, 3)) == BLANK;
    x := DoJoin(x, 3);
    x := DoChange(x, 4, 2);
    x := DoPersist(x, 4);
    assert Now(x, 4).head[..0] == [];
    assert JoinOf(P, Now(x, 4)) == BLANK;
    x := DoJoin(x, 4);
  }

  lemma Part5() returns (x: Run)
    ensures IsRun(x) && x.p == P && x.but == {PromisedFirst}
    ensures x.s.rs == [
      Replica(1, 0, 0, 0, [], map[], ViewChange, 1, [], {}, 0, 0, 0, NoRepair, false),
      Replica(1, 1, 0, 0, [], map[1 := Good(A)], Normal, 1, A, {}, 0, 0, 0, NoRepair, false),
      Replica(2, 2, 0, 0, [], map[], Normal, 2, [], {}, 0, 0, 0, NoRepair, false),
      Replica(2, 0, 0, 0, [], map[], ViewChange, 2, [], {}, 0, 0, 0, NoRepair, false),
      Replica(2, 0, 0, 0, [], map[], ViewChange, 2, [], {}, 0, 0, 0, NoRepair, false)]
  {
    hide IsRun, Select, ValidJoins, Senders;
    x := Part4();
    x := DoSelectBlanks(x, 2, {2, 3, 4});
    x := DoRebuild(x, 2);
    x := DoInstall(x, 2);
  }

  lemma Part6() returns (x: Run)
    ensures IsRun(x) && x.p == P && x.but == {PromisedFirst}
    ensures x.s.rs == [
      Replica(1, 0, 0, 0, [], map[], ViewChange, 1, [], {}, 0, 0, 0, NoRepair, false),
      Replica(1, 1, 0, 0, [], map[1 := Good(A)], Normal, 1, A, {}, 0, 0, 0, NoRepair, false),
      Replica(2, 2, 0, 0, [], map[1 := Good(B)], Normal, 2, B, {}, 0, 0, 0, NoRepair, false),
      Replica(2, 0, 0, 0, [], map[], ViewChange, 2, [], {}, 0, 0, 0, NoRepair, false),
      Replica(2, 0, 0, 0, [], map[], ViewChange, 2, [], {}, 0, 0, 0, NoRepair, false)]
  {
    hide IsRun, Select, ValidJoins, Senders;
    x := Part5();
    x := DoCreate(x, 2, 200);
    assert Now(x, 2).head == B;
    assert Now(x, 2).dirty == {1};
    x := DoWrite(x, 2, 1);
    assert B == B[..1];
    assert Now(x, 2).disk == map[1 := Good(B)];
    assert Now(x, 2).dirty == {};
  }

  lemma Part7() returns (x: Run)
    ensures IsRun(x) && x.p == P && x.but == {PromisedFirst}
    ensures x.s.rs == [
      Replica(1, 0, 0, 0, [], map[], ViewChange, 1, [], {}, 0, 0, 0, NoRepair, false),
      Replica(3, 1, 1, 0, [], map[1 := Good(A)], ViewChange, 3, A, {}, 0, 0, 0, NoRepair, false),
      Replica(2, 2, 0, 0, [], map[1 := Good(B)], Normal, 2, B, {}, 0, 0, 0, NoRepair, false),
      Replica(3, 0, 0, 0, [], map[], ViewChange, 3, [], {}, 0, 0, 0, NoRepair, false),
      Replica(2, 0, 0, 0, [], map[], ViewChange, 2, [], {}, 0, 0, 0, NoRepair, false)]
    ensures JoinView(3, 1, Join(1, 0, 0, 1, [Some(A), Some([])], [true, true], [false, false])) in x.s.msgs
    ensures JoinView(3, 3, BLANK) in x.s.msgs
  {
    hide IsRun, Select, ValidJoins, Senders;
    x := Part6();
    x := DoChange(x, 1, 3);
    x := DoPersist(x, 1);
    assert Now(x, 1).head[..1] == A;
    assert Now(x, 1).head[..0] == [];
    assert JoinOf(P, Now(x, 1)) == Join(1, 0, 0, 1, [Some(A), Some([])], [true, true], [false, false]);
    x := DoJoin(x, 1);
    x := DoChange(x, 3, 3);
    x := DoPersist(x, 3);
    assert Now(x, 3).head[..0] == [];
    assert JoinOf(P, Now(x, 3)) == BLANK;
    x := DoJoin(x, 3);
  }

  lemma Part8() returns (x: Run)
    ensures IsRun(x) && x.p == P && x.but == {PromisedFirst}
    ensures x.s.rs == [
      Replica(1, 0, 0, 0, [], map[], ViewChange, 1, [], {}, 0, 0, 0, NoRepair, false),
      Replica(3, 1, 1, 0, [], map[1 := Good(A)], ViewChange, 3, A, {}, 0, 0, 0, NoRepair, false),
      Replica(2, 2, 0, 0, [], map[1 := Good(B)], Normal, 2, B, {}, 0, 0, 0, NoRepair, false),
      Replica(3, 0, 0, 0, [], map[], ViewChange, 3, [], {}, 0, 0, 0, NoRepair, false),
      Replica(3, 0, 0, 0, [], map[], ViewChange, 3, [], {}, 0, 0, 0, NoRepair, false)]
    ensures JoinView(3, 1, Join(1, 0, 0, 1, [Some(A), Some([])], [true, true], [false, false])) in x.s.msgs
    ensures JoinView(3, 3, BLANK) in x.s.msgs
    ensures JoinView(3, 4, BLANK) in x.s.msgs
  {
    hide IsRun, Select, ValidJoins, Senders;
    x := Part7();
    x := DoChange(x, 4, 3);
    x := DoPersist(x, 4);
    assert Now(x, 4).head[..0] == [];
    assert JoinOf(P, Now(x, 4)) == BLANK;
    x := DoJoin(x, 4);
  }

  lemma Part9() returns (x: Run)
    ensures IsRun(x) && x.p == P && x.but == {PromisedFirst}
    ensures x.s.rs == [
      Replica(1, 0, 0, 0, [], map[], ViewChange, 1, [], {}, 0, 0, 0, NoRepair, false),
      Replica(4, 1, 1, 0, [], map[1 := Good(A)], ViewChange, 4, A, {}, 0, 0, 0, NoRepair, false),
      Replica(2, 2, 0, 0, [], map[1 := Good(B)], Normal, 2, B, {}, 0, 0, 0, NoRepair, false),
      Replica(3, 0, 0, 0, [], map[], ViewChange, 3, [], {}, 0, 0, 0, NoRepair, false),
      Replica(3, 0, 0, 0, [], map[], ViewChange, 3, [], {}, 0, 0, 0, NoRepair, false)]
    ensures JoinView(3, 1, Join(1, 0, 0, 1, [Some(A), Some([])], [true, true], [false, false])) in x.s.msgs
    ensures JoinView(3, 3, BLANK) in x.s.msgs
    ensures JoinView(3, 4, BLANK) in x.s.msgs
    ensures JoinView(4, 1, Join(1, 0, 0, 1, [Some(A), Some([])], [true, true], [false, false])) in x.s.msgs
  {
    hide IsRun, Select, ValidJoins, Senders;
    x := Part8();
    x := DoChange(x, 1, 4);
    x := DoPersist(x, 1);
    assert Now(x, 1).head[..1] == A;
    assert Now(x, 1).head[..0] == [];
    assert JoinOf(P, Now(x, 1)) == Join(1, 0, 0, 1, [Some(A), Some([])], [true, true], [false, false]);
    x := DoJoin(x, 1);
  }

  lemma Part10() returns (x: Run)
    ensures IsRun(x) && x.p == P && x.but == {PromisedFirst}
    ensures x.s.rs == [
      Replica(1, 0, 0, 0, [], map[], ViewChange, 1, [], {}, 0, 0, 0, NoRepair, false),
      Replica(4, 1, 1, 0, [], map[1 := Good(A)], ViewChange, 4, A, {}, 0, 0, 0, NoRepair, false),
      Replica(4, 2, 1, 0, [], map[1 := Good(B)], ViewChange, 4, B, {}, 0, 0, 0, NoRepair, false),
      Replica(3, 0, 0, 0, [], map[], ViewChange, 3, [], {}, 0, 0, 0, NoRepair, false),
      Replica(4, 0, 0, 0, [], map[], ViewChange, 4, [], {}, 0, 0, 0, NoRepair, false)]
    ensures JoinView(3, 1, Join(1, 0, 0, 1, [Some(A), Some([])], [true, true], [false, false])) in x.s.msgs
    ensures JoinView(3, 3, BLANK) in x.s.msgs
    ensures JoinView(3, 4, BLANK) in x.s.msgs
    ensures JoinView(4, 1, Join(1, 0, 0, 1, [Some(A), Some([])], [true, true], [false, false])) in x.s.msgs
    ensures JoinView(4, 2, Join(1, 0, 0, 2, [Some(B), Some([])], [true, true], [false, false])) in x.s.msgs
    ensures JoinView(4, 4, BLANK) in x.s.msgs
  {
    hide IsRun, Select, ValidJoins, Senders;
    x := Part9();
    x := DoChange(x, 2, 4);
    x := DoPersist(x, 2);
    assert Now(x, 2).head[..1] == B;
    assert Now(x, 2).head[..0] == [];
    assert JoinOf(P, Now(x, 2)) == Join(1, 0, 0, 2, [Some(B), Some([])], [true, true], [false, false]);
    x := DoJoin(x, 2);
    x := DoChange(x, 4, 4);
    x := DoPersist(x, 4);
    assert Now(x, 4).head[..0] == [];
    assert JoinOf(P, Now(x, 4)) == BLANK;
    x := DoJoin(x, 4);
  }

  lemma Part11() returns (x: Run)
    ensures IsRun(x) && x.p == P && x.but == {PromisedFirst}
    ensures x.s.rs == [
      Replica(1, 0, 0, 0, [], map[], ViewChange, 1, [], {}, 0, 0, 0, NoRepair, false),
      Replica(4, 1, 1, 0, [], map[1 := Good(A)], ViewChange, 4, A, {}, 0, 0, 0, NoRepair, false),
      Replica(4, 2, 1, 0, [], map[1 := Good(B)], ViewChange, 4, B, {}, 0, 0, 0, NoRepair, false),
      Replica(3, 0, 0, 0, [], map[], ViewChange, 3, [], {}, 0, 0, 0, NoRepair, false),
      Replica(4, 4, 1, 0, [], map[1 := Good(B)], Normal, 4, B, {}, 0, 0, 0, NoRepair, false)]
    ensures JoinView(3, 1, Join(1, 0, 0, 1, [Some(A), Some([])], [true, true], [false, false])) in x.s.msgs
    ensures JoinView(3, 3, BLANK) in x.s.msgs
    ensures JoinView(3, 4, BLANK) in x.s.msgs
    ensures View(4, 0, B, 0) in x.s.msgs
  {
    hide IsRun, Select, ValidJoins, Senders;
    x := Part10();
    Selection1();
    x := DoSelect(x, 4, JOINS_1, 0, 0, [[], B]);
    x := DoRewrite(x, 4, 1);
    assert B == B[..1];
    assert Now(x, 4).disk == map[1 := Good(B)];
    x := DoRebuild(x, 4);
    x := DoInstall(x, 4);
    x := DoView(x, 4, 0);
  }

  lemma Part12() returns (x: Run)
    ensures IsRun(x) && x.p == P && x.but == {PromisedFirst}
    ensures x.s.rs == [
      Replica(1, 0, 0, 0, [], map[], ViewChange, 1, [], {}, 0, 0, 0, NoRepair, false),
      Replica(4, 4, 1, 0, [], map[1 := Good(B)], Normal, 4, B, {}, 0, 0, 0, NoRepair, false),
      Replica(4, 2, 1, 0, [], map[1 := Good(B)], ViewChange, 4, B, {}, 0, 0, 0, NoRepair, false),
      Replica(3, 0, 0, 0, [], map[], ViewChange, 3, [], {}, 0, 0, 0, NoRepair, false),
      Replica(4, 4, 1, 0, [], map[1 := Good(B)], Normal, 4, B, {}, 0, 0, 0, NoRepair, false)]
    ensures JoinView(3, 1, Join(1, 0, 0, 1, [Some(A), Some([])], [true, true], [false, false])) in x.s.msgs
    ensures JoinView(3, 3, BLANK) in x.s.msgs
    ensures JoinView(3, 4, BLANK) in x.s.msgs
    ensures View(4, 0, B, 0) in x.s.msgs
  {
    hide IsRun, Select, ValidJoins, Senders;
    x := Part11();
    x := DoAccept(x, 1, 4, 0, B, 0, 0);
    x := DoRewrite(x, 1, 1);
    assert B == B[..1];
    assert Now(x, 1).disk == map[1 := Good(B)];
    x := DoRebuild(x, 1);
    x := DoInstall(x, 1);
  }

  lemma Part13() returns (x: Run)
    ensures IsRun(x) && x.p == P && x.but == {PromisedFirst}
    ensures x.s.rs == [
      Replica(1, 0, 0, 0, [], map[], ViewChange, 1, [], {}, 0, 0, 0, NoRepair, false),
      Replica(4, 4, 1, 0, [], map[1 := Good(B)], Normal, 4, B, {}, 0, 0, 0, NoRepair, false),
      Replica(4, 4, 1, 0, [], map[1 := Good(B)], Normal, 4, B, {}, 0, 0, 0, NoRepair, false),
      Replica(3, 0, 0, 0, [], map[], ViewChange, 3, [], {}, 0, 0, 0, NoRepair, false),
      Replica(4, 4, 1, 0, [], map[1 := Good(B)], Normal, 4, B, {}, 0, 0, 0, NoRepair, false)]
    ensures JoinView(3, 1, Join(1, 0, 0, 1, [Some(A), Some([])], [true, true], [false, false])) in x.s.msgs
    ensures JoinView(3, 3, BLANK) in x.s.msgs
    ensures JoinView(3, 4, BLANK) in x.s.msgs
  {
    hide IsRun, Select, ValidJoins, Senders;
    x := Part12();
    assert Now(x, 2).head[..1] == B[..1];
    x := DoAccept(x, 2, 4, 0, B, 0, 1);
    x := DoRebuild(x, 2);
    x := DoInstall(x, 2);
  }

  lemma Part14() returns (x: Run)
    ensures IsRun(x) && x.p == P && x.but == {PromisedFirst}
    ensures x.s.rs == [
      Replica(1, 0, 0, 0, [], map[], ViewChange, 1, [], {}, 0, 0, 0, NoRepair, false),
      Replica(4, 4, 1, 0, [], map[1 := Good(B)], Normal, 4, B, {}, 0, 0, 0, NoRepair, false),
      Replica(4, 4, 1, 0, [], map[1 := Good(B)], Normal, 4, B, {}, 0, 0, 0, NoRepair, false),
      Replica(3, 0, 0, 0, [], map[], ViewChange, 3, [], {}, 0, 0, 0, NoRepair, false),
      Replica(4, 4, 1, 0, [], map[1 := Good(B)], Normal, 4, B, {}, 1, 1, 0, NoRepair, false)]
    ensures JoinView(3, 1, Join(1, 0, 0, 1, [Some(A), Some([])], [true, true], [false, false])) in x.s.msgs
    ensures JoinView(3, 3, BLANK) in x.s.msgs
    ensures JoinView(3, 4, BLANK) in x.s.msgs
    ensures B in x.s.decided
  {
    hide IsRun, Select, ValidJoins, Senders;
    x := Part13();
    assert Now(x, 4).head[..1] == B;
    x := DoAck(x, 4, 1);
    assert Now(x, 1).head[..1] == B;
    x := DoAck(x, 1, 1);
    assert Now(x, 2).head[..1] == B;
    x := DoAck(x, 2, 1);
    assert Now(x, 4).head[..1] == B;
    x := DoCommit(x, 4, 1, {1, 2, 4});
  }

  lemma Part15() returns (x: Run)
    ensures IsRun(x) && x.p == P && x.but == {PromisedFirst}
    ensures x.s.rs == [
      Replica(1, 0, 0, 0, [], map[], ViewChange, 1, [], {}, 0, 0, 0, NoRepair, false),
      Replica(4, 4, 1, 0, [], map[1 := Good(B)], Normal, 4, B, {}, 0, 0, 0, NoRepair, false),
      Replica(4, 4, 1, 0, [], map[1 := Good(B)], Normal, 4, B, {}, 0, 0, 0, NoRepair, false),
      Replica(3, 0, 0, 0, [], map[], ViewChange, 3, [], {}, 0, 0, 0, NoRepair, false),
      Replica(4, 4, 1, 0, [], map[1 := Good(B)], Normal, 4, C, {2}, 1, 1, 0, NoRepair, false)]
    ensures JoinView(3, 1, Join(1, 0, 0, 1, [Some(A), Some([])], [true, true], [false, false])) in x.s.msgs
    ensures JoinView(3, 3, BLANK) in x.s.msgs
    ensures JoinView(3, 4, BLANK) in x.s.msgs
    ensures View(4, 0, C, 1) in x.s.msgs
    ensures B in x.s.decided
  {
    hide IsRun, Select, ValidJoins, Senders;
    x := Part14();
    x := DoCreate(x, 4, 201);
    assert Now(x, 4).head == C;
    assert Now(x, 4).dirty == {2};
    x := DoView(x, 4, 0);
  }

  lemma Part16() returns (x: Run)
    ensures IsRun(x) && x.p == P && x.but == {PromisedFirst}
    ensures x.s.rs == [
      Replica(1, 0, 0, 0, [], map[1 := Good(B), 2 := Good(C)], ViewChange, 1, C, {}, 1, 1, 0, NoRepair, false),
      Replica(4, 4, 1, 0, [], map[1 := Good(B)], Normal, 4, B, {}, 0, 0, 0, NoRepair, false),
      Replica(4, 4, 1, 0, [], map[1 := Good(B)], Normal, 4, B, {}, 0, 0, 0, NoRepair, false),
      Replica(3, 0, 0, 0, [], map[], ViewChange, 3, [], {}, 0, 0, 0, NoRepair, false),
      Replica(4, 4, 1, 0, [], map[1 := Good(B)], Normal, 4, C, {2}, 1, 1, 0, NoRepair, false)]
    ensures JoinView(3, 1, Join(1, 0, 0, 1, [Some(A), Some([])], [true, true], [false, false])) in x.s.msgs
    ensures JoinView(3, 3, BLANK) in x.s.msgs
    ensures JoinView(3, 4, BLANK) in x.s.msgs
    ensures B in x.s.decided
  {
    hide IsRun, Select, ValidJoins, Senders;
    x := Part15();
    x := DoAccept(x, 0, 4, 0, C, 1, 0);
    x := DoRewrite(x, 0, 1);
    assert B == C[..1];
    assert Now(x, 0).disk == map[1 := Good(B)];
    x := DoRewrite(x, 0, 2);
    assert C == C[..2];
    assert Now(x, 0).disk == map[1 := Good(B), 2 := Good(C)];
    assert C[..1] == B;
    assert C[..2] == C;
    x := DoRestart(x, 0, C);
  }

  lemma Part17() returns (x: Run)
    ensures IsRun(x) && x.p == P && x.but == {PromisedFirst}
    ensures x.s.rs == [
      Replica(3, 0, 2, 1, [], map[1 := Good(B), 2 := Good(C)], ViewChange, 3, C, {}, 1, 1, 0, NoRepair, false),
      Replica(4, 4, 1, 0, [], map[1 := Good(B)], Normal, 4, B, {}, 0, 0, 0, NoRepair, false),
      Replica(4, 4, 1, 0, [], map[1 := Good(B)], Normal, 4, B, {}, 0, 0, 0, NoRepair, false),
      Replica(3, 0, 0, 0, [], map[], ViewChange, 3, [], {}, 0, 0, 0, NoRepair, false),
      Replica(4, 4, 1, 0, [], map[1 := Good(B)], Normal, 4, C, {2}, 1, 1, 0, NoRepair, false)]
    ensures JoinView(3, 1, Join(1, 0, 0, 1, [Some(A), Some([])], [true, true], [false, false])) in x.s.msgs
    ensures JoinView(3, 3, BLANK) in x.s.msgs
    ensures JoinView(3, 4, BLANK) in x.s.msgs
    ensures JoinView(3, 0, Join(2, 1, 0, 0, [Some(C), Some(B), Some([])], [true, true, true], [false, false, false])) in x.s.msgs
    ensures B in x.s.decided
  {
    hide IsRun, Select, ValidJoins, Senders;
    x := Part16();
    x := DoChange(x, 0, 3);
    x := DoPersist(x, 0);
    assert Now(x, 0).head[..2] == C;
    assert Now(x, 0).head[..1] == B;
    assert Now(x, 0).head[..0] == [];
    assert JoinOf(P, Now(x, 0)) == Join(2, 1, 0, 0, [Some(C), Some(B), Some([])], [true, true, true], [false, false, false]);
    x := DoJoin(x, 0);
  }

  lemma Part18() returns (x: Run)
    ensures IsRun(x) && x.p == P && x.but == {PromisedFirst}
    ensures x.s.rs == [
      Replica(3, 0, 2, 1, [], map[1 := Good(B), 2 := Good(C)], ViewChange, 3, C, {}, 1, 1, 0, NoRepair, false),
      Replica(4, 4, 1, 0, [], map[1 := Good(B)], Normal, 4, B, {}, 0, 0, 0, NoRepair, false),
      Replica(4, 4, 1, 0, [], map[1 := Good(B)], Normal, 4, B, {}, 0, 0, 0, NoRepair, false),
      Replica(3, 0, 0, 0, [], map[], RecoveringHead, 3, [], {}, 0, 1, 0, Repair(3, 1, A, 0, false), false),
      Replica(4, 4, 1, 0, [], map[1 := Good(B)], Normal, 4, C, {2}, 1, 1, 0, NoRepair, false)]
    ensures B in x.s.decided
  {
    hide IsRun, Select, ValidJoins, Senders;
    x := Part17();
    Selection2();
    x := DoSelect(x, 3, JOINS_2, 0, 1, [A]);
  }

  lemma Part19() returns (x: Run)
    ensures IsRun(x) && x.p == P && x.but == {PromisedFirst}
    ensures x.s.rs == [
      Replica(3, 0, 2, 1, [], map[1 := Good(B), 2 := Good(C)], ViewChange, 3, C, {}, 1, 1, 0, NoRepair, false),
      Replica(4, 4, 1, 0, [], map[1 := Good(B)], Normal, 4, B, {}, 0, 0, 0, NoRepair, false),
      Replica(4, 4, 1, 0, [], map[1 := Good(B)], Normal, 4, B, {}, 0, 0, 0, NoRepair, false),
      Replica(3, 0, 0, 0, [], map[1 := Good(A)], RecoveringHead, 3, A, {}, 1, 1, 0, Repair(3, 1, A, 0, true), false),
      Replica(4, 4, 1, 0, [], map[1 := Good(B)], Normal, 4, C, {2}, 1, 1, 0, NoRepair, false)]
    ensures B in x.s.decided && A in x.s.decided
  {
    hide IsRun, Select, ValidJoins, Senders;
    x := Part18();
    x := DoRewrite(x, 3, 1);
    assert A == A[..1];
    assert Now(x, 3).disk == map[1 := Good(A)];
    x := DoRebuild(x, 3);
    assert Now(x, 3).head[..1] == A;
    x := DoCommit(x, 3, 1, {});
  }

  lemma GuardNeeded()
    ensures Needed(P, PromisedFirst)
  {
    hide IsRun;
    var x := Part19();
    assert B[..1] == B != A;
    Finish(x, PromisedFirst, B, A);
  }
}
