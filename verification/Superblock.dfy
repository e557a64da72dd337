/**
  Choosing the superblock to open from (replication/superblock.go): readable
  copies are grouped by sequence, must form one linked chain, and the highest
  sequence with enough copies wins.
 */
module Superblock {

  datatype Durable = Durable(checkpoint: nat, commitMax: nat, logView: nat, view: nat)

  datatype Block = Block(sequence: nat, parent: int, checksum: int, state: Durable)

  const ZERO_CHECKSUM := 0

  datatype Error = Quorum | Fork | Invalid | Incomplete
  datatype Result = Ok(block: Block) | Err(error: Error)

  predicate Regressed(previous: Durable, current: Durable) {
    || current.checkpoint < previous.checkpoint || current.commitMax < previous.commitMax
    || current.logView < previous.logView || current.view < previous.view
  }

  function OpenQuorum(copies: nat): (q: nat) {
    if copies == 4 then 2 else if copies == 6 then 3 else if copies == 8 then 4 else 0
  }

  function WriteCopies(copies: nat): (w: nat) {
    if copies == 4 then 3 else if copies == 6 then 4 else if copies == 8 then 5 else 0
  }

  // ---- the meaning of a selection ----------------------------------------------------------

  predicate Initial(b: Block) {
    b.sequence == 1 && b.parent == ZERO_CHECKSUM
  }

  /** Copies a block needs to be opened from; a formatted block needs every copy that formatting wrote. */
  function Required(b: Block, copies: nat): (r: nat) {
    if Initial(b) then WriteCopies(copies) else OpenQuorum(copies)
  }

  /** Copies of `sequence` among the first `n` candidates. */
  function CountUpTo(cs: seq<Block>, n: nat, sequence: nat): (r: nat)
    requires n <= |cs|
  {
    if n == 0 then 0
    else CountUpTo(cs, n - 1, sequence) + if cs[n - 1].sequence == sequence then 1 else 0
  }

  function Count(cs: seq<Block>, sequence: nat): (r: nat) {
    CountUpTo(cs, |cs|, sequence)
  }

  /** The checksum identifies the contents. */
  predicate Honest(cs: seq<Block>) {
    forall i, j :: 0 <= i < |cs| && 0 <= j < |cs| && cs[i].checksum == cs[j].checksum ==> cs[i] == cs[j]
  }

  predicate Forked(cs: seq<Block>) {
    exists i, j :: 0 <= i < |cs| && 0 <= j < |cs| && cs[i].sequence == cs[j].sequence && cs[i].checksum != cs[j].checksum
  }

  predicate Follows(b: Block, c: Block) {
    c.sequence == b.sequence + 1 && c.parent == b.checksum && !Regressed(b.state, c.state)
  }

  /** Every block but those of the lowest sequence follows another. */
  predicate Linked(cs: seq<Block>) {
    forall i, j :: 0 <= i < |cs| && 0 <= j < |cs| && cs[i].sequence < cs[j].sequence ==>
      exists k :: 0 <= k < |cs| && Follows(cs[k], cs[j])
  }

  predicate Qualified(cs: seq<Block>, b: Block, copies: nat) {
    Count(cs, b.sequence) >= Required(b, copies)
  }

  predicate Usable(cs: seq<Block>, copies: nat) {
    copies in {4, 6, 8} && 0 < |cs| <= copies
  }

  /** What `SelectSuperblock` promises. */
  predicate IsSelection(cs: seq<Block>, copies: nat, r: Result) {
    if !Usable(cs, copies) then r == Err(Quorum)
    else if Forked(cs) then r == Err(Error.Fork)
    else if !Linked(cs) then r == Err(Invalid)
    else if exists i :: 0 <= i < |cs| && Qualified(cs, cs[i], copies) then
      && r.Ok? && r.block in cs && Qualified(cs, r.block, copies)
      && forall i :: 0 <= i < |cs| && Qualified(cs, cs[i], copies) ==> cs[i].sequence <= r.block.sequence
    else r == Err(if exists i :: 0 <= i < |cs| && Initial(cs[i]) then Incomplete else Quorum)
  }

  /** Copies of one sequence are copies of one block. */
  predicate Unmixed(cs: seq<Block>) {
    forall i, j :: 0 <= i < |cs| && 0 <= j < |cs| && cs[i].sequence == cs[j].sequence ==> cs[i] == cs[j]
  }

  /** The promise leaves no choice. */
  lemma SelectionUnique(cs: seq<Block>, copies: nat, r: Result, s: Result)
    requires !Forked(cs) ==> Unmixed(cs)
    requires IsSelection(cs, copies, r) && IsSelection(cs, copies, s)
    ensures r == s
  {
    if r.Ok? && s.Ok? {
      var i :| 0 <= i < |cs| && cs[i] == r.block;
      var j :| 0 <= j < |cs| && cs[j] == s.block;
      assert Qualified(cs, cs[i], copies) && Qualified(cs, cs[j], copies);
    }
  }

  lemma HighestIsSelection(cs: seq<Block>, copies: nat, x: nat)
    requires Usable(cs, copies) && !Forked(cs) && Linked(cs) && x < |cs| && Qualified(cs, cs[x], copies)
    requires forall i :: 0 <= i < |cs| && Qualified(cs, cs[i], copies) ==> cs[i].sequence <= cs[x].sequence
    ensures IsSelection(cs, copies, Ok(cs[x]))
  {
    hide Forked, Linked, Qualified, Usable;
  }

  function IndicesOf(cs: seq<Block>, n: nat, sequence: nat): (r: set<nat>)
    requires n <= |cs|
  {
    set i: nat | i < n && cs[i].sequence == sequence
  }

  lemma {:induction false} CountIsSize(cs: seq<Block>, n: nat, sequence: nat)
    requires n <= |cs|
    ensures CountUpTo(cs, n, sequence) == |IndicesOf(cs, n, sequence)|
  {
    if n > 0 {
      CountIsSize(cs, n - 1, sequence);
      var before := IndicesOf(cs, n - 1, sequence);
      assert IndicesOf(cs, n, sequence) == if cs[n - 1].sequence == sequence then before + {n - 1} else before;
    }
  }

  /** Two copies of one sequence with different checksums. */
  predicate TwoVersions(cs: seq<Block>, i: nat, j: nat) {
    i < |cs| && j < |cs| && cs[i].sequence == cs[j].sequence && cs[i].checksum != cs[j].checksum
  }

  /** Copy `k` is the parent of copy `j`, and nothing durable goes back from it to `j`. */
  predicate ParentOf(cs: seq<Block>, k: nat, j: nat) {
    && k < |cs| && j < |cs| && cs[j].sequence == cs[k].sequence + 1 && cs[j].parent == cs[k].checksum
    && cs[k].state.checkpoint <= cs[j].state.checkpoint && cs[k].state.commitMax <= cs[j].state.commitMax
    && cs[k].state.logView <= cs[j].state.logView && cs[k].state.view <= cs[j].state.view
  }

  /** Copy `j` is not of the lowest sequence and has no parent among the copies. */
  ghost predicate Orphan(cs: seq<Block>, j: nat) {
    j < |cs| && (exists i: nat :: i < |cs| && cs[i].sequence < cs[j].sequence) && forall k: nat :: !ParentOf(cs, k, j)
  }

  /** Half of the places hold the sequence of copy `i`, or more than half if it is the first superblock. */
  predicate HeldEnough(cs: seq<Block>, i: nat, copies: nat)
    requires i < |cs|
  {
    var held := |IndicesOf(cs, |cs|, cs[i].sequence)|;
    if cs[i].sequence == 1 && cs[i].parent == ZERO_CHECKSUM then held >= copies / 2 + 1 else held >= copies / 2
  }

  /** The selection, case by case, on the fields of the copies. */
  lemma SelectionByFields(cs: seq<Block>, copies: nat, r: Result)
    requires copies in {4, 6, 8} && 0 < |cs| <= copies && IsSelection(cs, copies, r)
    ensures (exists i: nat, j: nat :: TwoVersions(cs, i, j)) <==> r == Err(Error.Fork)
    ensures r != Err(Error.Fork) ==> ((exists j: nat :: Orphan(cs, j)) <==> r == Err(Invalid))
    ensures r.Ok? ==> exists i: nat :: i < |cs| && cs[i] == r.block && HeldEnough(cs, i, copies)
    ensures r.Ok? ==> forall i: nat :: i < |cs| && HeldEnough(cs, i, copies) ==> cs[i].sequence <= r.block.sequence
    ensures r == Err(Incomplete) || r == Err(Quorum) ==> forall i: nat :: i < |cs| ==> !HeldEnough(cs, i, copies)
    ensures r == Err(Incomplete) ==> exists i: nat :: i < |cs| && cs[i].sequence == 1 && cs[i].parent == ZERO_CHECKSUM
    ensures r == Err(Quorum) ==> forall i: nat :: i < |cs| ==> !(cs[i].sequence == 1 && cs[i].parent == ZERO_CHECKSUM)
  {
    ForkedIff(cs);
    LinkedIff(cs);
    hide Forked, Linked;
    forall i: nat | i < |cs|
      ensures Qualified(cs, cs[i], copies) <==> HeldEnough(cs, i, copies)
    {
      CountIsSize(cs, |cs|, cs[i].sequence);
    }
    hide Qualified, HeldEnough;
    if r.Ok? {
      var i: nat :| i < |cs| && cs[i] == r.block;
    }
  }

  lemma ForkedIff(cs: seq<Block>)
    ensures Forked(cs) <==> exists i: nat, j: nat :: TwoVersions(cs, i, j)
  {
    if Forked(cs) {
      var i, j :| 0 <= i < |cs| && 0 <= j < |cs| && cs[i].sequence == cs[j].sequence && cs[i].checksum != cs[j].checksum;
      assert TwoVersions(cs, i, j);
    }
  }

  lemma LinkedIff(cs: seq<Block>)
    ensures Linked(cs) <==> forall j: nat :: !Orphan(cs, j)
  {
    assert forall k: nat, j: nat :: k < |cs| && j < |cs| ==> (ParentOf(cs, k, j) <==> Follows(cs[k], cs[j]));
    hide Follows, ParentOf;
    if Linked(cs) {
      forall j: nat ensures !Orphan(cs, j) {
        if i: nat :| i < |cs| && j < |cs| && cs[i].sequence < cs[j].sequence {
          var k := LinkedTo(cs, i, j);
          assert ParentOf(cs, k, j);
        }
      }
    }
    if forall j: nat :: !Orphan(cs, j) {
      forall i, j | 0 <= i < |cs| && 0 <= j < |cs| && cs[i].sequence < cs[j].sequence
        ensures exists k :: 0 <= k < |cs| && Follows(cs[k], cs[j])
      {
        assert !Orphan(cs, j);
        var k: nat :| ParentOf(cs, k, j);
        assert k < |cs| by { ParentInRange(cs, k, j); }
      }
    }
  }

  lemma ParentInRange(cs: seq<Block>, k: nat, j: nat)
    requires ParentOf(cs, k, j)
    ensures k < |cs| && j < |cs|
  {
  }

  // ---- the loops that compute it -------------------------------------------------------------

  datatype Value = Value(block: Block, count: nat)

  predicate Covers(vs: seq<Value>, b: Block) {
    exists i :: 0 <= i < |vs| && vs[i].block == b
  }

  predicate Distinct(vs: seq<Value>) {
    forall i, j :: 0 <= i < j < |vs| ==> vs[i].block.sequence != vs[j].block.sequence
  }

  predicate Counted(cs: seq<Block>, n: nat, v: Value) {
    n <= |cs| && v.count == CountUpTo(cs, n, v.block.sequence) && exists k :: 0 <= k < n && cs[k] == v.block
  }

  /** One value per sequence seen among the first `n` candidates, with its number of copies. */
  predicate Grouped(cs: seq<Block>, n: nat, vs: seq<Value>) {
    && n <= |cs| && Distinct(vs)
    && (forall i :: 0 <= i < |vs| ==> Counted(cs, n, vs[i]))
    && (forall k :: 0 <= k < n ==> Covers(vs, cs[k]))
  }

  lemma {:induction false} CountPositive(cs: seq<Block>, n: nat, sequence: nat)
    requires n <= |cs|
    ensures CountUpTo(cs, n, sequence) > 0 <==> exists i :: 0 <= i < n && cs[i].sequence == sequence
  {
    if n > 0 { CountPositive(cs, n - 1, sequence); }
  }

  method FindValue(vs: seq<Value>, sequence: nat) returns (index: nat)
    ensures index <= |vs|
    ensures index < |vs| ==> vs[index].block.sequence == sequence
    ensures index == |vs| ==> forall i :: 0 <= i < |vs| ==> vs[i].block.sequence != sequence
  {
    index := 0;
    while index < |vs|
      invariant index <= |vs| && forall i :: 0 <= i < index ==> vs[i].block.sequence != sequence
    {
      if vs[index].block.sequence == sequence {
        return;
      }
      index := index + 1;
    }
  }

  lemma GroupAdds(cs: seq<Block>, n: nat, vs: seq<Value>, index: nat)
    requires Grouped(cs, n, vs) && n < |cs| && index < |vs| && vs[index].block == cs[n]
    ensures Grouped(cs, n + 1, vs[index := vs[index].(count := vs[index].count + 1)])
  {
    var ws := vs[index := vs[index].(count := vs[index].count + 1)];
    forall i | 0 <= i < |ws|
      ensures Counted(cs, n + 1, ws[i])
    {
      assert Counted(cs, n, vs[i]);
    }
    forall k | 0 <= k < n + 1
      ensures Covers(ws, cs[k])
    {
      var i :| 0 <= i < |vs| && vs[i].block == cs[k];
      assert ws[i].block == cs[k];
    }
  }

  lemma GroupGrows(cs: seq<Block>, n: nat, vs: seq<Value>)
    requires Grouped(cs, n, vs) && n < |cs| && forall i :: 0 <= i < |vs| ==> vs[i].block.sequence != cs[n].sequence
    ensures Grouped(cs, n + 1, vs + [Value(cs[n], 1)])
  {
    var ws := vs + [Value(cs[n], 1)];
    CountPositive(cs, n, cs[n].sequence);
    forall k | 0 <= k < n
      ensures cs[k].sequence != cs[n].sequence && Covers(ws, cs[k])
    {
      assert Covers(vs, cs[k]);
      var i :| 0 <= i < |vs| && vs[i].block == cs[k];
      assert ws[i].block == cs[k];
    }
    assert ws[|vs|].block == cs[n];
    forall i | 0 <= i < |ws|
      ensures Counted(cs, n + 1, ws[i])
    {
      if i < |vs| {
        assert Counted(cs, n, vs[i]);
      }
    }
  }

  lemma SameChecksum(cs: seq<Block>, i: nat, j: nat)
    requires Honest(cs) && i < |cs| && j < |cs| && cs[i].checksum == cs[j].checksum
    ensures cs[i] == cs[j]
  {
  }

  lemma GroupedUnforked(cs: seq<Block>, vs: seq<Value>)
    requires Grouped(cs, |cs|, vs)
    ensures !Forked(cs)
  {
    forall i, j | 0 <= i < |cs| && 0 <= j < |cs| && cs[i].sequence == cs[j].sequence
      ensures cs[i].checksum == cs[j].checksum
    {
      assert Covers(vs, cs[i]) && Covers(vs, cs[j]);
    }
  }

  /** The grouping loop: stops at the first two copies of one sequence that differ. */
  method Group(cs: seq<Block>) returns (vs: seq<Value>, fork: bool)
    requires Honest(cs)
    ensures fork <==> Forked(cs)
    ensures !fork ==> Grouped(cs, |cs|, vs)
  {
    hide Honest;
    vs, fork := [], false;
    var n := 0;
    while n < |cs|
      invariant n <= |cs| && !fork && Grouped(cs, n, vs)
    {
      hide Grouped, Honest;
      var index := FindValue(vs, cs[n].sequence);
      if index < |vs| {
        ghost var k := SourceOf(cs, n, vs, index);
        if vs[index].block.checksum != cs[n].checksum {
          assert Forked(cs);
          fork := true;
          return;
        }
        SameChecksum(cs, k, n);
        GroupAdds(cs, n, vs, index);
        vs := vs[index := vs[index].(count := vs[index].count + 1)];
      } else {
        GroupGrows(cs, n, vs);
        vs := vs + [Value(cs[n], 1)];
      }
      n := n + 1;
    }
    GroupedUnforked(cs, vs);
  }

  lemma SourceOf(cs: seq<Block>, n: nat, vs: seq<Value>, index: nat) returns (k: nat)
    requires Grouped(cs, n, vs) && index < |vs|
    ensures k < n <= |cs| && cs[k] == vs[index].block
  {
    assert Counted(cs, n, vs[index]);
    k :| 0 <= k < n && cs[k] == vs[index].block;
  }

  lemma GroupSwaps(cs: seq<Block>, n: nat, vs: seq<Value>, i: nat, j: nat)
    requires Grouped(cs, n, vs) && i < j < |vs|
    ensures Grouped(cs, n, vs[i := vs[j]][j := vs[i]])
  {
    var ws := vs[i := vs[j]][j := vs[i]];
    forall k | 0 <= k < n
      ensures Covers(ws, cs[k])
    {
      assert Covers(vs, cs[k]);
      var m :| 0 <= m < |vs| && vs[m].block == cs[k];
      assert ws[if m == i then j else if m == j then i else m].block == cs[k];
    }
  }

  predicate LeastFrom(vs: seq<Value>, left: nat, end: nat) {
    left < |vs| && forall k :: left < k < end && k < |vs| ==> vs[left].block.sequence < vs[k].block.sequence
  }

  predicate Ascending(vs: seq<Value>, end: nat) {
    forall i, j :: 0 <= i < j < |vs| && i < end ==> vs[i].block.sequence < vs[j].block.sequence
  }

  lemma SwapKeepsOrder(vs: seq<Value>, left: nat, right: nat)
    requires left < right < |vs| && Ascending(vs, left) && LeastFrom(vs, left, right)
    requires vs[right].block.sequence < vs[left].block.sequence
    ensures var ws := vs[left := vs[right]][right := vs[left]];
      Ascending(ws, left) && LeastFrom(ws, left, right + 1)
  {
  }

  /** The inner loop of the exchange sort: the least remaining sequence moves to `left`. */
  method Exchange(cs: seq<Block>, given: seq<Value>, left: nat) returns (vs: seq<Value>)
    requires Grouped(cs, |cs|, given) && left < |given| && Ascending(given, left)
    ensures Grouped(cs, |cs|, vs) && |vs| == |given| && Ascending(vs, left) && LeastFrom(vs, left, |vs|)
  {
    vs := given;
    var right := left + 1;
    while right < |vs|
      invariant left < right <= |vs| == |given| && Grouped(cs, |cs|, vs)
      invariant Ascending(vs, left) && LeastFrom(vs, left, right)
    {
      hide Grouped, Ascending;
      if vs[right].block.sequence < vs[left].block.sequence {
        GroupSwaps(cs, |cs|, vs, left, right);
        SwapKeepsOrder(vs, left, right);
        vs := vs[left := vs[right]][right := vs[left]];
      } else {
        GroupDistinct(cs, |cs|, vs, left, right);
      }
      right := right + 1;
    }
  }

  /** The exchange sort by sequence. */
  method Sort(cs: seq<Block>, unsorted: seq<Value>) returns (vs: seq<Value>)
    requires Grouped(cs, |cs|, unsorted)
    ensures Grouped(cs, |cs|, vs) && |vs| == |unsorted| && Ascending(vs, |vs|)
  {
    hide Grouped;
    vs := unsorted;
    var left := 0;
    while left < |vs|
      invariant left <= |vs| == |unsorted| && Grouped(cs, |cs|, vs) && Ascending(vs, left)
    {
      vs := Exchange(cs, vs, left);
      left := left + 1;
    }
  }

  lemma GroupDistinct(cs: seq<Block>, n: nat, vs: seq<Value>, i: nat, j: nat)
    requires Grouped(cs, n, vs) && i < j < |vs|
    ensures vs[i].block.sequence != vs[j].block.sequence
  {
  }

  /** A sorted chain: each value follows the one before it. */
  predicate Chain(vs: seq<Value>, end: nat) {
    forall i :: 0 < i < |vs| && i < end ==> Follows(vs[i - 1].block, vs[i].block)
  }

  lemma GroupMember(cs: seq<Block>, vs: seq<Value>, k: nat) returns (i: nat)
    requires Grouped(cs, |cs|, vs) && k < |cs|
    ensures i < |vs| && vs[i].block == cs[k]
  {
    assert Covers(vs, cs[k]);
    i :| 0 <= i < |vs| && vs[i].block == cs[k];
  }

  /** In a chain of values every copy but the lowest follows another. */
  lemma ChainFollows(cs: seq<Block>, vs: seq<Value>, i: nat, j: nat) returns (k: nat)
    requires Grouped(cs, |cs|, vs) && Ascending(vs, |vs|) && Chain(vs, |vs|)
    requires i < |cs| && j < |cs| && cs[i].sequence < cs[j].sequence
    ensures k < |cs| && Follows(cs[k], cs[j])
  {
    hide Grouped, Follows;
    var a := GroupMember(cs, vs, i);
    var b := GroupMember(cs, vs, j);
    assert a < b;
    k := SourceOf(cs, |cs|, vs, b - 1);
  }

  lemma LinkedTo(cs: seq<Block>, i: nat, j: nat) returns (k: nat)
    requires Linked(cs) && i < |cs| && j < |cs| && cs[i].sequence < cs[j].sequence
    ensures k < |cs| && Follows(cs[k], cs[j])
  {
    hide Follows;
    k :| 0 <= k < |cs| && Follows(cs[k], cs[j]);
  }

  /** If every copy but the lowest follows another, neighbouring values do. */
  lemma LinkedNeighbours(cs: seq<Block>, vs: seq<Value>, i: nat)
    requires Grouped(cs, |cs|, vs) && Ascending(vs, |vs|) && Linked(cs) && 0 < i < |vs|
    ensures Follows(vs[i - 1].block, vs[i].block)
  {
    hide Grouped, Linked;
    var b := SourceOf(cs, |cs|, vs, i - 1);
    var c := SourceOf(cs, |cs|, vs, i);
    assert cs[b].sequence < cs[c].sequence;
    var k := LinkedTo(cs, b, c);
    var m := GroupMember(cs, vs, k);
    assert m < i && m >= i - 1;
  }

  /** Checking neighbours of the sorted values is checking the whole set of copies. */
  lemma ChainIsLinked(cs: seq<Block>, vs: seq<Value>)
    requires Grouped(cs, |cs|, vs) && Ascending(vs, |vs|)
    ensures Chain(vs, |vs|) <==> Linked(cs)
  {
    hide Grouped, Ascending, Follows;
    if Chain(vs, |vs|) {
      forall i, j | 0 <= i < |cs| && 0 <= j < |cs| && cs[i].sequence < cs[j].sequence
        ensures exists k :: 0 <= k < |cs| && Follows(cs[k], cs[j])
      {
        var k := ChainFollows(cs, vs, i, j);
      }
    }
    if Linked(cs) {
      forall i | 0 < i < |vs|
        ensures Follows(vs[i - 1].block, vs[i].block)
      {
        LinkedNeighbours(cs, vs, i);
      }
    }
  }

  method CheckChain(vs: seq<Value>) returns (ok: bool)
    ensures ok <==> Chain(vs, |vs|)
  {
    var index := 1;
    while index < |vs|
      invariant 1 <= index && Chain(vs, index)
    {
      var previous, current := vs[index - 1].block, vs[index].block;
      if current.sequence != previous.sequence + 1 || current.parent != previous.checksum
         || Regressed(previous.state, current.state) {
        return false;
      }
      index := index + 1;
    }
    return true;
  }

  predicate Enough(v: Value, copies: nat) {
    v.count >= Required(v.block, copies)
  }

  /** `betterSuperblock` on two values of different sequence compares the sequences. */
  method Choose(vs: seq<Value>, copies: nat) returns (selected: int)
    requires Ascending(vs, |vs|)
    ensures -1 <= selected < |vs|
    ensures selected == -1 ==> forall i :: 0 <= i < |vs| ==> !Enough(vs[i], copies)
    ensures selected >= 0 ==> Enough(vs[selected], copies)
    ensures selected >= 0 ==> forall i :: 0 <= i < |vs| && Enough(vs[i], copies) ==> vs[i].block.sequence <= vs[selected].block.sequence
  {
    selected := -1;
    for index := 0 to |vs|
      invariant -1 <= selected < index
      invariant selected == -1 ==> forall i :: 0 <= i < index ==> !Enough(vs[i], copies)
      invariant selected >= 0 ==> Enough(vs[selected], copies)
      invariant selected >= 0 ==>
                  forall i :: 0 <= i < index && Enough(vs[i], copies) ==> vs[i].block.sequence <= vs[selected].block.sequence
    {
      if Enough(vs[index], copies) && (selected == -1 || vs[index].block.sequence > vs[selected].block.sequence) {
        selected := index;
      }
    }
  }

  lemma EnoughIsQualified(cs: seq<Block>, vs: seq<Value>, i: nat, copies: nat)
    requires Grouped(cs, |cs|, vs) && i < |vs|
    ensures Enough(vs[i], copies) <==> Qualified(cs, vs[i].block, copies)
  {
    assert Counted(cs, |cs|, vs[i]);
  }

  /** Choosing among the groups is choosing among the copies. */
  lemma ChosenIsSelection(cs: seq<Block>, vs: seq<Value>, copies: nat, selected: nat)
    requires Usable(cs, copies) && !Forked(cs) && Linked(cs)
    requires Grouped(cs, |cs|, vs) && selected < |vs| && Enough(vs[selected], copies)
    requires forall i :: 0 <= i < |vs| && Enough(vs[i], copies) ==> vs[i].block.sequence <= vs[selected].block.sequence
    ensures IsSelection(cs, copies, Ok(vs[selected].block))
  {
    hide Grouped, Forked, Linked, Qualified, Enough, IsSelection;
    EnoughIsQualified(cs, vs, selected, copies);
    var s := SourceOf(cs, |cs|, vs, selected);
    forall k | 0 <= k < |cs| && Qualified(cs, cs[k], copies)
      ensures cs[k].sequence <= vs[selected].block.sequence
    {
      var i := GroupMember(cs, vs, k);
      EnoughIsQualified(cs, vs, i, copies);
    }
    HighestIsSelection(cs, copies, s);
  }

  lemma NoneIsSelection(cs: seq<Block>, vs: seq<Value>, copies: nat, initial: bool)
    requires Usable(cs, copies) && !Forked(cs) && Linked(cs)
    requires Grouped(cs, |cs|, vs) && forall i :: 0 <= i < |vs| ==> !Enough(vs[i], copies)
    requires initial <==> exists i :: 0 <= i < |vs| && Initial(vs[i].block)
    ensures IsSelection(cs, copies, Err(if initial then Incomplete else Quorum))
  {
    hide Grouped, Forked, Linked, Qualified, Enough, Initial;
    forall k | 0 <= k < |cs|
      ensures !Qualified(cs, cs[k], copies) && (Initial(cs[k]) ==> initial)
    {
      var i := GroupMember(cs, vs, k);
      EnoughIsQualified(cs, vs, i, copies);
    }
    if initial {
      var i :| 0 <= i < |vs| && Initial(vs[i].block);
      var k := SourceOf(cs, |cs|, vs, i);
      assert Initial(cs[k]);
    }
  }

  /** `SelectSuperblock` */
  method Select(cs: seq<Block>, copies: nat) returns (r: Result)
    requires Honest(cs)
    ensures IsSelection(cs, copies, r)
    ensures copies !in {4, 6, 8} || |cs| == 0 || |cs| > copies ==> r == Err(Quorum)
  {
    hide Forked, Linked, Grouped, Ascending, Chain, Honest;
    if copies !in {4, 6, 8} || |cs| == 0 || |cs| > copies {
      return Err(Quorum);
    }
    var vs, fork := Group(cs);
    if fork {
      return Err(Error.Fork);
    }
    GroupedUnforked(cs, vs);
    vs := Sort(cs, vs);
    var linked := CheckChain(vs);
    ChainIsLinked(cs, vs);
    if !linked {
      return Err(Invalid);
    }
    var selected := Choose(vs, copies);
    if selected != -1 {
      ChosenIsSelection(cs, vs, copies, selected);
      return Ok(vs[selected].block);
    }
    var initial := false;
    for index := 0 to |vs|
      invariant initial <==> exists i :: 0 <= i < index && Initial(vs[i].block)
    {
      if Initial(vs[index].block) {
        initial := true;
      }
    }
    NoneIsSelection(cs, vs, copies, initial);
    return Err(if initial then Incomplete else Quorum);
  }
}
