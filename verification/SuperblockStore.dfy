/**
  The superblock store (replication/superblock_store.go): a persist writes the
  next superblock over a rotating part of the copies, one write and one sync at
  a time; a crash may keep or lose the one write that was not synced; opening
  selects a superblock and rewrites every copy with it.
 */
module SuperblockStore {
  import opened Chains
  import opened Superblock

  datatype Io = Closed | Idle | Writing(next: Block, step: nat, written: bool)

  datatype State = State(copies: seq<Option<Block>>, current: Block, io: Io)

  datatype Step =
    | Begin(next: Block)
    | Write
    | Sync
    | Reopen(kept: bool, selected: Block)

  /** Where the `k`th copy of a superblock goes. */
  function Place(n: nat, b: Block, k: nat): (i: nat)
    requires n > 0
    ensures i < n
  {
    (b.sequence + k) % n
  }

  /** The readable copies in physical order. */
  function Readable(copies: seq<Option<Block>>): (cs: seq<Block>)
    ensures |cs| <= |copies|
  {
    if copies == [] then []
    else
      var before := Readable(copies[..|copies| - 1]);
      var last := copies[|copies| - 1];
      if last.Some? then before + [last.value] else before
  }

  /** The copies after a crash; `kept` says whether an unsynced write survives. */
  function Platter(s: State, kept: bool): (copies: seq<Option<Block>>)
    ensures |copies| == |s.copies|
  {
    if s.io.Writing? && s.io.written && kept && |s.copies| > 0
    then s.copies[Place(|s.copies|, s.io.next, s.io.step) := Some(s.io.next)]
    else s.copies
  }

  /** A new superblock extends the current one, and its checksum is not that of another block. */
  predicate Acceptable(s: State, next: Block) {
    && Follows(s.current, next)
    && forall i :: 0 <= i < |s.copies| ==> (s.copies[i].Some? && s.copies[i].value.checksum == next.checksum ==> s.copies[i].value == next)
  }

  predicate Enabled(n: nat, s: State, step: Step) {
    n in {4, 6, 8} && |s.copies| == n &&
    match step
    case Begin(next) => s.io.Idle? && Acceptable(s, next)
    case Write => s.io.Writing? && !s.io.written && s.io.step < WriteCopies(n)
    case Sync => s.io.Writing? && s.io.written && s.io.step < WriteCopies(n)
    case Reopen(kept, b) => IsSelection(Readable(Platter(s, kept)), n, Ok(b))
  }

  function Apply(n: nat, s: State, step: Step): (q: State)
    requires Enabled(n, s, step)
  {
    match step
    case Begin(next) => s.(io := Writing(next, 0, false))
    case Write => s.(io := s.io.(written := true))
    case Sync =>
      var copies := s.copies[Place(n, s.io.next, s.io.step) := Some(s.io.next)];
      if s.io.step + 1 < WriteCopies(n) then State(copies, s.current, Writing(s.io.next, s.io.step + 1, false))
      else State(copies, s.io.next, Idle)
    case Reopen(_, b) => State(seq(n, _ => Some(b)), b, Idle)
  }

  ghost predicate Run(n: nat, s: State, steps: seq<Step>, q: State)
    decreases |steps|
  {
    if steps == [] then s == q
    else Enabled(n, s, steps[0]) && Run(n, Apply(n, s, steps[0]), steps[1..], q)
  }

  /** What formatting leaves: the first superblock in the first few places. */
  function Formatted(n: nat, first: Block): (s: State) {
    State(seq(n, i => if i < WriteCopies(n) then Some(first) else None), first, Closed)
  }

  // ---- four copies: the invariant ----------------------------------------------------------

  /** What the places hold before a persist begins: all the current one, or one copy of its predecessor. */
  predicate Settled(copies: seq<Option<Block>>, current: Block, previous: Block) {
    && |copies| == 4
    && (forall k :: 0 <= k < 3 ==> copies[Place(4, current, k)] == Some(current))
    && (|| copies[Place(4, current, 3)] == Some(current)
        || (copies[Place(4, current, 3)] == Some(previous) && Follows(previous, current) && previous.checksum != current.checksum))
  }

  /** Some of the places overwritten with the next superblock. */
  function Overwritten(copies: seq<Option<Block>>, next: Block, k: nat): (r: seq<Option<Block>>)
    requires |copies| > 0
    ensures |r| == |copies|
  {
    if k == 0 then copies else Overwritten(copies, next, k - 1)[Place(|copies|, next, k - 1) := Some(next)]
  }

  predicate Inv(s: State, previous: Block, base: seq<Option<Block>>) {
    && |base| == 4 && s.current.sequence >= 1 && previous.sequence >= 1 && Settled(base, s.current, previous)
    && (s.io.Idle? ==> s.copies == base)
    && (s.io.Writing? ==>
        && Follows(s.current, s.io.next) && s.io.step < 3 && s.copies == Overwritten(base, s.io.next, s.io.step)
        && s.io.next.checksum != s.current.checksum)
    && !s.io.Closed?
  }

  function One(b: Block, sequence: nat): (r: nat) {
    if b.sequence == sequence then 1 else 0
  }

  lemma CountFour(cs: seq<Block>, sequence: nat)
    requires |cs| == 4
    ensures Count(cs, sequence) == One(cs[0], sequence) + One(cs[1], sequence) + One(cs[2], sequence) + One(cs[3], sequence)
  {
    assert CountUpTo(cs, 0, sequence) == 0;
    assert CountUpTo(cs, 1, sequence) == One(cs[0], sequence);
    assert CountUpTo(cs, 2, sequence) == One(cs[0], sequence) + One(cs[1], sequence);
    assert CountUpTo(cs, 3, sequence) == One(cs[0], sequence) + One(cs[1], sequence) + One(cs[2], sequence);
  }

  /** Counting does not depend on which place comes first. */
  lemma CountRotated(cs: seq<Block>, first: Block, sequence: nat)
    requires |cs| == 4
    ensures Count(cs, sequence) == One(cs[Place(4, first, 0)], sequence) + One(cs[Place(4, first, 1)], sequence)
                                   + One(cs[Place(4, first, 2)], sequence) + One(cs[Place(4, first, 3)], sequence)
  {
    CountFour(cs, sequence);
  }

  lemma {:induction false} ReadableAll(copies: seq<Option<Block>>)
    requires forall i :: 0 <= i < |copies| ==> copies[i].Some?
    ensures |Readable(copies)| == |copies|
    ensures forall i :: 0 <= i < |copies| ==> Readable(copies)[i] == copies[i].value
  {
    if copies != [] { ReadableAll(copies[..|copies| - 1]); }
  }

  /** A copy of the current superblock, of the one before it or of the one after it. */
  predicate Kin(b: Block, previous: Block, current: Block, next: Block) {
    b == current || (b == previous && Follows(previous, current)) || (b == next && Follows(current, next))
  }

  lemma KinLinked(cs: seq<Block>, previous: Block, current: Block, next: Block)
    requires current in cs && forall i :: 0 <= i < |cs| ==> Kin(cs[i], previous, current, next)
    ensures !Forked(cs) && Linked(cs) && Unmixed(cs)
  {
    var c :| 0 <= c < |cs| && cs[c] == current;
    forall i, j | 0 <= i < |cs| && 0 <= j < |cs| && cs[i].sequence < cs[j].sequence
      ensures exists k :: 0 <= k < |cs| && Follows(cs[k], cs[j])
    {
      assert Kin(cs[i], previous, current, next) && Kin(cs[j], previous, current, next);
      if cs[j] == current {
        assert Follows(cs[i], cs[j]);
      } else {
        assert Follows(cs[c], cs[j]);
      }
    }
    forall i, j | 0 <= i < |cs| && 0 <= j < |cs| && cs[i].sequence == cs[j].sequence
      ensures cs[i] == cs[j]
    {
      assert Kin(cs[i], previous, current, next) && Kin(cs[j], previous, current, next);
    }
  }

  /**
    Four copies holding a superblock, perhaps its predecessor, perhaps its
    successor: the successor is opened once it has two copies, and until then
    the superblock itself, if it has two copies (three if it is the first).
   */
  lemma FourSelect(cs: seq<Block>, previous: Block, current: Block, next: Block, c: nat, x: nat)
    requires |cs| == 4 && c < 4 && x < 4 && cs[c] == current && current.sequence >= 1
    requires forall i :: 0 <= i < |cs| ==> Kin(cs[i], previous, current, next)
    requires if Count(cs, current.sequence + 1) >= 2 then cs[x].sequence == current.sequence + 1
             else cs[x] == current && Count(cs, current.sequence) >= Required(current, 4)
    ensures IsSelection(cs, 4, Ok(cs[x])) && Unmixed(cs)
  {
    hide Count, CountUpTo, Forked, Linked, IsSelection, Kin, Unmixed;
    KinLinked(cs, previous, current, next);
    forall i | 0 <= i < |cs| && Qualified(cs, cs[i], 4)
      ensures cs[i].sequence <= cs[x].sequence
    {
      KinQualified(cs, previous, current, next, cs[i]);
    }
    ChosenQualifies(cs, current, x);
    HighestIsSelection(cs, 4, x);
  }

  lemma ChosenQualifies(cs: seq<Block>, current: Block, x: nat)
    requires x < |cs| && current.sequence >= 1
    requires if Count(cs, current.sequence + 1) >= 2 then cs[x].sequence == current.sequence + 1
             else cs[x] == current && Count(cs, current.sequence) >= Required(current, 4)
    ensures Qualified(cs, cs[x], 4)
  {
    hide CountUpTo;
  }

  lemma KinQualified(cs: seq<Block>, previous: Block, current: Block, next: Block, b: Block)
    requires Kin(b, previous, current, next) && Qualified(cs, b, 4) && current.sequence >= 1
    ensures b.sequence <= if Count(cs, current.sequence + 1) >= 2 then current.sequence + 1 else current.sequence
  {
    hide Count;
  }

  lemma OverwrittenAt(base: seq<Option<Block>>, next: Block, k: nat, j: nat)
    requires |base| == 4 && k <= 3 && j < 4
    ensures Overwritten(base, next, k)[Place(4, next, j)] == if j < k then Some(next) else base[Place(4, next, j)]
  {
    if k > 0 { OverwrittenAt(base, next, k - 1, j); }
  }

  /** Which superblock the first `k` writes of a persist leave to be opened. */
  function Opened(current: Block, next: Block, k: nat): (b: Block) {
    if k >= 2 then next else current
  }

  /** The four places, counted from the first place of the current superblock, after `k` writes of the next. */
  lemma PlacesAfter(base: seq<Option<Block>>, previous: Block, current: Block, next: Block, k: nat)
    requires Settled(base, current, previous) && next.sequence == current.sequence + 1 && k <= 3
    ensures var r := Overwritten(base, next, k);
      && r[Place(4, current, 0)] == Some(current)
      && r[Place(4, current, 1)] == Some(if k > 0 then next else current)
      && r[Place(4, current, 2)] == Some(if k > 1 then next else current)
      && r[Place(4, current, 3)] == if k > 2 then Some(next) else base[Place(4, current, 3)]
  {
    hide Overwritten;
    OverwrittenAt(base, next, k, 0);
    OverwrittenAt(base, next, k, 1);
    OverwrittenAt(base, next, k, 2);
    OverwrittenAt(base, next, k, 3);
    assert Place(4, next, 0) == Place(4, current, 1) && Place(4, next, 1) == Place(4, current, 2);
    assert Place(4, next, 2) == Place(4, current, 3) && Place(4, next, 3) == Place(4, current, 0);
    assert base[Place(4, current, 1)] == Some(current) && base[Place(4, current, 2)] == Some(current);
    assert base[Place(4, current, 0)] == Some(current);
  }

  lemma AnyPlace(current: Block, i: nat) returns (k: nat)
    requires i < 4
    ensures k < 4 && Place(4, current, k) == i
  {
    k := (i + 4 - current.sequence % 4) % 4;
  }

  /** After `k` writes of a persist over settled copies, opening selects the old or the new superblock. */
  lemma OverwrittenSelect(base: seq<Option<Block>>, previous: Block, current: Block, next: Block, k: nat)
    requires Settled(base, current, previous) && current.sequence >= 1 && previous.sequence >= 1
    requires Follows(current, next) && k <= 3
    ensures IsSelection(Readable(Overwritten(base, next, k)), 4, Ok(Opened(current, next, k)))
    ensures Unmixed(Readable(Overwritten(base, next, k)))
  {
    hide IsSelection, Unmixed, Count, Overwritten, Settled, Readable;
    LastPlace(base, previous, current);
    var r := Overwritten(base, next, k);
    PlacesAfter(base, previous, current, next, k);
    forall i | 0 <= i < 4
      ensures r[i].Some? && Kin(r[i].value, previous, current, next)
    {
      var m := AnyPlace(current, i);
    }
    ReadableAll(r);
    var cs := Readable(r);
    assert forall i :: 0 <= i < 4 ==> cs[i] == r[i].value;
    CountRotated(cs, current, current.sequence + 1);
    CountRotated(cs, current, current.sequence);
    var c, x := Place(4, current, 0), Place(4, current, if k >= 2 then 1 else 0);
    FourSelect(cs, previous, current, next, c, x);
  }

  lemma LastPlace(base: seq<Option<Block>>, previous: Block, current: Block)
    requires Settled(base, current, previous)
    ensures |base| == 4
    ensures base[Place(4, current, 3)] == Some(current) || (base[Place(4, current, 3)] == Some(previous) && Follows(previous, current))
  {
  }

  // ---- four copies: every run ----------------------------------------------------------------

  /** The writes of the current persist that a crash leaves. */
  function Survived(s: State, kept: bool): (k: nat) {
    if s.io.Writing? then s.io.step + if s.io.written && kept then 1 else 0 else 0
  }

  /** The superblock opening must select after a crash. */
  function Expected(s: State, kept: bool): (b: Block) {
    if s.io.Writing? then Opened(s.current, s.io.next, Survived(s, kept)) else s.current
  }

  ghost predicate Safe(s: State, first: Block) {
    || (s == Formatted(4, first) && Initial(first))
    || exists previous, base :: Inv(s, previous, base)
  }

  lemma {:induction false} CountUniform(cs: seq<Block>, n: nat, b: Block)
    requires n <= |cs| && forall i :: 0 <= i < |cs| ==> cs[i] == b
    ensures CountUpTo(cs, n, b.sequence) == n
  {
    if n > 0 { CountUniform(cs, n - 1, b); }
  }

  lemma {:induction false} ReadablePrefix(copies: seq<Option<Block>>, k: nat)
    requires k <= |copies| && forall i :: k <= i < |copies| ==> copies[i].None?
    ensures Readable(copies) == Readable(copies[..k])
  {
    if k < |copies| {
      assert copies[..|copies| - 1][..k] == copies[..k];
      ReadablePrefix(copies[..|copies| - 1], k);
    } else {
      assert copies[..k] == copies;
    }
  }

  lemma FirstSelect(n: nat, first: Block)
    requires n in {4, 6, 8} && Initial(first)
    ensures IsSelection(Readable(Formatted(n, first).copies), n, Ok(first))
    ensures Unmixed(Readable(Formatted(n, first).copies))
  {
    hide IsSelection, Forked, Linked, Readable;
    var copies := Formatted(n, first).copies;
    ReadablePrefix(copies, WriteCopies(n));
    ReadableAll(copies[..WriteCopies(n)]);
    var cs := Readable(copies);
    CountUniform(cs, |cs|, first);
    assert cs[0] == first;
    KinLinked(cs, first, first, first);
    HighestIsSelection(cs, n, 0);
  }

  /** A crash at any point of any persist: the old superblock is selected below two new copies, the new one from two on. */
  lemma SafeSelect(s: State, first: Block, kept: bool)
    requires Safe(s, first)
    ensures |s.copies| == 4 && IsSelection(Readable(Platter(s, kept)), 4, Ok(Expected(s, kept)))
    ensures Unmixed(Readable(Platter(s, kept)))
  {
    hide IsSelection, Unmixed, Readable;
    if s == Formatted(4, first) && Initial(first) {
      FirstSelect(4, first);
    } else {
      var previous, base :| Inv(s, previous, base);
      var next := if s.io.Writing? then s.io.next else Block(s.current.sequence + 1, s.current.checksum, 0, s.current.state);
      OverwrittenSelect(base, previous, s.current, next, Survived(s, kept));
    }
  }

  lemma AllSettled(b: Block)
    requires b.sequence >= 1
    ensures Inv(State(seq(4, _ => Some(b)), b, Idle), b, seq(4, _ => Some(b)))
  {
  }

  /** Completing a persist leaves settled copies of the new superblock, with one of the old. */
  lemma PersistSettles(base: seq<Option<Block>>, previous: Block, current: Block, next: Block)
    requires Settled(base, current, previous) && Follows(current, next) && next.checksum != current.checksum
    ensures Settled(Overwritten(base, next, 3), next, current)
  {
    OverwrittenAt(base, next, 3, 0);
    OverwrittenAt(base, next, 3, 1);
    OverwrittenAt(base, next, 3, 2);
    OverwrittenAt(base, next, 3, 3);
    assert Place(4, next, 3) == Place(4, current, 0);
    assert base[Place(4, current, 0)] == Some(current);
  }

  lemma StepSafe(s: State, first: Block, step: Step)
    requires Safe(s, first) && Enabled(4, s, step)
    ensures Safe(Apply(4, s, step), first)
    ensures var q := Apply(4, s, step); q.current == s.current || Follows(s.current, q.current)
  {
    hide IsSelection, Unmixed, Readable, Overwritten, Settled;
    if step.Reopen? {
      SafeSelect(s, first, step.kept);
      SelectionUnique(Readable(Platter(s, step.kept)), 4, Ok(step.selected), Ok(Expected(s, step.kept)));
      assert Expected(s, step.kept).sequence >= 1;
      AllSettled(step.selected);
    } else {
      var previous, base :| Inv(s, previous, base);
      match step
      case Begin(next) =>
        NextIsNew(s, previous, base, next);
        assert Inv(Apply(4, s, step), previous, base) by { OverwrittenNone(base, next); }
      case Write => assert Inv(Apply(4, s, step), previous, base);
      case Sync =>
        SyncInv(s, previous, base);
    }
  }

  lemma OverwrittenNone(base: seq<Option<Block>>, next: Block)
    requires |base| == 4
    ensures Overwritten(base, next, 0) == base
  {
  }

  lemma NextIsNew(s: State, previous: Block, base: seq<Option<Block>>, next: Block)
    requires Inv(s, previous, base) && s.io.Idle? && Acceptable(s, next)
    ensures |base| == 4 && next.checksum != s.current.checksum
  {
    assert s.copies[Place(4, s.current, 0)] == Some(s.current);
  }

  lemma SyncInv(s: State, previous: Block, base: seq<Option<Block>>)
    requires Inv(s, previous, base) && Enabled(4, s, Sync)
    ensures exists p, b :: Inv(Apply(4, s, Sync), p, b)
  {
    hide Settled;
    var q := Apply(4, s, Sync);
    assert |base| == 4 by { LastPlace(base, previous, s.current); }
    assert q.copies == Overwritten(base, s.io.next, s.io.step + 1);
    if s.io.step + 1 < 3 {
      assert Inv(q, previous, base);
    } else {
      PersistSettles(base, previous, s.current, s.io.next);
      assert Inv(q, s.current, q.copies);
    }
  }

  /** From one state of a run to a later one the superblock in force only advances. */
  predicate Advances(b: Block, c: Block) {
    b == c || (b.sequence < c.sequence && !Regressed(b.state, c.state))
  }

  lemma {:induction false} RunSafe(first: Block, s: State, steps: seq<Step>, q: State)
    requires Safe(s, first) && Run(4, s, steps, q)
    ensures Safe(q, first) && Advances(s.current, q.current)
    decreases |steps|
  {
    hide Enabled, Apply, Safe;
    if steps != [] {
      StepSafe(s, first, steps[0]);
      RunSafe(first, Apply(4, s, steps[0]), steps[1..], q);
    }
  }

  /**
    With four copies, whatever run of persists, crashes and reopenings led to
    `s`, a crash there leaves copies from which opening selects the old
    superblock if fewer than two new copies were written and the new one
    otherwise, and never fails; and along the rest of the run the superblock in
    force never goes back.
   */
  lemma FourCopiesSafe(first: Block, before: seq<Step>, s: State, after: seq<Step>, q: State, kept: bool, r: Result)
    requires Initial(first) && Run(4, Formatted(4, first), before, s) && Run(4, s, after, q)
    requires IsSelection(Readable(Platter(s, kept)), 4, r)
    ensures r == Ok(if s.io.Writing? && s.io.step + (if s.io.written && kept then 1 else 0) >= 2 then s.io.next else s.current)
    ensures s.current == q.current || s.current.sequence < q.current.sequence
    ensures s.current.state.checkpoint <= q.current.state.checkpoint && s.current.state.commitMax <= q.current.state.commitMax
    ensures s.current.state.logView <= q.current.state.logView && s.current.state.view <= q.current.state.view
  {
    hide Safe, IsSelection, Unmixed, Readable;
    assert Safe(Formatted(4, first), first) by { FormattedSafe(first); }
    RunSafe(first, Formatted(4, first), before, s);
    RunSafe(first, s, after, q);
    SafeSelect(s, first, kept);
    SelectionUnique(Readable(Platter(s, kept)), 4, r, Ok(Expected(s, kept)));
  }

  /** Formatting that was cut short is reported as such, whatever copies of the first superblock it left. */
  lemma CutFormatRefused(n: nat, first: Block, cs: seq<Block>, r: Result)
    requires n in {4, 6, 8} && first.sequence == 1 && first.parent == ZERO_CHECKSUM
    requires 0 < |cs| <= n && forall i :: 0 <= i < |cs| ==> cs[i] == first
    requires IsSelection(cs, n, r)
    ensures r == if |cs| <= n / 2 then Err(Incomplete) else Ok(first)
  {
    CountUniform(cs, |cs|, first);
    KinLinked(cs, first, first, first);
    hide Forked, Linked;
    assert cs[0] == first;
  }

  lemma FormattedSafe(first: Block)
    requires Initial(first)
    ensures Safe(Formatted(4, first), first)
  {
  }

  // ---- six and eight copies --------------------------------------------------------------------

  ghost predicate CanOpen(n: nat, s: State, kept: bool) {
    exists b :: IsSelection(Readable(Platter(s, kept)), n, Ok(b))
  }

  ghost predicate Reachable(n: nat, s: State) {
    exists first: Block, steps: seq<Step> :: Initial(first) && Run(n, Formatted(n, first), steps, s)
  }

  /** Whatever the run and the crash, there is a superblock to open. */
  ghost predicate NeverStuck(n: nat) {
    forall s: State, kept: bool :: Reachable(n, s) ==> CanOpen(n, s, kept)
  }

  lemma {:induction false} Extend(n: nat, s: State, steps: seq<Step>, t: State, step: Step)
    requires Run(n, s, steps, t) && Enabled(n, t, step)
    ensures Run(n, s, steps + [step], Apply(n, t, step))
    decreases |steps|
  {
    hide Enabled, Apply;
    if steps == [] {
      assert (steps + [step])[1..] == [];
    } else {
      assert (steps + [step])[1..] == steps[1..] + [step];
      Extend(n, Apply(n, s, steps[0]), steps[1..], t, step);
    }
  }

  /** A persist of `next` cut short after `k` copies, or carried through. */
  lemma {:induction false} PersistCopies(n: nat, s: State, steps: seq<Step>, t: State, next: Block, k: nat)
    returns (longer: seq<Step>, u: State)
    requires n in {4, 6, 8} && Run(n, s, steps, t) && Enabled(n, t, Begin(next)) && k <= WriteCopies(n)
    ensures Run(n, s, longer, u) && u.copies == Overwritten(t.copies, next, k)
    ensures if k < WriteCopies(n) then u.current == t.current && u.io == Writing(next, k, false)
            else u.current == next && u.io == Idle
    decreases k
  {
    hide Run, IsSelection;
    if k == 0 {
      Extend(n, s, steps, t, Begin(next));
      longer, u := steps + [Begin(next)], Apply(n, t, Begin(next));
    } else {
      longer, u := PersistCopies(n, s, steps, t, next, k - 1);
      Extend(n, s, longer, u, Write);
      longer, u := longer + [Write], Apply(n, u, Write);
      Extend(n, s, longer, u, Sync);
      longer, u := longer + [Sync], Apply(n, u, Sync);
    }
  }

  const NOTHING := Durable(0, 0, 0, 0)
  const FIRST := Block(1, ZERO_CHECKSUM, 1, NOTHING)
  const SECOND := Block(2, 1, 2, NOTHING)
  const THIRD := Block(3, 2, 3, NOTHING)

  /** Open, persist one superblock, and stop after two copies of the next. */
  lemma TwoCopiesIn(n: nat) returns (steps: seq<Step>, s: State)
    requires n in {6, 8}
    ensures Run(n, Formatted(n, FIRST), steps, s) && s.io == Writing(THIRD, 2, false)
    ensures s.copies == Overwritten(Overwritten(seq(n, _ => Some(FIRST)), SECOND, WriteCopies(n)), THIRD, 2)
  {
    hide IsSelection, Run, Overwritten;
    var z := Formatted(n, FIRST);
    FirstSelect(n, FIRST);
    assert Run(n, z, [], z) by { NoSteps(n, z); }
    assert Platter(z, false) == z.copies;
    Extend(n, z, [], z, Reopen(false, FIRST));
    steps, s := [] + [Reopen(false, FIRST)], Apply(n, z, Reopen(false, FIRST));
    steps, s := PersistCopies(n, z, steps, s, SECOND, WriteCopies(n));
    OverwrittenMember(seq(n, _ => Some(FIRST)), SECOND, WriteCopies(n));
    steps, s := PersistCopies(n, z, steps, s, THIRD, 2);
  }

  lemma NoSteps(n: nat, s: State)
    ensures Run(n, s, [], s)
  {
  }

  lemma {:induction false} OverwrittenMember(copies: seq<Option<Block>>, next: Block, k: nat)
    requires |copies| > 0
    ensures forall i :: 0 <= i < |copies| ==> Overwritten(copies, next, k)[i] in {copies[i], Some(next)}
  {
    if k > 0 { OverwrittenMember(copies, next, k - 1); }
  }

  lemma SixCopies()
    ensures var all := seq(6, _ => Some(FIRST));
      Overwritten(Overwritten(all, SECOND, 4), THIRD, 2) ==
        [Some(FIRST), Some(FIRST), Some(SECOND), Some(THIRD), Some(THIRD), Some(SECOND)]
  {
    var all := seq(6, _ => Some(FIRST));
    var half := Overwritten(all, SECOND, 4);
    assert all == [Some(FIRST), Some(FIRST), Some(FIRST), Some(FIRST), Some(FIRST), Some(FIRST)];
    assert Overwritten(all, SECOND, 1) ==
      [Some(FIRST), Some(FIRST), Some(SECOND), Some(FIRST), Some(FIRST), Some(FIRST)];
    assert Overwritten(all, SECOND, 2) ==
      [Some(FIRST), Some(FIRST), Some(SECOND), Some(SECOND), Some(FIRST), Some(FIRST)];
    assert Overwritten(all, SECOND, 3) ==
      [Some(FIRST), Some(FIRST), Some(SECOND), Some(SECOND), Some(SECOND), Some(FIRST)];
    assert Overwritten(all, SECOND, 4) ==
      [Some(FIRST), Some(FIRST), Some(SECOND), Some(SECOND), Some(SECOND), Some(SECOND)];
    assert Overwritten(half, THIRD, 1) ==
      [Some(FIRST), Some(FIRST), Some(SECOND), Some(THIRD), Some(SECOND), Some(SECOND)];
    assert Overwritten(half, THIRD, 2) ==
      [Some(FIRST), Some(FIRST), Some(SECOND), Some(THIRD), Some(THIRD), Some(SECOND)];
  }

  lemma EightCopies()
    ensures var all := seq(8, _ => Some(FIRST));
      Overwritten(Overwritten(all, SECOND, 5), THIRD, 2) ==
        [Some(FIRST), Some(FIRST), Some(SECOND), Some(THIRD), Some(THIRD), Some(SECOND), Some(SECOND), Some(FIRST)]
  {
    var all := seq(8, _ => Some(FIRST));
    var half := Overwritten(all, SECOND, 5);
    assert all == [Some(FIRST), Some(FIRST), Some(FIRST), Some(FIRST), Some(FIRST), Some(FIRST), Some(FIRST), Some(FIRST)];
    assert Overwritten(all, SECOND, 1) ==
      [Some(FIRST), Some(FIRST), Some(SECOND), Some(FIRST), Some(FIRST), Some(FIRST), Some(FIRST), Some(FIRST)];
    assert Overwritten(all, SECOND, 2) ==
      [Some(FIRST), Some(FIRST), Some(SECOND), Some(SECOND), Some(FIRST), Some(FIRST), Some(FIRST), Some(FIRST)];
    assert Overwritten(all, SECOND, 3) ==
      [Some(FIRST), Some(FIRST), Some(SECOND), Some(SECOND), Some(SECOND), Some(FIRST), Some(FIRST), Some(FIRST)];
    assert Overwritten(all, SECOND, 4) ==
      [Some(FIRST), Some(FIRST), Some(SECOND), Some(SECOND), Some(SECOND), Some(SECOND), Some(FIRST), Some(FIRST)];
    assert Overwritten(all, SECOND, 5) ==
      [Some(FIRST), Some(FIRST), Some(SECOND), Some(SECOND), Some(SECOND), Some(SECOND), Some(SECOND), Some(FIRST)];
    assert Overwritten(half, THIRD, 1) ==
      [Some(FIRST), Some(FIRST), Some(SECOND), Some(THIRD), Some(SECOND), Some(SECOND), Some(SECOND), Some(FIRST)];
    assert Overwritten(half, THIRD, 2) ==
      [Some(FIRST), Some(FIRST), Some(SECOND), Some(THIRD), Some(THIRD), Some(SECOND), Some(SECOND), Some(FIRST)];
  }

  lemma OkQualified(cs: seq<Block>, n: nat, b: Block)
    requires IsSelection(cs, n, Ok(b))
    ensures b in cs && Qualified(cs, b, n)
  {
    hide Forked, Linked, Qualified;
  }

  lemma SixStuck(cs: seq<Block>)
    requires cs == [FIRST, FIRST, SECOND, THIRD, THIRD, SECOND]
    ensures forall b :: !IsSelection(cs, 6, Ok(b))
  {
    hide IsSelection;
    forall k | k in {1, 2, 3}
      ensures Count(cs, k) == 2
    {
      assert CountUpTo(cs, 1, k) == if k == 1 then 1 else if k == 2 then 0 else 0;
      assert CountUpTo(cs, 2, k) == if k == 1 then 2 else if k == 2 then 0 else 0;
      assert CountUpTo(cs, 3, k) == if k == 1 then 2 else if k == 2 then 1 else 0;
      assert CountUpTo(cs, 4, k) == if k == 1 then 2 else if k == 2 then 1 else 1;
      assert CountUpTo(cs, 5, k) == if k == 1 then 2 else if k == 2 then 1 else 2;
    }
    forall b | IsSelection(cs, 6, Ok(b))
      ensures false
    {
      OkQualified(cs, 6, b);
    }
  }

  lemma EightStuck(cs: seq<Block>)
    requires cs == [FIRST, FIRST, SECOND, THIRD, THIRD, SECOND, SECOND, FIRST]
    ensures forall b :: !IsSelection(cs, 8, Ok(b))
  {
    hide IsSelection;
    forall k | k in {1, 2, 3}
      ensures Count(cs, k) <= 3
    {
      assert CountUpTo(cs, 1, k) == if k == 1 then 1 else if k == 2 then 0 else 0;
      assert CountUpTo(cs, 2, k) == if k == 1 then 2 else if k == 2 then 0 else 0;
      assert CountUpTo(cs, 3, k) == if k == 1 then 2 else if k == 2 then 1 else 0;
      assert CountUpTo(cs, 4, k) == if k == 1 then 2 else if k == 2 then 1 else 1;
      assert CountUpTo(cs, 5, k) == if k == 1 then 2 else if k == 2 then 1 else 2;
      assert CountUpTo(cs, 6, k) == if k == 1 then 2 else if k == 2 then 2 else 2;
      assert CountUpTo(cs, 7, k) == if k == 1 then 2 else if k == 2 then 3 else 2;
    }
    forall b | IsSelection(cs, 8, Ok(b))
      ensures false
    {
      OkQualified(cs, 8, b);
    }
  }

  lemma FourNeverStuck()
    ensures NeverStuck(4)
  {
    hide IsSelection, Readable, Safe;
    forall s: State, kept: bool | Reachable(4, s)
      ensures CanOpen(4, s, kept)
    {
      var first, steps :| Initial(first) && Run(4, Formatted(4, first), steps, s);
      FormattedSafe(first);
      RunSafe(first, Formatted(4, first), steps, s);
      SafeSelect(s, first, kept);
    }
  }

  /** Of the three supported numbers of copies, four is the one that always leaves a superblock to open. */
  lemma OnlyFourCopiesNeverStick(n: nat)
    requires n in {4, 6, 8}
    ensures NeverStuck(n) <==> n == 4
  {
    hide IsSelection, Readable, Run, Overwritten;
    if n == 4 {
      FourNeverStuck();
    } else {
      var steps, s := TwoCopiesIn(n);
      if n == 6 { SixCopies(); } else { EightCopies(); }
      ReadableAll(s.copies);
      var cs := Readable(Platter(s, false));
      if n == 6 {
        assert cs == [FIRST, FIRST, SECOND, THIRD, THIRD, SECOND];
        SixStuck(cs);
      } else {
        assert cs == [FIRST, FIRST, SECOND, THIRD, THIRD, SECOND, SECOND, FIRST];
        EightStuck(cs);
      }
      assert Reachable(n, s) by { assert Initial(FIRST) && Run(n, Formatted(n, FIRST), steps, s); }
      assert !CanOpen(n, s, false);
    }
  }

  // ---- the store itself -------------------------------------------------------------------------

  /** The reading loop of `OpenSuperblockStore`. */
  method ReadCopies(copies: seq<Option<Block>>) returns (cs: seq<Block>)
    ensures cs == Readable(copies)
  {
    cs := [];
    for index := 0 to |copies|
      invariant cs == Readable(copies[..index])
    {
      assert copies[..index + 1][..index] == copies[..index];
      if copies[index].Some? {
        cs := cs + [copies[index].value];
      }
    }
    assert copies[..|copies|] == copies;
  }

  lemma {:induction false} ReadableMember(copies: seq<Option<Block>>, i: nat)
    requires i < |copies| && copies[i].Some?
    ensures copies[i].value in Readable(copies)
  {
    if i < |copies| - 1 {
      assert copies[..|copies| - 1][i] == copies[i];
      ReadableMember(copies[..|copies| - 1], i);
    }
  }

  /** `repairCopies`: every copy that is not already the selected superblock is rewritten and synced. */
  method RepairCopies(copies: seq<Option<Block>>, selected: Block) returns (repaired: seq<Option<Block>>)
    requires Honest(Readable(copies)) && selected in Readable(copies)
    ensures repaired == seq(|copies|, _ => Some(selected))
  {
    repaired := copies;
    for index := 0 to |copies|
      invariant |repaired| == |copies|
      invariant forall i :: 0 <= i < index ==> repaired[i] == Some(selected)
      invariant forall i :: index <= i < |copies| ==> repaired[i] == copies[i]
    {
      if repaired[index].Some? && repaired[index].value.checksum == selected.checksum {
        ReadableMember(copies, index);
      } else {
        repaired := repaired[index := Some(selected)];
      }
    }
  }

  /** `OpenSuperblockStore` on the copies a crash left. */
  method Open(copies: seq<Option<Block>>) returns (r: Result, repaired: seq<Option<Block>>)
    requires Honest(Readable(copies))
    ensures IsSelection(Readable(copies), |copies|, r)
    ensures repaired == if r.Ok? then seq(|copies|, _ => Some(r.block)) else copies
  {
    hide Honest;
    var cs := ReadCopies(copies);
    r := Select(cs, |copies|);
    repaired := copies;
    if r.Ok? {
      OkQualified(cs, |copies|, r.block);
      repaired := RepairCopies(copies, r.block);
    }
  }

  class Store {
    const n: nat
    var copies: seq<Option<Block>>
    var current: Block
    var sequence: Io

    ghost function AsState(): (s: State)
      reads this
    {
      State(copies, current, sequence)
    }

    constructor (copies: seq<Option<Block>>, selected: Block)
      requires |copies| in {4, 6, 8}
      ensures n == |copies| && AsState() == State(copies, selected, Idle)
    {
      this.n := |copies|;
      this.copies := copies;
      current := selected;
      sequence := Idle;
    }

    /** `beginPersist`: accepted only when idle and when `next` extends the current superblock without regressing. */
    method BeginPersist(next: Block) returns (ok: bool)
      requires n in {4, 6, 8} && |copies| == n && !sequence.Closed?
      modifies this
      ensures ok <==>
        && old(sequence.Idle?) && next.sequence == old(current.sequence) + 1 && next.parent == old(current.checksum)
        && old(current.state.checkpoint) <= next.state.checkpoint && old(current.state.commitMax) <= next.state.commitMax
        && old(current.state.logView) <= next.state.logView && old(current.state.view) <= next.state.view
      ensures AsState() == if ok then old(AsState()).(io := Writing(next, 0, false)) else old(AsState())
      ensures old(Enabled(n, AsState(), Begin(next))) ==> ok && AsState() == Apply(n, old(AsState()), Begin(next))
    {
      if sequence.Writing? {
        return false;
      }
      if next.sequence != current.sequence + 1 || next.parent != current.checksum || Regressed(current.state, next.state) {
        return false;
      }
      sequence := Writing(next, 0, false);
      return true;
    }

    /** `advancePersist`: the next write, or the sync that follows it and the choice of the next place. */
    method AdvancePersist()
      requires n in {4, 6, 8} && |copies| == n && sequence.Writing? && sequence.step < WriteCopies(n)
      modifies this
      ensures AsState() == Apply(n, old(AsState()), if old(sequence.written) then Sync else Write)
    {
      if !sequence.written {
        sequence := sequence.(written := true);
        return;
      }
      copies := copies[Place(n, sequence.next, sequence.step) := Some(sequence.next)];
      var step := sequence.step + 1;
      if step < WriteCopies(n) {
        sequence := Writing(sequence.next, step, false);
      } else {
        current := sequence.next;
        sequence := Idle;
      }
    }

    /** `Persist`: the whole sequence, uninterrupted. */
    method Persist(next: Block) returns (ok: bool)
      requires n in {4, 6, 8} && |copies| == n && !sequence.Closed?
      modifies this
      ensures ok <==>
        && old(sequence.Idle?) && next.sequence == old(current.sequence) + 1 && next.parent == old(current.checksum)
        && old(current.state.checkpoint) <= next.state.checkpoint && old(current.state.commitMax) <= next.state.commitMax
        && old(current.state.logView) <= next.state.logView && old(current.state.view) <= next.state.view
      ensures ok ==> AsState() == State(Overwritten(old(copies), next, WriteCopies(n)), next, Idle)
      ensures !ok ==> AsState() == old(AsState())
    {
      ok := BeginPersist(next);
      if ok {
        while sequence.Writing?
          invariant |copies| == n
          invariant sequence.Writing? ==>
            && sequence.next == next && sequence.step < WriteCopies(n) && current == old(current)
            && copies == Overwritten(old(copies), next, sequence.step)
          invariant !sequence.Writing? ==> AsState() == State(Overwritten(old(copies), next, WriteCopies(n)), next, Idle)
          decreases if sequence.Writing? then 2 * (WriteCopies(n) - sequence.step) + (if sequence.written then 0 else 1) else 0
        {
          AdvancePersist();
        }
      }
    }
  }
}
