/**
  The frame pool of replication/protocol/frame_pool.go: a lock-free free list
  whose head carries a tag, and reference-counted frames, one atomic access at
  a time in any interleaving of any number of threads.  Tags are unbounded.
 */
module FramePool {
  import opened Blocks

  const REFS_MAX := 0x7fff_ffff

  /** `index` is a frame number plus one; zero is the end of the list. */
  datatype Head = Head(tag: nat, index: nat)

  datatype Thread =
    | Resting
    | Popping
    | PopLoaded(head: Head)
    | PopFollowed(head: Head, next: nat)
    | Popped(frame: nat)
    | Pushing(frame: nat)
    | PushLoaded(frame: nat, head: Head)
    | PushLinked(frame: nat, head: Head)
    | Retaining(frame: nat)
    | RetainLoaded(frame: nat, seen: int)

  /** `free` is the list as a sequence and `held` the references callers own; the code has neither. */
  datatype State = State(
    head: Head, next: seq<nat>, refs: seq<int>, threads: seq<Thread>,
    free: seq<nat>, held: seq<nat>)

  datatype Step =
    | Acquire(i: nat)
    | Release(i: nat, frame: nat)
    | Retain(i: nat, frame: nat)
    | Advance(i: nat)

  function Frames(s: State): (n: nat) { |s.next| }

  function New(count: nat, threads: nat): (s: State)
    requires count > 0
  {
    State(Head(0, 1), seq(count, i => if i + 1 < count then i + 2 else 0), seq(count, _ => 0), seq(threads, _ => Resting),
          seq(count, i => i), seq(count, _ => 0))
  }

  /** Callers release and retain only frames of which they own a reference. */
  predicate Enabled(s: State, step: Step) {
    step.i < |s.threads| && |s.refs| == |s.held| == Frames(s) &&
    var t := s.threads[step.i];
    match step
    case Acquire(_) => t.Resting?
    case Release(_, f) => t.Resting? && f < Frames(s) && s.held[f] > 0
    case Retain(_, f) => t.Resting? && f < Frames(s) && s.held[f] > 0
    case Advance(_) =>
      && !t.Resting?
      && (t.PopLoaded? ==> 1 <= t.head.index <= Frames(s))
      && (t.Popped? || t.Pushing? || t.PushLoaded? || t.PushLinked? || t.Retaining? || t.RetainLoaded? ==> t.frame < Frames(s))
  }

  function Put(s: State, i: nat, t: Thread): (q: State)
    requires i < |s.threads|
  {
    s.(threads := s.threads[i := t])
  }

  function Advanced(s: State, i: nat): (q: State)
    requires Enabled(s, Advance(i))
  {
    var t := s.threads[i];
    match t
    case Resting => s
    case Popping => Put(s, i, if s.head.index == 0 then Resting else PopLoaded(s.head))
    case PopLoaded(h) => Put(s, i, PopFollowed(h, s.next[h.index - 1]))
    case PopFollowed(h, n) =>
      if s.head == h && h.index > 0 then
        Put(s, i, Popped(h.index - 1)).(head := Head(h.tag + 1, n), free := if s.free == [] then [] else s.free[1..])
      else Put(s, i, Popping)
    case Popped(f) => Put(s, i, Resting).(refs := s.refs[f := 1], held := s.held[f := 1])
    case Pushing(f) => Put(s, i, PushLoaded(f, s.head))
    case PushLoaded(f, h) => Put(s, i, PushLinked(f, h)).(next := s.next[f := h.index])
    case PushLinked(f, h) =>
      if s.head == h then Put(s, i, Resting).(head := Head(h.tag + 1, f + 1), free := [f] + s.free)
      else Put(s, i, Pushing(f))
    case Retaining(f) => Put(s, i, RetainLoaded(f, s.refs[f]))
    case RetainLoaded(f, seen) =>
      if seen <= 0 || seen == REFS_MAX then Put(s, i, Resting)
      else if s.refs[f] == seen then Put(s, i, Resting).(refs := s.refs[f := seen + 1], held := s.held[f := s.held[f] + 1])
      else Put(s, i, Retaining(f))
  }

  function Apply(s: State, step: Step): (q: State)
    requires Enabled(s, step)
  {
    match step
    case Acquire(i) => Put(s, i, Popping)
    case Release(i, f) =>
      var remaining := s.refs[f] - 1;
      Put(s, i, if remaining == 0 then Pushing(f) else Resting).(refs := s.refs[f := remaining], held := s.held[f := s.held[f] - 1])
    case Retain(i, f) => Put(s, i, Retaining(f))
    case Advance(i) => Advanced(s, i)
  }

  ghost predicate Run(s: State, steps: seq<Step>, q: State)
    decreases |steps|
  {
    if steps == [] then s == q
    else Enabled(s, steps[0]) && Run(Apply(s, steps[0]), steps[1..], q)
  }

  // ---- the invariant ------------------------------------------------------------------------------

  function Link(list: seq<nat>, k: nat): (index: nat) {
    if k < |list| then list[k] + 1 else 0
  }

  /** The head and the links spell out `free`. */
  predicate Listed(s: State) {
    && s.head.index == Link(s.free, 0) && Distinct(s.free)
    && (forall k :: 0 <= k < |s.free| ==> s.free[k] < Frames(s) && s.next[s.free[k]] == Link(s.free, k + 1))
  }

  /** Thread `i` has taken `f` off the list, or has yet to put it back. */
  predicate Carries(s: State, i: nat, f: nat) {
    i < |s.threads| && (s.threads[i].Popped? || s.threads[i].Pushing? || s.threads[i].PushLoaded? || s.threads[i].PushLinked?)
    && s.threads[i].frame == f
  }

  predicate Unowned(s: State, f: nat) {
    f < |s.refs| && f < |s.held| && s.refs[f] == 0 && s.held[f] == 0
  }

  /** A head that a thread remembers is out of date, or still says what it said. */
  predicate Remembers(s: State, h: Head) {
    h.tag <= s.head.tag && (h.tag == s.head.tag ==> h.index == s.head.index)
  }

  predicate ThreadOk(s: State, i: nat) {
    i < |s.threads| && |s.refs| == |s.held| == Frames(s) &&
    match s.threads[i]
    case PopLoaded(h) => 1 <= h.index <= Frames(s) && Remembers(s, h)
    case PopFollowed(h, n) => 1 <= h.index <= Frames(s) && Remembers(s, h) && (h.tag == s.head.tag ==> n == s.next[h.index - 1])
    case PushLoaded(f, h) => f < Frames(s) && Remembers(s, h)
    case PushLinked(f, h) => f < Frames(s) && Remembers(s, h) && s.next[f] == h.index
    case Popped(f) => f < Frames(s)
    case Pushing(f) => f < Frames(s)
    case Retaining(f) => f < Frames(s)
    case RetainLoaded(f, _) => f < Frames(s)
    case _ => true
  }

  /** Every frame is in exactly one place: the list, some callers' hands, or one thread's. */
  ghost predicate Placed(s: State, f: nat) {
    && f < |s.refs| == |s.held| && s.refs[f] == s.held[f]
    && (f in s.free ==> Unowned(s, f) && forall i: nat :: !Carries(s, i, f))
    && (forall i: nat :: Carries(s, i, f) ==> Unowned(s, f))
    && (forall i: nat, j: nat :: Carries(s, i, f) && Carries(s, j, f) ==> i == j)
    && (f in s.free || s.held[f] > 0 || exists i: nat :: Carries(s, i, f))
  }

  ghost predicate Inv(s: State) {
    && |s.refs| == |s.held| == Frames(s) && Listed(s)
    && (forall i :: 0 <= i < |s.threads| ==> ThreadOk(s, i))
    && (forall f :: 0 <= f < Frames(s) ==> Placed(s, f))
  }

  // ---- every step keeps it ---------------------------------------------------------------------------

  predicate Carrying(t: Thread) {
    t.Popped? || t.Pushing? || t.PushLoaded? || t.PushLinked?
  }

  /** A thread moves without changing shared memory or the frame it carries. */
  lemma LocalMove(s: State, i: nat, t: Thread)
    requires Inv(s) && i < |s.threads| && ThreadOk(Put(s, i, t), i)
    requires Carrying(t) == Carrying(s.threads[i]) && (Carrying(t) ==> t.frame == s.threads[i].frame)
    ensures Inv(Put(s, i, t))
  {
    hide Distinct, Remembers, Placed;
    var q := Put(s, i, t);
    forall j | 0 <= j < |q.threads|
      ensures ThreadOk(q, j)
    {
      if j != i { CountsMove(s, q, j); }
    }
    forall f | 0 <= f < Frames(q)
      ensures Placed(q, f)
    {
      assert Placed(s, f);
      PlacedStays(s, q, f);
    }
  }

  /** What another thread remembers stays true when only the head moves on. */
  lemma HeadMoves(s: State, q: State, j: nat)
    requires ThreadOk(s, j) && j < |q.threads| && q.threads[j] == s.threads[j]
    requires q.next == s.next && |q.refs| == |s.refs| && |q.held| == |s.held| && q.head.tag > s.head.tag
    ensures ThreadOk(q, j)
  {
  }

  /** Reference counts do not matter to what a thread remembers. */
  lemma CountsMove(s: State, q: State, j: nat)
    requires ThreadOk(s, j) && j < |q.threads| && q.threads[j] == s.threads[j]
    requires q.next == s.next && |q.refs| == |s.refs| && |q.held| == |s.held| && q.head == s.head
    ensures ThreadOk(q, j)
  {
  }

  /** The carriers of `f` are the same but for thread `i`, which carries it afterwards exactly if `now`. */
  ghost predicate Moves(s: State, q: State, i: nat, f: nat, now: bool) {
    forall j: nat :: Carries(q, j, f) <==> if j == i then now else Carries(s, j, f)
  }

  lemma PopListed(s: State, q: State)
    requires Listed(s) && s.free != [] && q.free == s.free[1..] && q.next == s.next && q.head.index == s.next[s.free[0]]
    ensures Listed(q) && forall f: nat :: f in q.free <==> f in s.free && f != s.free[0]
  {
    assert forall k :: 0 <= k < |q.free| ==> q.free[k] == s.free[k + 1];
    forall f: nat
      ensures f in q.free <==> f in s.free && f != s.free[0]
    {
      if f in s.free && f != s.free[0] {
        var k :| 0 <= k < |s.free| && s.free[k] == f;
        assert q.free[k - 1] == f;
      }
    }
  }

  lemma PlacedMoves(s: State, q: State, i: nat, f: nat, now: bool)
    requires Placed(s, f) && Moves(s, q, i, f, now) && !Carries(s, i, f) && q.refs == s.refs && q.held == s.held
    requires f in q.free <==> f in s.free && !now
    requires now ==> f in s.free
    ensures Placed(q, f)
  {
    if now { assert Carries(q, i, f); }
    if j: nat :| Carries(s, j, f) { assert Carries(q, j, f); }
  }

  lemma PopKeeps(s: State, i: nat)
    requires Inv(s) && i < |s.threads| && s.threads[i].PopFollowed? && s.threads[i].head == s.head
    ensures Enabled(s, Advance(i)) && s.free != [] && Inv(Advanced(s, i))
    ensures Advanced(s, i).threads[i] == Popped(s.free[0])
  {
    hide Placed, Distinct;
    assert ThreadOk(s, i);
    var q := Advanced(s, i);
    var f0 := s.head.index - 1;
    assert s.free[0] == f0;
    PopListed(s, q);
    forall j | 0 <= j < |q.threads|
      ensures ThreadOk(q, j)
    {
      if j != i { HeadMoves(s, q, j); }
    }
    forall f | 0 <= f < Frames(q)
      ensures Placed(q, f)
    {
      assert Placed(s, f);
      PlacedMoves(s, q, i, f, f == f0);
    }
  }

  lemma OwnKeeps(s: State, i: nat)
    requires Inv(s) && i < |s.threads| && s.threads[i].Popped?
    ensures Enabled(s, Advance(i)) && Inv(Advanced(s, i))
  {
    assert ThreadOk(s, i);
    var q := Advanced(s, i);
    var f0 := s.threads[i].frame;
    assert Carries(s, i, f0) && Placed(s, f0);
    assert forall j: nat, f: nat :: Carries(q, j, f) <==> Carries(s, j, f) && j != i;
    forall j | 0 <= j < |q.threads|
      ensures ThreadOk(q, j)
    {
      if j != i { CountsMove(s, q, j); }
    }
    forall f | 0 <= f < Frames(q)
      ensures Placed(q, f)
    {
      assert Placed(s, f);
    }
  }

  /** A count goes down by one; at zero the frame is carried back. */
  lemma PlacedReleases(s: State, q: State, i: nat, f: nat, f0: nat)
    requires Placed(s, f) && Placed(s, f0) && f0 < |s.held| && s.held[f0] > 0 && !Carries(s, i, f)
    requires q.refs == s.refs[f0 := s.refs[f0] - 1] && q.held == s.held[f0 := s.held[f0] - 1] && q.free == s.free
    requires Moves(s, q, i, f, f == f0 && s.held[f0] == 1)
    ensures Placed(q, f)
  {
    if f == f0 && s.held[f0] == 1 { assert Carries(q, i, f); }
    if j: nat :| Carries(s, j, f) { assert Carries(q, j, f); }
  }

  lemma ReleaseKeeps(s: State, i: nat, f0: nat)
    requires Inv(s) && Enabled(s, Release(i, f0))
    ensures Inv(Apply(s, Release(i, f0)))
    ensures var q := Apply(s, Release(i, f0));
      q.refs[f0] >= 0 && (q.threads[i] == Pushing(f0) <==> s.held[f0] == 1)
  {
    hide Distinct, Remembers;
    var q := Apply(s, Release(i, f0));
    assert Placed(s, f0) && ThreadOk(s, i);
    assert s.refs[f0] == s.held[f0];
    hide Placed;
    forall j | 0 <= j < |q.threads|
      ensures ThreadOk(q, j)
    {
      if j != i { CountsMove(s, q, j); }
    }
    forall f | 0 <= f < Frames(q)
      ensures Placed(q, f)
    {
      assert Placed(s, f);
      PlacedReleases(s, q, i, f, f0);
    }
  }

  /** Storing the link of a carried frame touches neither the list nor what others remember. */
  lemma LinkListed(s: State, q: State, f0: nat, link: nat)
    requires Listed(s) && f0 !in s.free && f0 < |s.next| && q.next == s.next[f0 := link] && q.head == s.head && q.free == s.free
    ensures Listed(q)
  {
    forall k | 0 <= k < |q.free|
      ensures q.free[k] < Frames(q) && q.next[q.free[k]] == Link(q.free, k + 1)
    {
      assert s.free[k] in s.free;
    }
  }

  lemma LinkThreads(s: State, q: State, j: nat, f0: nat, link: nat)
    requires ThreadOk(s, j) && j < |q.threads| && q.threads[j] == s.threads[j] && Listed(s) && f0 !in s.free && f0 < |s.next|
    requires q.next == s.next[f0 := link] && q.head == s.head && |q.refs| == |s.refs| && |q.held| == |s.held|
    requires s.threads[j].PushLinked? ==> s.threads[j].frame != f0
    ensures ThreadOk(q, j)
  {
    if s.threads[j].PopFollowed? && s.threads[j].head.tag == s.head.tag {
      assert s.free[0] in s.free;
    }
  }

  lemma PlacedStays(s: State, q: State, f: nat)
    requires Placed(s, f) && q.refs == s.refs && q.held == s.held && q.free == s.free
    requires forall j: nat :: Carries(q, j, f) <==> Carries(s, j, f)
    ensures Placed(q, f)
  {
  }

  lemma LinkKeeps(s: State, i: nat)
    requires Inv(s) && i < |s.threads| && s.threads[i].PushLoaded?
    ensures Enabled(s, Advance(i)) && Inv(Advanced(s, i))
  {
    hide Distinct;
    assert ThreadOk(s, i);
    var q := Advanced(s, i);
    var f0 := s.threads[i].frame;
    assert Carries(s, i, f0) && Placed(s, f0);
    LinkListed(s, q, f0, s.threads[i].head.index);
    forall j | 0 <= j < |q.threads|
      ensures ThreadOk(q, j)
    {
      if j != i {
        assert s.threads[j].PushLinked? ==> Carries(s, j, s.threads[j].frame);
        LinkThreads(s, q, j, f0, s.threads[i].head.index);
      }
    }
    forall f | 0 <= f < Frames(q)
      ensures Placed(q, f)
    {
      assert Placed(s, f);
      PlacedStays(s, q, f);
    }
  }

  lemma PushListed(s: State, q: State, f0: nat)
    requires Listed(s) && f0 !in s.free && f0 < |s.next| && s.next[f0] == s.head.index
    requires q.next == s.next && q.head.index == f0 + 1 && q.free == [f0] + s.free
    ensures Listed(q)
  {
    hide Distinct;
    DistinctPush(s.free, f0);
    forall k | 0 <= k < |q.free|
      ensures q.free[k] < Frames(q) && q.next[q.free[k]] == Link(q.free, k + 1)
    {
      if k > 0 {
        assert q.free[k] == s.free[k - 1];
        assert Link(q.free, k + 1) == Link(s.free, k);
      } else {
        assert Link(q.free, 1) == Link(s.free, 0);
      }
    }
  }

  lemma DistinctPush(list: seq<nat>, f: nat)
    requires Distinct(list) && f !in list
    ensures Distinct([f] + list)
  {
    var q := [f] + list;
    forall a, b | 0 <= a < b < |q|
      ensures q[a] != q[b]
    {
      assert q[b] == list[b - 1];
      if a > 0 { assert q[a] == list[a - 1]; }
    }
  }

  lemma PlacedPushes(s: State, q: State, i: nat, f: nat, f0: nat)
    requires Placed(s, f) && Placed(s, f0) && Carries(s, i, f0) && (f != f0 ==> !Carries(s, i, f))
    requires q.refs == s.refs && q.held == s.held && q.free == [f0] + s.free && Moves(s, q, i, f, false)
    ensures Placed(q, f)
  {
    assert f in q.free <==> f in s.free || f == f0;
    if f != f0 {
      if j: nat :| Carries(s, j, f) { assert Carries(q, j, f); }
    }
  }

  lemma PushKeeps(s: State, i: nat)
    requires Inv(s) && i < |s.threads| && s.threads[i].PushLinked? && s.threads[i].head == s.head
    ensures Enabled(s, Advance(i)) && Inv(Advanced(s, i))
  {
    hide Distinct;
    assert ThreadOk(s, i);
    var q := Advanced(s, i);
    var f0 := s.threads[i].frame;
    assert Carries(s, i, f0) && Placed(s, f0);
    PushListed(s, q, f0);
    hide Placed;
    forall j | 0 <= j < |q.threads|
      ensures ThreadOk(q, j)
    {
      if j != i { HeadMoves(s, q, j); }
    }
    forall f | 0 <= f < Frames(q)
      ensures Placed(q, f)
    {
      assert Placed(s, f);
      PlacedPushes(s, q, i, f, f0);
    }
  }

  lemma PlacedRetains(s: State, q: State, f: nat, f0: nat)
    requires Placed(s, f) && Placed(s, f0) && f0 < |s.held| && s.held[f0] > 0
    requires q.refs == s.refs[f0 := s.refs[f0] + 1] && q.held == s.held[f0 := s.held[f0] + 1] && q.free == s.free
    requires forall j: nat :: Carries(q, j, f) <==> Carries(s, j, f)
    ensures Placed(q, f)
  {
  }

  lemma RetainAdds(s: State, i: nat, f0: nat, q: State)
    requires Inv(s) && i < |s.threads| && s.threads[i].RetainLoaded? && f0 < Frames(s) && s.held[f0] > 0
    requires q == Put(s, i, Resting).(refs := s.refs[f0 := s.refs[f0] + 1], held := s.held[f0 := s.held[f0] + 1])
    ensures Inv(q)
  {
    hide Distinct, Remembers, Placed;
    assert Placed(s, f0);
    forall j | 0 <= j < |q.threads|
      ensures ThreadOk(q, j)
    {
      if j != i { CountsMove(s, q, j); }
    }
    forall f | 0 <= f < Frames(q)
      ensures Placed(q, f)
    {
      assert Placed(s, f);
      PlacedRetains(s, q, f, f0);
    }
  }

  lemma RetainKeeps(s: State, i: nat)
    requires Inv(s) && i < |s.threads| && s.threads[i].RetainLoaded?
    ensures Enabled(s, Advance(i)) && Inv(Advanced(s, i))
  {
    ThreadOf(s, i);
    var q := Advanced(s, i);
    var f0 := s.threads[i].frame;
    assert Placed(s, f0);
    hide Inv, Placed;
    if q.refs == s.refs {
      LocalMove(s, i, q.threads[i]);
    } else {
      RetainAdds(s, i, f0, q);
    }
  }

  lemma ThreadOf(s: State, i: nat)
    requires Inv(s) && i < |s.threads|
    ensures ThreadOk(s, i)
  {
  }

  /** The head names a frame of the pool, or the list is empty. */
  lemma HeadOf(s: State)
    requires Inv(s)
    ensures s.head.index <= Frames(s)
  {
  }

  lemma AdvanceKeeps(s: State, i: nat)
    requires Inv(s) && Enabled(s, Advance(i))
    ensures Inv(Advanced(s, i))
  {
    hide Inv;
    ThreadOf(s, i);
    HeadOf(s);
    match s.threads[i]
    case Resting =>
    case Popping => LocalMove(s, i, Advanced(s, i).threads[i]);
    case PopLoaded(h) => LocalMove(s, i, Advanced(s, i).threads[i]);
    case PopFollowed(h, n) => if s.head == h { PopKeeps(s, i); } else { LocalMove(s, i, Popping); }
    case Popped(f) => OwnKeeps(s, i);
    case Pushing(f) => LocalMove(s, i, PushLoaded(f, s.head));
    case PushLoaded(f, h) => LinkKeeps(s, i);
    case PushLinked(f, h) => if s.head == h { PushKeeps(s, i); } else { LocalMove(s, i, Pushing(f)); }
    case Retaining(f) => LocalMove(s, i, RetainLoaded(f, s.refs[f]));
    case RetainLoaded(f, seen) => RetainKeeps(s, i);
  }

  lemma NewInv(count: nat, threads: nat)
    requires count > 0
    ensures Inv(New(count, threads))
  {
    var s := New(count, threads);
    forall f | 0 <= f < count
      ensures Placed(s, f)
    {
      assert s.free[f] == f;
    }
  }

  lemma {:induction false} RunKeeps(s: State, steps: seq<Step>, q: State)
    requires Inv(s) && Run(s, steps, q)
    ensures Inv(q) && Frames(q) == Frames(s)
    decreases |steps|
  {
    hide Inv, Advanced;
    if steps != [] {
      var t := Apply(s, steps[0]);
      match steps[0] {
        case Acquire(i) =>
          ThreadOf(s, i);
          LocalMove(s, i, Popping);
        case Release(i, f) => ReleaseKeeps(s, i, f);
        case Retain(i, f) =>
          ThreadOf(s, i);
          LocalMove(s, i, Retaining(f));
        case Advance(i) =>
          AdvanceKeeps(s, i);
          AdvanceFrames(s, i);
      }
      RunKeeps(t, steps[1..], q);
    }
  }

  lemma AdvanceFrames(s: State, i: nat)
    requires Enabled(s, Advance(i))
    ensures Frames(Advanced(s, i)) == Frames(s)
  {
  }

  // ---- what it gives -----------------------------------------------------------------------------------

  /** `list` is reached from `index` by following the links. */
  predicate Spells(s: State, index: nat, list: seq<nat>)
    decreases |list|
  {
    if list == [] then index == 0
    else list[0] < |s.next| && index == list[0] + 1 && Spells(s, s.next[list[0]], list[1..])
  }

  lemma {:induction false} ListSpells(s: State, k: nat)
    requires Listed(s) && k <= |s.free|
    ensures Spells(s, Link(s.free, k), s.free[k..])
    decreases |s.free| - k
  {
    if k < |s.free| {
      ListSpells(s, k + 1);
      assert s.free[k..][1..] == s.free[k + 1..];
    }
  }

  /**
    In every interleaving: following the links from the head visits distinct
    frames and ends, so the list has no cycle; a frame on it is owned by nobody
    and carried by no thread; no two threads carry the same frame; the count of
    a frame is the number of references its callers own, so it never goes below
    zero; and no frame is lost.
   */
  lemma PoolSafe(count: nat, threads: nat, steps: seq<Step>, s: State)
    requires count > 0 && Run(New(count, threads), steps, s)
    ensures Spells(s, s.head.index, s.free) && Distinct(s.free) && Frames(s) == count == |s.refs| == |s.held|
    ensures forall k :: 0 <= k < |s.free| ==>
      && s.free[k] < count && s.refs[s.free[k]] == 0
      && s.next[s.free[k]] == if k + 1 < |s.free| then s.free[k + 1] + 1 else 0
    ensures forall f :: 0 <= f < count ==> Placed(s, f)
  {
    NewInv(count, threads);
    RunKeeps(New(count, threads), steps, s);
    ListSpells(s, 0);
    assert s.free[0..] == s.free;
    forall k | 0 <= k < |s.free|
      ensures s.refs[s.free[k]] == 0
    {
      assert s.free[k] in s.free && Placed(s, s.free[k]);
    }
  }

  /** No frame is lost or in two places. */
  lemma NoFrameLost(count: nat, threads: nat, steps: seq<Step>, s: State, f: nat)
    requires count > 0 && Run(New(count, threads), steps, s) && f < count
    ensures f < |s.refs| == |s.held| && s.refs[f] == s.held[f] >= 0
    ensures f in s.free || s.held[f] > 0 || exists i: nat :: Carries(s, i, f)
    ensures !(f in s.free && s.held[f] > 0)
    ensures forall i: nat :: Carries(s, i, f) ==> f !in s.free && s.held[f] == 0
    ensures forall i: nat, j: nat :: Carries(s, i, f) && Carries(s, j, f) ==> i == j
  {
    PoolSafe(count, threads, steps, s);
    assert Placed(s, f);
  }

  /** A frame starts back to the list exactly when the last reference is released, and never twice. */
  lemma ReturnsOnLastRelease(count: nat, threads: nat, steps: seq<Step>, s: State, i: nat, f: nat)
    requires count > 0 && Run(New(count, threads), steps, s) && Enabled(s, Release(i, f))
    ensures var q := Apply(s, Release(i, f));
      && q.refs[f] >= 0 && (Carries(q, i, f) <==> s.held[f] == 1)
      && forall j: nat :: !Carries(s, j, f)
  {
    NewInv(count, threads);
    RunKeeps(New(count, threads), steps, s);
    ReleaseKeeps(s, i, f);
    assert Placed(s, f);
  }

  /** A successful pop takes the frame at the head, which nobody else owns or carries. */
  lemma AcquiredIsUnowned(count: nat, threads: nat, steps: seq<Step>, s: State, i: nat)
    requires count > 0 && Run(New(count, threads), steps, s)
    requires i < |s.threads| && s.threads[i].PopFollowed? && s.threads[i].head == s.head
    ensures Enabled(s, Advance(i)) && s.free != [] && Advanced(s, i).threads[i] == Popped(s.free[0])
    ensures s.free[0] < |s.held| && s.held[s.free[0]] == 0 && forall j: nat :: !Carries(s, j, s.free[0])
  {
    NewInv(count, threads);
    RunKeeps(New(count, threads), steps, s);
    PopKeeps(s, i);
    assert Placed(s, s.free[0]);
  }

  // ---- what one caller gets when nobody interferes ----------------------------------------------------------

  lemma Then(s: State, step: Step, steps: seq<Step>, q: State)
    requires Enabled(s, step) && Run(Apply(s, step), steps, q)
    ensures Run(s, [step] + steps, q)
  {
    assert ([step] + steps)[0] == step && ([step] + steps)[1..] == steps;
  }

  lemma Reachable(count: nat, threads: nat, steps: seq<Step>, s: State)
    requires count > 0 && Run(New(count, threads), steps, s)
    ensures Inv(s) && Frames(s) == count
  {
    NewInv(count, threads);
    RunKeeps(New(count, threads), steps, s);
  }

  /** No thread is ever stuck inside a call, and a caller may give back or share what it owns. */
  lemma NeverStuck(count: nat, threads: nat, steps: seq<Step>, s: State, i: nat, f: nat)
    requires count > 0 && Run(New(count, threads), steps, s) && i < |s.threads|
    ensures Enabled(s, Advance(i)) <==> s.threads[i] != Resting
    ensures Enabled(s, Acquire(i)) <==> s.threads[i] == Resting
    ensures Enabled(s, Release(i, f)) <==> s.threads[i] == Resting && f < count == |s.refs| && s.refs[f] > 0
    ensures Enabled(s, Retain(i, f)) <==> s.threads[i] == Resting && f < count == |s.refs| && s.refs[f] > 0
  {
    Reachable(count, threads, steps, s);
    ThreadOf(s, i);
    if f < count { assert Placed(s, f); }
  }

  function Alone(step: Step, count: nat): (steps: seq<Step>) {
    [step] + seq(count, _ => Advance(step.i))
  }

  lemma RunsAlone(s: State, i: nat, count: nat, q: State)
    requires Enabled(s, Advance(i)) && Run(Advanced(s, i), seq(count, _ => Advance(i)), q)
    ensures Run(s, seq(count + 1, _ => Advance(i)), q)
  {
    Then(s, Advance(i), seq(count, _ => Advance(i)), q);
    assert [Advance(i)] + seq(count, _ => Advance(i)) == seq(count + 1, _ => Advance(i));
  }

  /** The four accesses of a pop that nobody disturbs. */
  lemma PopAlone(s: State, i: nat, f: nat, q: State)
    requires i < |s.threads| && s.threads[i] == Popping && |s.refs| == |s.held| == Frames(s)
    requires f < Frames(s) && s.head.index == f + 1 && s.free != [] && s.free[0] == f
    requires q == Put(s, i, Resting).(head := Head(s.head.tag + 1, s.next[f]), free := s.free[1..],
                                      refs := s.refs[f := 1], held := s.held[f := 1])
    ensures Run(s, seq(4, _ => Advance(i)), q)
  {
    assert Run(q, seq(0, _ => Advance(i)), q);
    hide Run;
    var b := Put(s, i, PopLoaded(s.head));
    var c := Put(b, i, PopFollowed(s.head, s.next[f]));
    var d := Put(c, i, Popped(f)).(head := q.head, free := q.free);
    assert Advanced(s, i) == b && Advanced(b, i) == c && Advanced(c, i) == d;
    assert Advanced(d, i) == q;
    RunsAlone(d, i, 0, q);
    RunsAlone(c, i, 1, q);
    RunsAlone(b, i, 2, q);
    RunsAlone(s, i, 3, q);
  }

  /** The first free frame is one of the pool's. */
  lemma FirstFree(s: State)
    requires Inv(s)
    ensures s.free == [] <==> s.head.index == 0
    ensures s.free != [] ==> s.free[0] < Frames(s) == |s.refs| == |s.held| && s.head.index == s.free[0] + 1
  {
  }

  /** An undisturbed acquire takes the first free frame with one reference, or fails and changes nothing. */
  lemma AcquireAlone(count: nat, threads: nat, steps: seq<Step>, s: State, i: nat)
    requires count > 0 && Run(New(count, threads), steps, s) && i < |s.threads| && s.threads[i] == Resting
    ensures s.free == [] ==> Run(s, Alone(Acquire(i), 1), s)
    ensures s.free != [] ==>
      var f := s.free[0];
      && f < |s.refs| == |s.held| == |s.next|
      && Run(s, Alone(Acquire(i), 4), s.(head := Head(s.head.tag + 1, s.next[f]), free := s.free[1..],
                                         refs := s.refs[f := 1], held := s.held[f := 1]))
  {
    Reachable(count, threads, steps, s);
    FirstFree(s);
    assert |s.refs| == |s.held| == Frames(s);
    hide Inv, Placed, Listed;
    var a := Put(s, i, Popping);
    if s.free == [] {
      assert Advanced(a, i) == s;
      RunsAlone(a, i, 0, s);
      Then(s, Acquire(i), seq(1, _ => Advance(i)), s);
    } else {
      var f := s.free[0];
      var q := s.(head := Head(s.head.tag + 1, s.next[f]), free := s.free[1..], refs := s.refs[f := 1], held := s.held[f := 1]);
      assert q.threads[i := Resting] == q.threads;
      PopAlone(a, i, f, q);
      Then(s, Acquire(i), seq(4, _ => Advance(i)), q);
    }
  }

  /** The three accesses of a push that nobody disturbs. */
  lemma PushAlone(s: State, i: nat, f: nat, q: State)
    requires i < |s.threads| && s.threads[i] == Pushing(f) && |s.refs| == |s.held| == Frames(s) && f < Frames(s)
    requires q == Put(s, i, Resting).(head := Head(s.head.tag + 1, f + 1), free := [f] + s.free,
                                      next := s.next[f := s.head.index])
    ensures Run(s, seq(3, _ => Advance(i)), q)
  {
    assert Run(q, seq(0, _ => Advance(i)), q);
    hide Run;
    var b := Put(s, i, PushLoaded(f, s.head));
    var c := Put(b, i, PushLinked(f, s.head)).(next := q.next);
    assert Advanced(s, i) == b && Advanced(b, i) == c && Advanced(c, i) == q;
    RunsAlone(c, i, 0, q);
    RunsAlone(b, i, 1, q);
    RunsAlone(s, i, 2, q);
  }

  /** An undisturbed release gives the reference back; with the last one the frame is first on the list. */
  lemma ReleaseAlone(count: nat, threads: nat, steps: seq<Step>, s: State, i: nat, f: nat)
    requires count > 0 && Run(New(count, threads), steps, s) && i < |s.threads| && s.threads[i] == Resting
    requires f < |s.refs| && s.refs[f] > 0
    ensures |s.refs| == |s.held| == |s.next| && s.held[f] == s.refs[f]
    ensures var q := s.(refs := s.refs[f := s.refs[f] - 1], held := s.held[f := s.held[f] - 1]);
      if s.refs[f] > 1 then Run(s, [Release(i, f)], q)
      else Run(s, Alone(Release(i, f), 3), q.(head := Head(s.head.tag + 1, f + 1), free := [f] + s.free,
                                              next := s.next[f := s.head.index]))
  {
    Reachable(count, threads, steps, s);
    assert Placed(s, f);
    hide Inv, Placed, Listed;
    var a := Apply(s, Release(i, f));
    if s.refs[f] == 1 {
      var q := a.(head := Head(s.head.tag + 1, f + 1), free := [f] + s.free, next := s.next[f := s.head.index]);
      PushAlone(a, i, f, Put(q, i, Resting));
      assert Put(q, i, Resting).threads == s.threads;
      Then(s, Release(i, f), seq(3, _ => Advance(i)), Put(q, i, Resting));
    } else {
      assert a.threads == s.threads;
      Then(s, Release(i, f), [], a);
      assert [Release(i, f)] + [] == [Release(i, f)];
    }
  }

  /** An undisturbed retain adds a reference, unless the count is at its limit. */
  lemma RetainAlone(count: nat, threads: nat, steps: seq<Step>, s: State, i: nat, f: nat)
    requires count > 0 && Run(New(count, threads), steps, s) && i < |s.threads| && s.threads[i] == Resting
    requires f < |s.refs| && s.refs[f] > 0
    ensures |s.refs| == |s.held| && s.held[f] == s.refs[f]
    ensures Run(s, Alone(Retain(i, f), 2),
                if s.refs[f] == 0x7fff_ffff then s
                else s.(refs := s.refs[f := s.refs[f] + 1], held := s.held[f := s.held[f] + 1]))
  {
    Reachable(count, threads, steps, s);
    assert Placed(s, f);
    hide Inv, Placed, Listed;
    var a := Put(s, i, Retaining(f));
    var b := Put(a, i, RetainLoaded(f, s.refs[f]));
    var q := if s.refs[f] == 0x7fff_ffff then s else s.(refs := s.refs[f := s.refs[f] + 1], held := s.held[f := s.held[f] + 1]);
    assert q.threads[i := Resting] == q.threads;
    assert Advanced(a, i) == b && Advanced(b, i) == q;
    RunsAlone(b, i, 0, q);
    RunsAlone(a, i, 1, q);
    Then(s, Retain(i, f), seq(2, _ => Advance(i)), q);
  }
}
