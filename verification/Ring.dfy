/**
  The bounded queue of replication/ring.go: many producers and one consumer,
  one atomic access to shared memory at a time, in any interleaving.
  Positions are unbounded and the mask is written as a remainder.
 */
module Ring {
  import opened Chains

  type Value = int

  /** Where a producer is in `TryPush`; `full` records whether every slot was taken when it loaded the sequence. */
  datatype Producer =
    | Resting
    | Entered(value: Value)
    | Loaded(value: Value, position: nat)
    | Sequenced(value: Value, position: nat, sequence: nat, full: bool)
    | Claimed(value: Value, position: nat)
    | Written(value: Value, position: nat)
    | Pushed(value: Value)
    | Refused(value: Value, full: bool)

  /** Where the consumer is in `TryPop`. */
  datatype Consumer =
    | Waiting
    | Positioned(position: nat)
    | Ready(position: nat)
    | Taken(position: nat, value: Value)
    | Cleared(position: nat, value: Value)
    | Freed(position: nat, value: Value)

  /** `claims` lists the values in the order of their claims, `delivered` those already popped. */
  datatype State = State(
    enqueue: nat, dequeue: nat, sequences: seq<nat>, values: seq<Option<Value>>,
    producers: seq<Producer>, consumer: Consumer,
    claims: seq<Value>, delivered: seq<Value>)

  datatype Step = Push(i: nat, value: Value) | Produce(i: nat) | Consume

  function Capacity(s: State): (c: nat) { |s.sequences| }

  function New(capacity: nat, producers: nat): (s: State) {
    State(0, 0, seq(capacity, i => i), seq(capacity, _ => None), seq(producers, _ => Resting), Waiting, [], [])
  }

  /** Slots given back by the consumer. */
  function Free(s: State): (f: nat) {
    s.dequeue + if s.consumer.Freed? then 1 else 0
  }

  predicate Full(s: State) {
    s.enqueue == Free(s) + Capacity(s)
  }

  predicate Enabled(s: State, step: Step) {
    Capacity(s) >= 2 && |s.values| == Capacity(s) &&
    match step
    case Push(i, v) => i < |s.producers| && (s.producers[i].Resting? || s.producers[i].Pushed? || s.producers[i].Refused?)
    case Produce(i) => i < |s.producers| && !s.producers[i].Resting? && !s.producers[i].Pushed? && !s.producers[i].Refused?
    case Consume => true
  }

  function At(s: State, position: nat): (i: nat)
    requires Capacity(s) > 0
    ensures i < Capacity(s)
  {
    position % Capacity(s)
  }

  function Produced(s: State, i: nat): (q: State)
    requires Enabled(s, Produce(i))
  {
    match s.producers[i]
    case Entered(v) => s.(producers := s.producers[i := Loaded(v, s.enqueue)])
    case Loaded(v, p) => s.(producers := s.producers[i := Sequenced(v, p, s.sequences[At(s, p)], Full(s))])
    case Sequenced(v, p, sequence, full) =>
      if sequence == p then
        if s.enqueue == p
        then s.(enqueue := p + 1, claims := s.claims + [v], producers := s.producers[i := Claimed(v, p)])
        else s.(producers := s.producers[i := Entered(v)])
      else if sequence < p then s.(producers := s.producers[i := Refused(v, full)])
      else s.(producers := s.producers[i := Entered(v)])
    case Claimed(v, p) => s.(values := s.values[At(s, p) := Some(v)], producers := s.producers[i := Written(v, p)])
    case Written(v, p) => s.(sequences := s.sequences[At(s, p) := p + 1], producers := s.producers[i := Pushed(v)])
  }

  function Consumed(s: State): (q: State)
    requires Enabled(s, Consume)
  {
    match s.consumer
    case Waiting => s.(consumer := Positioned(s.dequeue))
    case Positioned(p) => s.(consumer := if s.sequences[At(s, p)] == p + 1 then Ready(p) else Waiting)
    case Ready(p) => s.(consumer := Taken(p, if s.values[At(s, p)].Some? then s.values[At(s, p)].value else 0))
    case Taken(p, v) => s.(values := s.values[At(s, p) := None], consumer := Cleared(p, v))
    case Cleared(p, v) => s.(sequences := s.sequences[At(s, p) := p + Capacity(s)], consumer := Freed(p, v))
    case Freed(p, v) => s.(dequeue := p + 1, consumer := Waiting, delivered := s.delivered + [v])
  }

  function Apply(s: State, step: Step): (q: State)
    requires Enabled(s, step)
  {
    match step
    case Push(i, v) => s.(producers := s.producers[i := Entered(v)])
    case Produce(i) => Produced(s, i)
    case Consume => Consumed(s)
  }

  ghost predicate Run(s: State, steps: seq<Step>, q: State)
    decreases |steps|
  {
    if steps == [] then s == q
    else Enabled(s, steps[0]) && Run(Apply(s, steps[0]), steps[1..], q)
  }

  // ---- the invariant ---------------------------------------------------------------------------

  /** Producer `i` holds the claim on `position`. */
  predicate Holds(s: State, i: nat, position: nat) {
    i < |s.producers| && (s.producers[i].Claimed? || s.producers[i].Written?) && s.producers[i].position == position
  }

  /**
    The slot of a position in the window: free above the claims, being written
    by the producer that claimed it, or published with the claimed value.
   */
  ghost predicate SlotOk(s: State, p: nat) {
    Capacity(s) > 0 && |s.values| == Capacity(s) && s.enqueue == |s.claims| &&
    var i := At(s, p);
    if p >= s.enqueue then s.sequences[i] == p
    else
      || (s.sequences[i] == p && exists k :: Holds(s, k, p))
      || (s.sequences[i] == p + 1
          && (s.values[i] == Some(s.claims[p]) || (s.consumer.Cleared? && s.consumer.position == p)))
  }

  predicate ProducerOk(s: State, i: nat) {
    i < |s.producers| && |s.values| == Capacity(s) > 0 && s.enqueue == |s.claims| &&
    match s.producers[i]
    case Loaded(_, p) => p <= s.enqueue
    case Sequenced(_, p, sequence, full) => p <= s.enqueue && (sequence == p ==> p < Free(s) + Capacity(s)) && (sequence < p ==> full)
    case Claimed(v, p) => Free(s) <= p < s.enqueue && s.claims[p] == v && s.sequences[At(s, p)] == p
    case Written(v, p) => Free(s) <= p < s.enqueue && s.claims[p] == v && s.sequences[At(s, p)] == p && s.values[At(s, p)] == Some(v)
    case Refused(_, full) => full
    case _ => true
  }

  predicate ConsumerOk(s: State) {
    |s.values| == Capacity(s) > 0 && s.enqueue == |s.claims| &&
    match s.consumer
    case Waiting => true
    case Positioned(p) => p == s.dequeue
    case Ready(p) => p == s.dequeue < s.enqueue && s.sequences[At(s, p)] == p + 1
    case Taken(p, v) => p == s.dequeue < s.enqueue && s.sequences[At(s, p)] == p + 1 && v == s.claims[p]
    case Cleared(p, v) => p == s.dequeue < s.enqueue && s.sequences[At(s, p)] == p + 1 && v == s.claims[p]
    case Freed(p, v) => p == s.dequeue < s.enqueue && v == s.claims[p]
  }

  ghost predicate Inv(s: State) {
    && |s.values| == Capacity(s) >= 2
    && |s.claims| == s.enqueue && Free(s) <= s.enqueue <= Free(s) + Capacity(s)
    && s.dequeue <= s.enqueue && s.delivered == s.claims[..s.dequeue]
    && (forall p :: Free(s) <= p < Free(s) + Capacity(s) ==> SlotOk(s, p))
    && (forall i :: 0 <= i < |s.producers| ==> ProducerOk(s, i))
    && (forall i, j, p: nat :: Holds(s, i, p) && Holds(s, j, p) ==> i == j)
    && ConsumerOk(s)
  }

  // ---- every step keeps it -------------------------------------------------------------------------

  /** Positions less than a capacity apart never share a slot. */
  lemma Apart(c: nat, a: nat, b: nat)
    requires c > 0 && a < b < a + c
    ensures a % c != b % c
  {
    var q, r := a / c, b / c;
    assert b - a == c * r - c * q + (b % c - a % c);
    if r > q { Times(c, r, q + 1); } else { Times(c, q, r); }
  }

  lemma Times(c: nat, a: nat, b: nat)
    requires a >= b
    ensures c * a >= c * b
  {
    assert c * a == c * b + c * (a - b);
  }

  lemma ApartInWindow(s: State, a: nat, b: nat)
    requires Capacity(s) > 0 && a != b && Free(s) <= a < Free(s) + Capacity(s) && Free(s) <= b < Free(s) + Capacity(s)
    ensures At(s, a) != At(s, b)
  {
    if a < b { Apart(Capacity(s), a, b); } else { Apart(Capacity(s), b, a); }
  }

  /** A producer moves without touching shared memory and without taking or leaving a claim. */
  lemma LocalMove(s: State, i: nat, x: Producer)
    requires Inv(s) && i < |s.producers| && !s.producers[i].Claimed? && !s.producers[i].Written?
    requires !x.Claimed? && !x.Written?
    requires var q := s.(producers := s.producers[i := x]); ProducerOk(q, i)
    ensures Inv(s.(producers := s.producers[i := x]))
  {
    var q := s.(producers := s.producers[i := x]);
    forall p | Free(s) <= p < Free(s) + Capacity(s)
      ensures SlotOk(q, p)
    {
      assert SlotOk(s, p);
      forall k | Holds(s, k, p)
        ensures Holds(q, k, p)
      {
      }
    }
    forall j | 0 <= j < |q.producers|
      ensures ProducerOk(q, j)
    {
      assert ProducerOk(s, j);
    }
    forall j, k, p: nat | Holds(q, j, p) && Holds(q, k, p)
      ensures j == k
    {
      assert Holds(s, j, p) && Holds(s, k, p);
    }
  }

  /** Below the window a slot already belongs to a later round; at its end it is still taken. */
  lemma SequenceSeen(s: State, p: nat)
    requires Inv(s) && p <= s.enqueue
    ensures s.sequences[At(s, p)] == p ==> p < Free(s) + Capacity(s)
    ensures s.sequences[At(s, p)] < p ==> Full(s)
  {
    var c := Capacity(s);
    if p >= Free(s) + c {
      assert SlotOk(s, p - c);
      assert (p - c) % c == p % c by { Shift(p - c, c); }
    } else if p >= Free(s) {
      assert SlotOk(s, p);
    } else {
      var k := Later(p, c, Free(s));
      assert SlotOk(s, k);
    }
  }

  lemma Shift(p: nat, c: nat)
    requires c > 0
    ensures (p + c) % c == p % c
  {
    assert p + c == c * (p / c + 1) + p % c;
    Unique(p + c, c, p / c + 1, p % c);
  }

  lemma Unique(x: nat, c: nat, q: nat, r: nat)
    requires c > 0 && x == c * q + r && r < c
    ensures x % c == r
  {
    var d := x / c;
    if d > q { Times(c, d, q + 1); } else if d < q { Times(c, q, d + 1); }
  }

  /** The position of the same slot inside the window that starts at `f`. */
  lemma Later(p: nat, c: nat, f: nat) returns (k: nat)
    requires c > 0 && p < f
    ensures f <= k < f + c && k > p && k % c == p % c
    decreases f - p
  {
    if p + c >= f {
      k := p + c;
      Shift(p, c);
    } else {
      Shift(p, c);
      k := Later(p + c, c, f);
    }
  }

  lemma ClaimKeeps(s: State, i: nat)
    requires Inv(s) && i < |s.producers| && s.producers[i].Sequenced?
    requires s.producers[i].sequence == s.producers[i].position == s.enqueue
    ensures Inv(Produced(s, i))
  {
    var q := Produced(s, i);
    var e := s.enqueue;
    assert ProducerOk(s, i) && SlotOk(s, e);
    assert Holds(q, i, e);
    forall p | Free(q) <= p < Free(q) + Capacity(q)
      ensures SlotOk(q, p)
    {
      assert SlotOk(s, p);
      forall k | Holds(s, k, p)
        ensures Holds(q, k, p)
      {
      }
    }
    forall j | 0 <= j < |q.producers|
      ensures ProducerOk(q, j)
    {
      assert ProducerOk(s, j);
    }
    forall j, k, p: nat | Holds(q, j, p) && Holds(q, k, p)
      ensures j == k
    {
      assert j != i ==> Holds(s, j, p) && ProducerOk(s, j);
      assert k != i ==> Holds(s, k, p) && ProducerOk(s, k);
    }
  }

  lemma WriteKeeps(s: State, i: nat)
    requires Inv(s) && i < |s.producers| && s.producers[i].Claimed?
    ensures Inv(Produced(s, i))
  {
    var q := Produced(s, i);
    var e := s.producers[i].position;
    assert ProducerOk(s, i) && Holds(s, i, e) && Holds(q, i, e);
    forall p | Free(q) <= p < Free(q) + Capacity(q)
      ensures SlotOk(q, p)
    {
      assert SlotOk(s, p);
      if p != e { ApartInWindow(s, p, e); }
      forall k | Holds(s, k, p)
        ensures Holds(q, k, p)
      {
      }
    }
    forall j | 0 <= j < |q.producers|
      ensures ProducerOk(q, j)
    {
      assert ProducerOk(s, j);
      if j != i && s.producers[j].Written? {
        assert Holds(s, j, s.producers[j].position);
        ApartInWindow(s, s.producers[j].position, e);
      }
    }
    forall j, k, p: nat | Holds(q, j, p) && Holds(q, k, p)
      ensures j == k
    {
      assert Holds(s, j, p) && Holds(s, k, p);
    }
  }

  lemma PublishKeeps(s: State, i: nat)
    requires Inv(s) && i < |s.producers| && s.producers[i].Written?
    ensures Inv(Produced(s, i))
  {
    var q := Produced(s, i);
    var e := s.producers[i].position;
    assert ProducerOk(s, i) && Holds(s, i, e);
    forall p | Free(q) <= p < Free(q) + Capacity(q)
      ensures SlotOk(q, p)
    {
      assert SlotOk(s, p);
      if p != e { ApartInWindow(s, p, e); }
      forall k | Holds(s, k, p) && p != e
        ensures Holds(q, k, p)
      {
      }
    }
    forall j | 0 <= j < |q.producers|
      ensures ProducerOk(q, j)
    {
      assert ProducerOk(s, j);
      if j != i && (s.producers[j].Written? || s.producers[j].Claimed?) {
        assert Holds(s, j, s.producers[j].position);
        ApartInWindow(s, s.producers[j].position, e);
      }
    }
    forall j, k, p: nat | Holds(q, j, p) && Holds(q, k, p)
      ensures j == k
    {
      assert Holds(s, j, p) && Holds(s, k, p);
    }
    if s.consumer.Ready? || s.consumer.Taken? || s.consumer.Cleared? {
      ApartInWindow(s, s.dequeue, e);
    }
  }

  lemma ProduceKeeps(s: State, i: nat)
    requires Inv(s) && Enabled(s, Produce(i))
    ensures Inv(Produced(s, i))
  {
    hide Inv;
    assert ProducerOk(s, i) by { ProducerOf(s, i); }
    match s.producers[i]
    case Entered(v) => LocalMove(s, i, Loaded(v, s.enqueue));
    case Loaded(v, p) =>
      SequenceSeen(s, p);
      LocalMove(s, i, Sequenced(v, p, s.sequences[At(s, p)], Full(s)));
    case Sequenced(v, p, sequence, full) =>
      if sequence == p && s.enqueue == p {
        ClaimKeeps(s, i);
      } else if sequence < p {
        LocalMove(s, i, Refused(v, full));
      } else {
        LocalMove(s, i, Entered(v));
      }
    case Claimed(v, p) => WriteKeeps(s, i);
    case Written(v, p) => PublishKeeps(s, i);
  }

  lemma ProducerOf(s: State, i: nat)
    requires Inv(s) && i < |s.producers|
    ensures ProducerOk(s, i)
  {
  }


  /** The consumer moves without touching shared memory. */
  lemma ConsumerMove(s: State, x: Consumer)
    requires Inv(s) && !s.consumer.Freed? && !x.Freed? && !s.consumer.Cleared? && !x.Cleared?
    requires ConsumerOk(s.(consumer := x))
    ensures Inv(s.(consumer := x))
  {
    var q := s.(consumer := x);
    forall p | Free(q) <= p < Free(q) + Capacity(q)
      ensures SlotOk(q, p)
    {
      assert SlotOk(s, p);
      forall k | Holds(s, k, p)
        ensures Holds(q, k, p)
      {
      }
    }
    forall j | 0 <= j < |q.producers|
      ensures ProducerOk(q, j)
    {
      assert ProducerOk(s, j);
    }
    forall j, k, p: nat | Holds(q, j, p) && Holds(q, k, p)
      ensures j == k
    {
      assert Holds(s, j, p) && Holds(s, k, p);
    }
  }

  lemma ClearKeeps(s: State)
    requires Inv(s) && s.consumer.Taken?
    ensures Inv(Consumed(s))
  {
    var q := Consumed(s);
    var e := s.consumer.position;
    forall p | Free(q) <= p < Free(q) + Capacity(q)
      ensures SlotOk(q, p)
    {
      assert SlotOk(s, p);
      if p != e { ApartInWindow(s, p, e); }
      forall k | Holds(s, k, p)
        ensures Holds(q, k, p)
      {
      }
    }
    forall j | 0 <= j < |q.producers|
      ensures ProducerOk(q, j)
    {
      assert ProducerOk(s, j);
      if s.producers[j].Written? && s.producers[j].position != e {
        ApartInWindow(s, s.producers[j].position, e);
      }
    }
    forall j, k, p: nat | Holds(q, j, p) && Holds(q, k, p)
      ensures j == k
    {
      assert Holds(s, j, p) && Holds(s, k, p);
    }
  }

  lemma FreeKeeps(s: State)
    requires Inv(s) && s.consumer.Cleared?
    ensures Inv(Consumed(s))
  {
    var q := Consumed(s);
    var e := s.consumer.position;
    Shift(e, Capacity(s));
    forall p | Free(q) <= p < Free(q) + Capacity(q)
      ensures SlotOk(q, p)
    {
      if p < e + Capacity(s) {
        assert SlotOk(s, p);
        ApartInWindow(s, p, e);
        forall k | Holds(s, k, p)
          ensures Holds(q, k, p)
        {
        }
      }
    }
    forall j | 0 <= j < |q.producers|
      ensures ProducerOk(q, j)
    {
      assert ProducerOk(s, j);
      if s.producers[j].Written? || s.producers[j].Claimed? {
        assert s.producers[j].position != e;
        ApartInWindow(s, s.producers[j].position, e);
      }
    }
    forall j, k, p: nat | Holds(q, j, p) && Holds(q, k, p)
      ensures j == k
    {
      assert Holds(s, j, p) && Holds(s, k, p);
    }
  }

  lemma DeliverKeeps(s: State)
    requires Inv(s) && s.consumer.Freed?
    ensures Inv(Consumed(s))
  {
    var q := Consumed(s);
    assert s.claims[..s.dequeue + 1] == s.claims[..s.dequeue] + [s.claims[s.dequeue]];
    forall p | Free(q) <= p < Free(q) + Capacity(q)
      ensures SlotOk(q, p)
    {
      assert SlotOk(s, p);
      forall k | Holds(s, k, p)
        ensures Holds(q, k, p)
      {
      }
    }
    forall j | 0 <= j < |q.producers|
      ensures ProducerOk(q, j)
    {
      assert ProducerOk(s, j);
    }
    forall j, k, p: nat | Holds(q, j, p) && Holds(q, k, p)
      ensures j == k
    {
      assert Holds(s, j, p) && Holds(s, k, p);
    }
  }

  lemma ConsumeKeeps(s: State)
    requires Inv(s)
    ensures Enabled(s, Consume) && Inv(Consumed(s))
  {
    match s.consumer
    case Waiting => ConsumerMove(s, Positioned(s.dequeue));
    case Positioned(p) =>
      assert SlotOk(s, p);
      ConsumerMove(s, Consumed(s).consumer);
    case Ready(p) =>
      assert SlotOk(s, p);
      ConsumerMove(s, Consumed(s).consumer);
    case Taken(p, v) => ClearKeeps(s);
    case Cleared(p, v) => FreeKeeps(s);
    case Freed(p, v) => DeliverKeeps(s);
  }

  lemma NewInv(capacity: nat, producers: nat)
    requires capacity >= 2
    ensures Inv(New(capacity, producers))
  {
    var s := New(capacity, producers);
    forall p | 0 <= p < capacity
      ensures SlotOk(s, p)
    {
      Unique(p, capacity, 0, p);
    }
  }

  lemma {:induction false} RunKeeps(s: State, steps: seq<Step>, q: State)
    requires Inv(s) && Run(s, steps, q)
    ensures Inv(q)
    decreases |steps|
  {
    hide Inv, Produced, Consumed;
    if steps != [] {
      match steps[0] {
        case Push(i, v) =>
          ProducerOf(s, i);
          LocalMove(s, i, Entered(v));
        case Produce(i) => ProduceKeeps(s, i);
        case Consume => ConsumeKeeps(s);
      }
      RunKeeps(Apply(s, steps[0]), steps[1..], q);
    }
  }

  lemma {:induction false} RunCapacity(s: State, steps: seq<Step>, q: State)
    requires Run(s, steps, q)
    ensures Capacity(q) == Capacity(s)
    decreases |steps|
  {
    if steps != [] { RunCapacity(Apply(s, steps[0]), steps[1..], q); }
  }

  // ---- what it gives ---------------------------------------------------------------------------------

  /**
    In every interleaving: what was delivered is, in claim order and once each,
    a prefix of what was claimed; at most a capacity of claims is outstanding;
    every outstanding claim is either still being written by the one producer
    that made it or waits unharmed in its slot; and a push is refused only if
    every slot was taken when it loaded the sequence.
   */
  lemma RingDelivers(capacity: nat, producers: nat, steps: seq<Step>, s: State)
    requires capacity >= 2 && Run(New(capacity, producers), steps, s)
    ensures s.delivered <= s.claims && |s.claims| <= Free(s) + capacity
    ensures forall p: nat :: |s.delivered| <= p < |s.claims| && !(p == |s.delivered| && (s.consumer.Cleared? || s.consumer.Freed?)) ==>
      || (exists i: nat :: Holds(s, i, p) && s.producers[i].value == s.claims[p] && forall j: nat :: Holds(s, j, p) ==> j == i)
      || (|s.values| == capacity && s.values[p % capacity] == Some(s.claims[p]))
    ensures forall i :: 0 <= i < |s.producers| ==> (s.producers[i].Refused? ==> s.producers[i].full)
  {
    NewInv(capacity, producers);
    RunKeeps(New(capacity, producers), steps, s);
    RunCapacity(New(capacity, producers), steps, s);
    forall p: nat | |s.delivered| <= p < |s.claims| && !(p == |s.delivered| && (s.consumer.Cleared? || s.consumer.Freed?))
      ensures || (exists i: nat :: Holds(s, i, p) && s.producers[i].value == s.claims[p] && forall j: nat :: Holds(s, j, p) ==> j == i)
              || (|s.values| == capacity && s.values[p % capacity] == Some(s.claims[p]))
    {
      assert SlotOk(s, p);
      if i :| Holds(s, i, p) {
        assert ProducerOk(s, i);
      }
    }
    forall i | 0 <= i < |s.producers|
      ensures s.producers[i].Refused? ==> s.producers[i].full
    {
      assert ProducerOk(s, i);
    }
  }

  /** A pop finds nothing only if nothing is claimed, or if the producer of the oldest claim has not published it. */
  lemma PopFindsNothing(capacity: nat, producers: nat, steps: seq<Step>, s: State)
    requires capacity >= 2 && Run(New(capacity, producers), steps, s)
    requires s.consumer.Positioned? && Enabled(s, Consume) && Consumed(s).consumer.Waiting?
    ensures s.delivered == s.claims || exists i: nat :: Holds(s, i, |s.delivered|)
  {
    NewInv(capacity, producers);
    RunKeeps(New(capacity, producers), steps, s);
    assert SlotOk(s, s.dequeue);
  }

  // ---- what a caller gets when nobody interferes ------------------------------------------------------

  lemma Then(s: State, step: Step, steps: seq<Step>, q: State)
    requires Enabled(s, step) && Run(Apply(s, step), steps, q)
    ensures Run(s, [step] + steps, q)
  {
    assert ([step] + steps)[0] == step && ([step] + steps)[1..] == steps;
  }

  function Repeated(step: Step, count: nat): (steps: seq<Step>) {
    if count == 0 then [] else [step] + Repeated(step, count - 1)
  }

  lemma Again(s: State, step: Step, count: nat, q: State)
    requires Enabled(s, step) && Run(Apply(s, step), Repeated(step, count), q)
    ensures Run(s, Repeated(step, count + 1), q)
  {
    Then(s, step, Repeated(step, count), q);
  }

  function Moved(s: State, i: nat, x: Producer): (q: State)
    requires i < |s.producers|
  {
    s.(producers := s.producers[i := x])
  }

  /** The slot that the next push loads. */
  lemma NextSlot(s: State)
    requires Inv(s)
    ensures Capacity(s) >= 2
    ensures !Full(s) ==> s.sequences[At(s, s.enqueue)] == s.enqueue
    ensures Full(s) ==> s.sequences[At(s, s.enqueue)] < s.enqueue
  {
    if Full(s) {
      var p := Free(s);
      assert SlotOk(s, p);
      Wraps(p, Capacity(s));
    } else {
      assert SlotOk(s, s.enqueue);
    }
  }

  lemma Wraps(p: nat, c: nat)
    requires c > 0
    ensures (p + c) % c == p % c
  {
    var q, r := p / c, p % c;
    assert p + c == c * (q + 1) + r;
    Quotient(p + c, c, q + 1, r);
  }

  lemma Quotient(x: nat, c: nat, q: nat, r: nat)
    requires c > 0 && r < c && x == c * q + r
    ensures x % c == r
  {
    var d := x / c;
    assert x == c * d + x % c;
    if d < q {
      Times(c, q, d + 1);
    } else if d > q {
      Times(c, d, q + 1);
    }
  }

  /** An undisturbed push takes the next place in the order and publishes the value, or is refused if all slots are taken. */
  lemma PushAlone(capacity: nat, producers: nat, steps: seq<Step>, s: State, i: nat, v: Value)
    requires capacity >= 2 && Run(New(capacity, producers), steps, s) && Enabled(s, Push(i, v))
    ensures |s.sequences| == |s.values| == capacity
    ensures var slot := |s.claims| % capacity;
      if |s.claims| < Free(s) + capacity then
        Run(s, [Push(i, v)] + Repeated(Produce(i), 5),
            s.(enqueue := |s.claims| + 1, claims := s.claims + [v], values := s.values[slot := Some(v)],
               sequences := s.sequences[slot := |s.claims| + 1], producers := s.producers[i := Pushed(v)]))
      else Run(s, [Push(i, v)] + Repeated(Produce(i), 3), s.(producers := s.producers[i := Refused(v, true)]))
  {
    NewInv(capacity, producers);
    RunKeeps(New(capacity, producers), steps, s);
    RunCapacity(New(capacity, producers), steps, s);
    NextSlot(s);
    assert s.enqueue == |s.claims| && |s.claims| <= Free(s) + capacity;
    hide Inv;
    if Full(s) {
      RefusedAlone(s, i, v);
    } else {
      var p, x := s.enqueue, At(s, s.enqueue);
      PushedAlone(s, i, v, p, x, s.(enqueue := p + 1, claims := s.claims + [v], values := s.values[x := Some(v)],
                                    sequences := s.sequences[x := p + 1], producers := s.producers[i := Pushed(v)]));
    }
  }

  lemma RefusedAlone(s: State, i: nat, v: Value)
    requires Enabled(s, Push(i, v)) && Full(s) && s.sequences[At(s, s.enqueue)] < s.enqueue
    ensures Run(s, [Push(i, v)] + Repeated(Produce(i), 3), s.(producers := s.producers[i := Refused(v, true)]))
  {
    var p := s.enqueue;
    var a := Moved(s, i, Entered(v));
    var b := Moved(s, i, Loaded(v, p));
    var c := Moved(s, i, Sequenced(v, p, s.sequences[At(s, p)], true));
    var q := Moved(s, i, Refused(v, true));
    assert Produced(a, i) == b && Produced(b, i) == c && Produced(c, i) == q;
    assert Run(q, Repeated(Produce(i), 0), q);
    hide Run;
    Again(c, Produce(i), 0, q);
    Again(b, Produce(i), 1, q);
    Again(a, Produce(i), 2, q);
    Then(s, Push(i, v), Repeated(Produce(i), 3), q);
  }

  /** Writing and publishing the claimed slot. */
  lemma PublishAlone(s: State, i: nat, v: Value, p: nat, q: State)
    requires Capacity(s) >= 2 && |s.values| == Capacity(s) && i < |s.producers| && s.producers[i] == Claimed(v, p)
    requires q == s.(values := s.values[At(s, p) := Some(v)], sequences := s.sequences[At(s, p) := p + 1],
                     producers := s.producers[i := Pushed(v)])
    ensures Run(s, Repeated(Produce(i), 2), q)
  {
    var e := s.(values := q.values, producers := s.producers[i := Written(v, p)]);
    assert Produced(s, i) == e;
    assert Produced(e, i) == q;
    assert Run(q, Repeated(Produce(i), 0), q);
    hide Run;
    Again(e, Produce(i), 0, q);
    Again(s, Produce(i), 1, q);
  }

  /** Loading the position and the sequence and claiming the position. */
  lemma ClaimAlone(s: State, i: nat, v: Value, q: State)
    requires Capacity(s) >= 2 && |s.values| == Capacity(s) && i < |s.producers| && s.producers[i] == Entered(v)
    requires s.sequences[At(s, s.enqueue)] == s.enqueue
    requires var d := Moved(s.(enqueue := s.enqueue + 1, claims := s.claims + [v]), i, Claimed(v, s.enqueue));
      Run(d, Repeated(Produce(i), 2), q)
    ensures Run(s, Repeated(Produce(i), 5), q)
  {
    hide Run;
    var p := s.enqueue;
    var b := Moved(s, i, Loaded(v, p));
    var c := Moved(s, i, Sequenced(v, p, p, Full(s)));
    var d := Moved(s.(enqueue := p + 1, claims := s.claims + [v]), i, Claimed(v, p));
    assert Produced(c, i) == d;
    Again(c, Produce(i), 2, q);
    assert Produced(b, i) == c;
    Again(b, Produce(i), 3, q);
    assert Produced(s, i) == b;
    Again(s, Produce(i), 4, q);
  }

  lemma SameSlot(s: State, t: State, p: nat)
    requires Capacity(s) == Capacity(t) > 0
    ensures At(s, p) == At(t, p)
  {
  }

  lemma EnterAlone(s: State, i: nat, v: Value, count: nat, q: State)
    requires Enabled(s, Push(i, v)) && Run(s.(producers := s.producers[i := Entered(v)]), Repeated(Produce(i), count), q)
    ensures Run(s, [Push(i, v)] + Repeated(Produce(i), count), q)
  {
    hide Run, Repeated;
    assert Apply(s, Push(i, v)) == s.(producers := s.producers[i := Entered(v)]);
    Then(s, Push(i, v), Repeated(Produce(i), count), q);
  }

  lemma EnteredAlone(s: State, i: nat, v: Value, p: nat, x: nat, q: State)
    requires Capacity(s) >= 2 && |s.values| == Capacity(s) && i < |s.producers| && s.producers[i] == Entered(v)
    requires p == s.enqueue && x == At(s, p) && s.sequences[x] == p
    requires q == s.(enqueue := p + 1, claims := s.claims + [v], values := s.values[x := Some(v)],
                     sequences := s.sequences[x := p + 1], producers := s.producers[i := Pushed(v)])
    ensures Run(s, Repeated(Produce(i), 5), q)
  {
    hide Run, At, Repeated;
    var d := s.(enqueue := p + 1, claims := s.claims + [v], producers := s.producers[i := Claimed(v, p)]);
    SameSlot(s, d, p);
    assert d.producers[i := Pushed(v)] == q.producers;
    PublishAlone(d, i, v, p, q);
    ClaimAlone(s, i, v, q);
  }

  lemma PushedAlone(s: State, i: nat, v: Value, p: nat, x: nat, q: State)
    requires Enabled(s, Push(i, v)) && p == s.enqueue && x == At(s, p) && s.sequences[x] == p
    requires q == s.(enqueue := p + 1, claims := s.claims + [v], values := s.values[x := Some(v)],
                     sequences := s.sequences[x := p + 1], producers := s.producers[i := Pushed(v)])
    ensures Run(s, [Push(i, v)] + Repeated(Produce(i), 5), q)
  {
    hide Run, At, Repeated;
    var a := s.(producers := s.producers[i := Entered(v)]);
    SameSlot(s, a, p);
    assert a.producers[i := Pushed(v)] == q.producers;
    EnteredAlone(a, i, v, p, x, q);
    EnterAlone(s, i, v, 5, q);
  }

  /** A pop returns the oldest value and frees its slot, or finds nothing if there is none or it is not yet published. */
  lemma PopAlone(capacity: nat, producers: nat, steps: seq<Step>, s: State)
    requires capacity >= 2 && Run(New(capacity, producers), steps, s) && s.consumer.Waiting?
    ensures |s.sequences| == |s.values| == capacity && s.dequeue == |s.delivered| && s.delivered <= s.claims
    ensures var p := |s.delivered|;
      if p < |s.claims| && forall i: nat :: !Holds(s, i, p) then
        Run(s, Repeated(Consume, 6),
            s.(dequeue := p + 1, delivered := s.delivered + [s.claims[p]], values := s.values[p % capacity := None],
               sequences := s.sequences[p % capacity := p + capacity]))
      else Run(s, Repeated(Consume, 2), s)
  {
    NewInv(capacity, producers);
    RunKeeps(New(capacity, producers), steps, s);
    RunCapacity(New(capacity, producers), steps, s);
    var p := s.dequeue;
    assert SlotOk(s, p);
    if p < |s.claims| && forall i: nat :: !Holds(s, i, p) {
      hide Inv;
      PoppedAlone(s, s.claims[p]);
    } else {
      if i: nat :| Holds(s, i, p) { assert ProducerOk(s, i); }
      hide Inv;
      NothingAlone(s);
    }
  }

  lemma NothingAlone(s: State)
    requires Enabled(s, Consume) && s.consumer.Waiting? && s.sequences[At(s, s.dequeue)] != s.dequeue + 1
    ensures Run(s, Repeated(Consume, 2), s)
  {
    var a := s.(consumer := Positioned(s.dequeue));
    assert Consumed(s) == a && Consumed(a) == s;
    Again(a, Consume, 0, s);
    Again(s, Consume, 1, s);
  }

  /** Clearing and freeing the slot whose value was taken. */
  lemma FreeAlone(s: State, v: Value, p: nat, q: State)
    requires Capacity(s) >= 2 && |s.values| == Capacity(s) && s.consumer == Taken(p, v)
    requires q == s.(dequeue := p + 1, delivered := s.delivered + [v], values := s.values[At(s, p) := None],
                     sequences := s.sequences[At(s, p) := p + Capacity(s)], consumer := Waiting)
    ensures Run(s, Repeated(Consume, 3), q)
  {
    var d := s.(values := q.values, consumer := Cleared(p, v));
    var e := d.(sequences := q.sequences, consumer := Freed(p, v));
    assert Consumed(s) == d && Consumed(d) == e;
    assert Consumed(e) == q;
    assert Run(q, Repeated(Consume, 0), q);
    hide Run;
    Again(e, Consume, 0, q);
    Again(d, Consume, 1, q);
    Again(s, Consume, 2, q);
  }

  lemma PoppedAlone(s: State, v: Value)
    requires Enabled(s, Consume) && s.consumer.Waiting? && s.sequences[At(s, s.dequeue)] == s.dequeue + 1
    requires s.values[At(s, s.dequeue)] == Some(v)
    ensures var p := s.dequeue;
      Run(s, Repeated(Consume, 6),
          s.(dequeue := p + 1, delivered := s.delivered + [v], values := s.values[At(s, p) := None],
             sequences := s.sequences[At(s, p) := p + Capacity(s)]))
  {
    hide Run;
    var p := s.dequeue;
    var a := s.(consumer := Positioned(p));
    var b := s.(consumer := Ready(p));
    var c := s.(consumer := Taken(p, v));
    var q := s.(dequeue := p + 1, delivered := s.delivered + [v], values := s.values[At(s, p) := None],
                sequences := s.sequences[At(s, p) := p + Capacity(s)]);
    assert At(c, p) == At(s, p) && Capacity(c) == Capacity(s);
    FreeAlone(c, v, p, q);
    assert Consumed(b) == c;
    Again(b, Consume, 3, q);
    assert Consumed(a) == b;
    Again(a, Consume, 4, q);
    assert Consumed(s) == a;
    Again(s, Consume, 5, q);
  }
}
