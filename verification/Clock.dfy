/**
  Agreement on the cluster time (replication/clock.go): every source gives an
  interval for the clock offset, a sweep over the sorted endpoints finds where
  most of them meet, and the tolerance is halved while a quorum still does.
 */
module Clock {
  import opened Chains
  import opened Powers

  const INT64_MAX := 0x7fff_ffff_ffff_ffff
  const INT64_MIN := -0x8000_0000_0000_0000
  const UINT64_MAX := 0xffff_ffff_ffff_ffff

  datatype Sample = Sample(offset: int, oneWay: nat)

  datatype Interval = Interval(lower: int, upper: int)

  datatype Endpoint = Endpoint(value: int, lower: bool, source: nat)

  // ---- arithmetic of fixed width ------------------------------------------------------------

  function SaturatingSigned(a: nat, b: nat): (r: int) {
    if UINT64_MAX - a < b || a + b > INT64_MAX then INT64_MAX else a + b
  }

  function SaturatingAdd(a: int, b: int): (r: int) {
    if b > 0 && a > INT64_MAX - b then INT64_MAX
    else if b < 0 && a < INT64_MIN - b then INT64_MIN
    else a + b
  }

  function SaturatingSubtract(a: int, b: int): (r: int) {
    if b == INT64_MIN then INT64_MAX else SaturatingAdd(a, -b)
  }

  function IntervalOf(s: Sample, tolerance: nat): (r: Interval) {
    var radius := SaturatingSigned(s.oneWay, tolerance);
    Interval(SaturatingSubtract(s.offset, radius), SaturatingAdd(s.offset, radius))
  }

  predicate ValidSample(s: Sample) {
    INT64_MIN <= s.offset <= INT64_MAX && s.oneWay <= UINT64_MAX
  }

  /** A source's interval holds its offset, fits its type, and widens with the tolerance. */
  lemma IntervalWidens(s: Sample, a: nat, b: nat)
    requires ValidSample(s) && a <= b <= UINT64_MAX
    ensures INT64_MIN <= IntervalOf(s, b).lower <= IntervalOf(s, a).lower <= s.offset
    ensures s.offset <= IntervalOf(s, a).upper <= IntervalOf(s, b).upper <= INT64_MAX
  {
  }

  predicate Int64(x: int) {
    INT64_MIN <= x <= INT64_MAX
  }

  /** The point is no further from the sample's offset than its delay and the tolerance together, as far as 63 bits go. */
  predicate Near(s: Sample, tolerance: nat, x: int) {
    var distance := if x < s.offset then s.offset - x else x - s.offset;
    Int64(x) && distance <= INT64_MAX && distance <= s.oneWay + tolerance
  }

  /** Which points a source's interval holds. */
  lemma IntervalHolds(s: Sample, tolerance: nat, x: int)
    requires ValidSample(s) && tolerance <= UINT64_MAX
    ensures IntervalOf(s, tolerance).lower <= x <= IntervalOf(s, tolerance).upper <==> Near(s, tolerance, x)
  {
  }

  function Intervals(samples: seq<Sample>, tolerance: nat): (r: seq<Interval>) {
    seq(|samples|, i requires 0 <= i < |samples| => IntervalOf(samples[i], tolerance))
  }

  predicate Proper(xs: seq<Interval>) {
    forall i :: 0 <= i < |xs| ==> xs[i].lower <= xs[i].upper
  }

  // ---- what is being looked for ----------------------------------------------------------------

  /** How many intervals contain the whole of [lower, upper]. */
  function Covering(xs: seq<Interval>, lower: int, upper: int): (n: nat)
    ensures n <= |xs|
  {
    if xs == [] then 0
    else Covering(xs[..|xs| - 1], lower, upper)
         + if xs[|xs| - 1].lower <= lower && upper <= xs[|xs| - 1].upper then 1 else 0
  }

  /** How many intervals contain the point. */
  function Containing(xs: seq<Interval>, x: int): (n: nat) {
    Covering(xs, x, x)
  }

  // ---- sorting the endpoints -----------------------------------------------------------------------

  /** `endpointLess` */
  predicate Less(a: Endpoint, b: Endpoint) {
    if a.value != b.value then a.value < b.value
    else if a.lower != b.lower then a.lower
    else a.source < b.source
  }

  function Insert(e: Endpoint, s: seq<Endpoint>): (r: seq<Endpoint>)
    ensures |r| == |s| + 1
  {
    if s != [] && Less(e, s[|s| - 1]) then Insert(e, s[..|s| - 1]) + [s[|s| - 1]] else s + [e]
  }

  function Sorted(s: seq<Endpoint>): (r: seq<Endpoint>)
    ensures |r| == |s|
  {
    if s == [] then [] else Insert(s[|s| - 1], Sorted(s[..|s| - 1]))
  }

  predicate InOrder(s: seq<Endpoint>) {
    forall i, j :: 0 <= i < j < |s| ==> !Less(s[j], s[i])
  }

  lemma {:induction false} InsertBelow(e: Endpoint, s: seq<Endpoint>, bound: Endpoint)
    requires (forall i :: 0 <= i < |s| ==> !Less(bound, s[i])) && !Less(bound, e)
    ensures forall i :: 0 <= i < |Insert(e, s)| ==> !Less(bound, Insert(e, s)[i])
  {
    if s != [] && Less(e, s[|s| - 1]) { InsertBelow(e, s[..|s| - 1], bound); }
  }

  lemma {:induction false} InsertInOrder(e: Endpoint, s: seq<Endpoint>)
    requires InOrder(s)
    ensures InOrder(Insert(e, s))
  {
    if s != [] && Less(e, s[|s| - 1]) {
      InsertInOrder(e, s[..|s| - 1]);
      InsertBelow(e, s[..|s| - 1], s[|s| - 1]);
    }
  }

  lemma {:induction false} InsertKeeps(e: Endpoint, s: seq<Endpoint>)
    ensures multiset(Insert(e, s)) == multiset(s) + multiset{e}
  {
    if s != [] && Less(e, s[|s| - 1]) {
      InsertKeeps(e, s[..|s| - 1]);
      assert s == s[..|s| - 1] + [s[|s| - 1]];
    }
  }

  lemma {:induction false} SortedInOrder(s: seq<Endpoint>)
    ensures InOrder(Sorted(s))
  {
    if s != [] {
      SortedInOrder(s[..|s| - 1]);
      InsertInOrder(s[|s| - 1], Sorted(s[..|s| - 1]));
    }
  }

  lemma {:induction false} SortedPermutes(s: seq<Endpoint>)
    ensures multiset(Sorted(s)) == multiset(s)
  {
    hide Insert;
    if s != [] {
      var t, e := s[..|s| - 1], s[|s| - 1];
      SortedPermutes(t);
      InsertKeeps(e, Sorted(t));
      assert Sorted(s) == Insert(e, Sorted(t));
      hide Sorted;
      assert s == t + [e];
    }
  }

  /** The sorted endpoints are the given ones, by value, lower ends first, then by source. */
  lemma SortedByFields(s: seq<Endpoint>)
    ensures multiset(Sorted(s)) == multiset(s)
    ensures forall i, j :: 0 <= i < j < |s| ==>
      var a, b := Sorted(s)[i], Sorted(s)[j];
      a.value <= b.value && (a.value == b.value ==> (b.lower ==> a.lower) && (a.lower == b.lower ==> a.source <= b.source))
  {
    SortedInOrder(s);
    SortedPermutes(s);
  }

  /** `insertionSortEndpoints`, in place. */
  method InsertionSort(a: array<Endpoint>)
    modifies a
    ensures a[..] == Sorted(old(a[..]))
  {
    var index := 0;
    while index < a.Length
      invariant index <= a.Length && a[..index] == Sorted(old(a[..])[..index])
      invariant forall k :: index <= k < a.Length ==> a[k] == old(a[k])
    {
      assert old(a[..])[..index + 1][..index] == old(a[..])[..index];
      InsertAt(a, index);
      index := index + 1;
    }
    assert old(a[..])[..a.Length] == old(a[..]) && a[..a.Length] == a[..];
  }

  /** The inner loop: the element at `index` moves down past every greater one. */
  method InsertAt(a: array<Endpoint>, index: nat)
    requires index < a.Length
    modifies a
    ensures a[..index + 1] == Insert(old(a[index]), old(a[..index]))
    ensures forall k :: index < k < a.Length ==> a[k] == old(a[k])
  {
    hide Insert, Less;
    var value := a[index];
    var position := index;
    ghost var given := a[..index];
    InsertStart(value, given);
    while position > 0 && Less(value, a[position - 1])
      invariant position <= index
      invariant forall k :: 0 <= k < position ==> a[k] == given[k]
      invariant forall k :: position < k <= index ==> a[k] == given[k - 1]
      invariant forall k :: index < k < a.Length ==> a[k] == old(a[k])
      invariant Insert(value, given) == Insert(value, given[..position]) + given[position..]
    {
      InsertStep(value, given, position);
      a[position] := a[position - 1];
      position := position - 1;
    }
    a[position] := value;
    InsertStop(value, given, position);
    ghost var result := given[..position] + [value] + given[position..];
    forall k | 0 <= k < index + 1
      ensures a[k] == result[k]
    {
    }
    assert a[..index + 1] == result;
  }

  lemma InsertStart(value: Endpoint, given: seq<Endpoint>)
    ensures Insert(value, given) == Insert(value, given[..|given|]) + given[|given|..]
  {
    assert given[..|given|] == given && given[|given|..] == [];
  }

  lemma InsertStep(value: Endpoint, given: seq<Endpoint>, n: nat)
    requires 0 < n <= |given| && Less(value, given[n - 1])
    ensures Insert(value, given[..n]) + given[n..] == Insert(value, given[..n - 1]) + given[n - 1..]
  {
    assert given[..n][..n - 1] == given[..n - 1];
    assert given[n - 1..] == [given[n - 1]] + given[n..];
  }

  lemma InsertStop(value: Endpoint, given: seq<Endpoint>, n: nat)
    requires n <= |given| && (n > 0 ==> !Less(value, given[n - 1]))
    ensures Insert(value, given[..n]) == given[..n] + [value]
  {
  }

  // ---- counting endpoints -----------------------------------------------------------------------------

  function One(b: bool): (n: nat) { if b then 1 else 0 }

  /** Lower endpoints at or below `x`. */
  function Begun(s: seq<Endpoint>, x: int): (n: nat) {
    if s == [] then 0 else Begun(s[..|s| - 1], x) + One(s[|s| - 1].lower && s[|s| - 1].value <= x)
  }

  /** Upper endpoints below `x`. */
  function Ended(s: seq<Endpoint>, x: int): (n: nat) {
    if s == [] then 0 else Ended(s[..|s| - 1], x) + One(!s[|s| - 1].lower && s[|s| - 1].value < x)
  }

  /** Lower minus upper endpoints: the running count of the sweep. */
  function Open(s: seq<Endpoint>): (n: int) {
    if s == [] then 0 else Open(s[..|s| - 1]) + if s[|s| - 1].lower then 1 else -1
  }

  /** The endpoints of the intervals in the order they are gathered. */
  function Endpoints(xs: seq<Interval>): (r: seq<Endpoint>)
    ensures |r| == 2 * |xs|
  {
    if xs == [] then []
    else
      var i := |xs| - 1;
      Endpoints(xs[..i]) + [Endpoint(xs[i].lower, true, i), Endpoint(xs[i].upper, false, i)]
  }

  lemma {:induction false} InsertCounts(e: Endpoint, s: seq<Endpoint>, x: int)
    ensures Begun(Insert(e, s), x) == Begun(s, x) + One(e.lower && e.value <= x)
    ensures Ended(Insert(e, s), x) == Ended(s, x) + One(!e.lower && e.value < x)
  {
    var r := Insert(e, s);
    if s != [] && Less(e, s[|s| - 1]) {
      InsertCounts(e, s[..|s| - 1], x);
      assert r[..|r| - 1] == Insert(e, s[..|s| - 1]);
    } else {
      assert r[..|r| - 1] == s;
    }
  }

  lemma {:induction false} SortedCounts(s: seq<Endpoint>, x: int)
    ensures Begun(Sorted(s), x) == Begun(s, x) && Ended(Sorted(s), x) == Ended(s, x)
  {
    if s != [] {
      SortedCounts(s[..|s| - 1], x);
      InsertCounts(s[|s| - 1], Sorted(s[..|s| - 1]), x);
    }
  }

  function LowerBelow(xs: seq<Interval>, x: int): (n: nat) {
    if xs == [] then 0 else LowerBelow(xs[..|xs| - 1], x) + One(xs[|xs| - 1].lower <= x)
  }

  function UpperBelow(xs: seq<Interval>, x: int): (n: nat) {
    if xs == [] then 0 else UpperBelow(xs[..|xs| - 1], x) + One(xs[|xs| - 1].upper < x)
  }

  lemma {:induction false} EndpointCounts(xs: seq<Interval>, x: int)
    ensures Begun(Endpoints(xs), x) == LowerBelow(xs, x) && Ended(Endpoints(xs), x) == UpperBelow(xs, x)
  {
    if xs != [] {
      var i := |xs| - 1;
      EndpointCounts(xs[..i], x);
      var r := Endpoints(xs);
      assert r[..|r| - 1][..|r| - 2] == Endpoints(xs[..i]);
      assert r[..|r| - 1][|r| - 2] == Endpoint(xs[i].lower, true, i);
    }
  }

  /** An interval that has begun by `lower` and not ended before `upper` covers what lies between. */
  lemma {:induction false} CoveringAtLeast(xs: seq<Interval>, lower: int, upper: int)
    ensures LowerBelow(xs, lower) - UpperBelow(xs, upper) <= Covering(xs, lower, upper)
  {
    if xs != [] { CoveringAtLeast(xs[..|xs| - 1], lower, upper); }
  }

  lemma {:induction false} ContainingExactly(xs: seq<Interval>, x: int)
    requires Proper(xs)
    ensures Containing(xs, x) == LowerBelow(xs, x) - UpperBelow(xs, x)
  {
    if xs != [] { ContainingExactly(xs[..|xs| - 1], x); }
  }

  // ---- the sweep on sorted endpoints ----------------------------------------------------------------------

  /** Before `n` in a sorted list, everything begun counts; from `n` on nothing has ended below the next value. */
  lemma {:induction false} OpenAtMost(s: seq<Endpoint>, n: nat, x: int, y: int)
    requires n <= |s| && (forall i :: 0 <= i < n ==> s[i].value <= x) && (forall i :: n <= i < |s| ==> s[i].value >= y)
    ensures Open(s[..n]) <= Begun(s, x) - Ended(s, y)
    decreases |s|
  {
    if s == [] {
      return;
    }
    var t := s[..|s| - 1];
    if n < |s| {
      assert t[..n] == s[..n];
      OpenAtMost(t, n, x, y);
    } else {
      assert s[..n] == s && s[..n][..n - 1] == t && t[..n - 1] == t;
      OpenAtMost(t, n - 1, x, y);
    }
  }

  /** If the first `n` are exactly those below the point, the running count is what the point has open. */
  lemma {:induction false} OpenExactly(s: seq<Endpoint>, n: nat, x: int)
    requires n <= |s|
    requires forall i :: 0 <= i < |s| ==> (i < n <==> (s[i].value < x || (s[i].value == x && s[i].lower)))
    ensures Open(s[..n]) == Begun(s, x) - Ended(s, x)
    decreases |s|
  {
    if s == [] {
      return;
    }
    var t := s[..|s| - 1];
    if n < |s| {
      assert t[..n] == s[..n];
      OpenExactly(t, n, x);
    } else {
      assert s[..n] == s && s[..n][..n - 1] == t && t[..n - 1] == t;
      OpenExactly(t, n - 1, x);
    }
  }

  lemma OrderedValues(s: seq<Endpoint>, n: nat)
    requires InOrder(s) && 0 < n < |s|
    ensures forall i :: 0 <= i < n ==> s[i].value <= s[n - 1].value
    ensures forall i :: n <= i < |s| ==> s[i].value >= s[n].value
  {
    forall i | 0 <= i < n
      ensures s[i].value <= s[n - 1].value
    {
      if i < n - 1 { assert !Less(s[n - 1], s[i]); }
    }
    forall i | n <= i < |s|
      ensures s[i].value >= s[n].value
    {
      if n < i { assert !Less(s[i], s[n]); }
    }
  }

  /** Where the sweep stands when it passes `x`. */
  lemma {:induction false} PositionOf(s: seq<Endpoint>, x: int) returns (n: nat)
    requires InOrder(s)
    ensures n <= |s| && forall i :: 0 <= i < |s| ==> (i < n <==> (s[i].value < x || (s[i].value == x && s[i].lower)))
    decreases |s|
  {
    if s == [] {
      n := 0;
    } else {
      var last := s[|s| - 1];
      if last.value < x || (last.value == x && last.lower) {
        n := |s|;
        forall i | 0 <= i < |s|
          ensures s[i].value < x || (s[i].value == x && s[i].lower)
        {
          if i < |s| - 1 { assert !Less(last, s[i]); }
        }
      } else {
        n := PositionOf(s[..|s| - 1], x);
      }
    }
  }

  /** The count after any endpoint but the last is covered: that many intervals contain the segment that follows. */
  lemma SegmentCovered(xs: seq<Interval>, s: seq<Endpoint>, n: nat)
    requires s == Sorted(Endpoints(xs)) && 0 < n < |s|
    ensures Depth(s, n) <= Covering(xs, s[n - 1].value, s[n].value)
  {
    SortedInOrder(Endpoints(xs));
    OrderedValues(s, n);
    OpenAtMost(s, n, s[n - 1].value, s[n].value);
    SortedCounts(Endpoints(xs), s[n - 1].value);
    SortedCounts(Endpoints(xs), s[n].value);
    EndpointCounts(xs, s[n - 1].value);
    EndpointCounts(xs, s[n].value);
    CoveringAtLeast(xs, s[n - 1].value, s[n].value);
  }

  /** Whatever contains a point is counted at some endpoint but the last. */
  lemma PointCounted(xs: seq<Interval>, s: seq<Endpoint>, x: int) returns (n: nat)
    requires s == Sorted(Endpoints(xs)) && Proper(xs) && Containing(xs, x) > 0
    ensures 0 < n < |s| && Depth(s, n) == Containing(xs, x) && s[n - 1].value <= x <= s[n].value
  {
    SortedInOrder(Endpoints(xs));
    n := PositionOf(s, x);
    OpenExactly(s, n, x);
    SortedCounts(Endpoints(xs), x);
    EndpointCounts(xs, x);
    ContainingExactly(xs, x);
    if n == |s| {
      NothingAbove(xs, s, x);
    }
    assert s[..0] == [];
  }

  lemma SortedKeeps(s: seq<Endpoint>, e: Endpoint)
    requires e in s
    ensures e in Sorted(s)
  {
    SortedPermutes(s);
    assert e in multiset(Sorted(s));
  }

  lemma {:induction false} SomeContains(xs: seq<Interval>, x: int) returns (i: nat)
    requires Containing(xs, x) > 0
    ensures i < |xs| && xs[i].lower <= x <= xs[i].upper
  {
    var k := |xs| - 1;
    if xs[k].lower <= x <= xs[k].upper {
      i := k;
    } else {
      i := SomeContains(xs[..k], x);
    }
  }

  lemma {:induction false} EndpointsHave(xs: seq<Interval>, i: nat)
    requires i < |xs|
    ensures Endpoint(xs[i].upper, false, i) in Endpoints(xs)
  {
    if i == |xs| - 1 {
      assert Endpoints(xs)[2 * i + 1] == Endpoint(xs[i].upper, false, i);
    } else {
      EndpointsHave(xs[..|xs| - 1], i);
    }
  }

  /** A point inside an interval has the interval's upper end after it. */
  lemma NothingAbove(xs: seq<Interval>, s: seq<Endpoint>, x: int)
    requires s == Sorted(Endpoints(xs)) && Containing(xs, x) > 0
    ensures exists i :: 0 <= i < |s| && !(s[i].value < x || (s[i].value == x && s[i].lower))
  {
    var i := SomeContains(xs, x);
    EndpointsHave(xs, i);
    SortedKeeps(Endpoints(xs), Endpoint(xs[i].upper, false, i));
  }

  // ---- the loops -------------------------------------------------------------------------------------------

  datatype Agreed = Agreed(lower: int, upper: int, overlap: nat, excluded: int, tolerance: nat)

  /** `signedWidth` */
  function Width(lower: int, upper: int): (w: int) {
    if upper < lower then UINT64_MAX else upper - lower
  }

  /** The running count after `n` endpoints. */
  function Depth(s: seq<Endpoint>, n: nat): (d: int)
    requires n <= |s|
  {
    Open(s[..n])
  }

  lemma DepthNext(s: seq<Endpoint>, n: nat)
    requires n < |s|
    ensures Depth(s, 0) == 0 && Depth(s, n + 1) == Depth(s, n) + if s[n].lower then 1 else -1
  {
    assert s[..n + 1][..n] == s[..n] && s[..0] == [];
  }

  /** The width of the segment between endpoints `n - 1` and `n`. */
  function SegmentWidth(s: seq<Endpoint>, n: nat): (w: int)
    requires 0 < n < |s|
  {
    Width(s[n - 1].value, s[n].value)
  }

  predicate IsSegment(s: seq<Endpoint>, n: nat, overlap: int, lower: int, upper: int) {
    0 < n < |s| && Depth(s, n) == overlap && s[n - 1].value == lower && s[n].value == upper
  }

  /** Up to `end`, nothing is deeper than `overlap`, and nothing as deep is narrower than `width`. */
  predicate BestUpTo(s: seq<Endpoint>, end: nat, overlap: int, width: int) {
    forall n :: 0 < n < |s| && n <= end ==> Depth(s, n) <= overlap && (Depth(s, n) == overlap > 0 ==> width <= SegmentWidth(s, n))
  }

  /** The sweep of `interval`: the deepest segment, and among those the narrowest. */
  method Sweep(s: seq<Endpoint>) returns (overlap: int, lower: int, upper: int)
    ensures overlap >= 0 && (overlap > 0 ==> exists n: nat :: IsSegment(s, n, overlap, lower, upper))
    ensures overlap > 0 ==> BestUpTo(s, |s|, overlap, Width(lower, upper))
    ensures forall n :: 0 < n < |s| ==> Depth(s, n) <= overlap
  {
    hide Depth, Width;
    var running := 0;
    overlap, lower, upper := 0, 0, 0;
    var best := UINT64_MAX;
    var index := 0;
    if |s| > 0 { DepthNext(s, 0); }
    while index + 1 < |s|
      invariant 0 <= index && (index < |s| || index == 0)
      invariant |s| > 0 ==> running == Depth(s, index)
      invariant overlap >= 0
      invariant overlap > 0 ==> best == Width(lower, upper) && exists n: nat :: IsSegment(s, n, overlap, lower, upper)
      invariant BestUpTo(s, index, overlap, best)
    {
      DepthNext(s, index);
      if s[index].lower {
        running := running + 1;
      } else {
        running := running - 1;
      }
      var width := Width(s[index].value, s[index + 1].value);
      if running > overlap || (running == overlap && width < best) {
        overlap, lower, upper, best := running, s[index].value, s[index + 1].value, width;
        assert IsSegment(s, index + 1, overlap, lower, upper);
      }
      index := index + 1;
    }
  }

  /** The stretch is the deepest; every point as deep lies in a stretch that is no narrower. */
  ghost predicate DeepestStretch(xs: seq<Interval>, a: Agreed) {
    && Covering(xs, a.lower, a.upper) == a.overlap && a.lower <= a.upper
    && (forall x :: Containing(xs, x) <= a.overlap)
    && forall x :: Containing(xs, x) == a.overlap ==> InDeepStretch(xs, a, x)
  }

  ghost predicate InDeepStretch(xs: seq<Interval>, a: Agreed, x: int) {
    exists lower, upper :: lower <= x <= upper && upper - lower >= a.upper - a.lower && Covering(xs, lower, upper) == a.overlap
  }

  lemma DeepSegment(xs: seq<Interval>, s: seq<Endpoint>, a: Agreed, x: int)
    requires s == Sorted(Endpoints(xs)) && Proper(xs) && a.overlap > 0 && a.lower <= a.upper
    requires BestUpTo(s, |s|, a.overlap, Width(a.lower, a.upper)) && Containing(xs, x) == a.overlap
    requires forall y :: Containing(xs, y) <= a.overlap
    ensures InDeepStretch(xs, a, x)
  {
    hide Sorted, Covering;
    var n := PointCounted(xs, s, x);
    SegmentCovered(xs, s, n);
    CoveringContains(xs, s[n - 1].value, s[n].value);
    assert Containing(xs, s[n - 1].value) <= a.overlap;
  }

  /** `interval` on the sources' intervals: succeeds exactly if some point lies in a quorum of them. */
  method Agree(xs: seq<Interval>, quorum: nat, tolerance: nat) returns (r: Option<Agreed>)
    requires Proper(xs) && quorum > 0
    ensures r.Some? <==> exists x :: Containing(xs, x) >= quorum
    ensures r.Some? ==>
      var a := r.value;
      && a.overlap >= quorum && DeepestStretch(xs, a)
      && a.excluded == |xs| - a.overlap && a.tolerance == tolerance
  {
    hide Containing, Covering, Sorted, Depth, Width, BestUpTo, IsSegment;
    if |xs| < quorum {
      TooFew(xs);
      return None;
    }
    var endpoints := new Endpoint[2 * |xs|];
    Gather(endpoints, xs);
    InsertionSort(endpoints);
    var s := endpoints[..];
    var overlap, lower, upper := Sweep(s);
    DeepestIsMaximum(xs, s, overlap);
    if overlap < quorum {
      return None;
    }
    SegmentResult(xs, s, overlap, lower, upper);
    r := Some(Agreed(lower, upper, overlap, |xs| - overlap, tolerance));
    forall x | Containing(xs, x) == overlap
      ensures InDeepStretch(xs, r.value, x)
    {
      DeepSegment(xs, s, r.value, x);
    }
  }

  lemma TooFew(xs: seq<Interval>)
    ensures forall x :: Containing(xs, x) <= |xs|
  {
  }

  lemma DeepestIsMaximum(xs: seq<Interval>, s: seq<Endpoint>, overlap: int)
    requires s == Sorted(Endpoints(xs)) && Proper(xs) && overlap >= 0 && forall n :: 0 < n < |s| ==> Depth(s, n) <= overlap
    ensures forall x :: Containing(xs, x) <= overlap
  {
    hide Containing, Sorted;
    forall x
      ensures Containing(xs, x) <= overlap
    {
      if Containing(xs, x) > 0 {
        var n := PointCounted(xs, s, x);
      }
    }
  }

  method Gather(a: array<Endpoint>, xs: seq<Interval>)
    requires a.Length == 2 * |xs|
    modifies a
    ensures a[..] == Endpoints(xs)
  {
    var source := 0;
    while source < |xs|
      invariant source <= |xs| && a[..2 * source] == Endpoints(xs[..source])
    {
      assert xs[..source + 1][..source] == xs[..source];
      a[2 * source] := Endpoint(xs[source].lower, true, source);
      a[2 * source + 1] := Endpoint(xs[source].upper, false, source);
      assert a[..2 * (source + 1)] ==
             a[..2 * source] + [Endpoint(xs[source].lower, true, source), Endpoint(xs[source].upper, false, source)];
      source := source + 1;
    }
    assert xs[..|xs|] == xs && a[..2 * |xs|] == a[..];
  }

  lemma {:induction false} OpenAtLeast(s: seq<Endpoint>, n: nat, x: int, y: int)
    requires n <= |s| && (forall i :: n <= i < |s| ==> !(s[i].lower && s[i].value <= x))
    requires forall i :: 0 <= i < n ==> s[i].lower || s[i].value < y
    ensures Open(s[..n]) >= Begun(s, x) - Ended(s, y)
    decreases |s|
  {
    if s == [] {
      return;
    }
    var t := s[..|s| - 1];
    if n < |s| {
      assert t[..n] == s[..n];
      OpenAtLeast(t, n, x, y);
    } else {
      assert s[..n] == s && s[..n][..n - 1] == t && t[..n - 1] == t;
      OpenAtLeast(t, n - 1, x, y);
    }
  }

  lemma {:induction false} EndsAfterBegins(xs: seq<Interval>, x: int)
    requires Proper(xs)
    ensures LowerBelow(xs, x) >= UpperBelow(xs, x + 1)
  {
    if xs != [] { EndsAfterBegins(xs[..|xs| - 1], x); }
  }

  /** The running count, eight bits wide in the source, never goes below zero. */
  lemma OpenNonNegative(xs: seq<Interval>, s: seq<Endpoint>, n: nat)
    requires s == Sorted(Endpoints(xs)) && Proper(xs) && 0 < n <= |s|
    ensures Depth(s, n) >= 0
  {
    var e := s[n - 1];
    var x := if e.lower then e.value - 1 else e.value;
    SortedInOrder(Endpoints(xs));
    forall i | n <= i < |s|
      ensures !(s[i].lower && s[i].value <= x)
    {
      assert !Less(s[i], e);
    }
    forall i | 0 <= i < n
      ensures s[i].lower || s[i].value < x + 1
    {
      if i < n - 1 { assert !Less(e, s[i]); }
    }
    OpenAtLeast(s, n, x, x + 1);
    SortedCounts(Endpoints(xs), x);
    SortedCounts(Endpoints(xs), x + 1);
    EndpointCounts(xs, x);
    EndpointCounts(xs, x + 1);
    EndsAfterBegins(xs, x);
  }

  lemma SegmentResult(xs: seq<Interval>, s: seq<Endpoint>, overlap: int, lower: int, upper: int)
    requires s == Sorted(Endpoints(xs)) && overlap > 0 && exists n: nat :: IsSegment(s, n, overlap, lower, upper)
    requires forall x :: Containing(xs, x) <= overlap
    ensures Covering(xs, lower, upper) == overlap == Containing(xs, lower) && lower <= upper
  {
    var n: nat :| IsSegment(s, n, overlap, lower, upper);
    SortedInOrder(Endpoints(xs));
    assert !Less(s[n], s[n - 1]);
    SegmentCovered(xs, s, n);
    CoveringContains(xs, lower, upper);
    assert Containing(xs, lower) <= overlap;
  }

  lemma {:induction false} CoveringContains(xs: seq<Interval>, lower: int, upper: int)
    requires lower <= upper
    ensures Covering(xs, lower, upper) <= Containing(xs, lower)
  {
    if xs != [] { CoveringContains(xs[..|xs| - 1], lower, upper); }
  }

  // ---- the least tolerance ------------------------------------------------------------------------------------

  /** How many samples are near both ends of [lower, upper], and so near every point of it. */
  function NearBoth(samples: seq<Sample>, tolerance: nat, lower: int, upper: int): (n: nat) {
    if samples == [] then 0
    else
      var last := samples[|samples| - 1];
      NearBoth(samples[..|samples| - 1], tolerance, lower, upper)
      + if Near(last, tolerance, lower) && Near(last, tolerance, upper) then 1 else 0
  }

  /** Some point is near a quorum of the samples. */
  ghost predicate Reaches(samples: seq<Sample>, tolerance: nat, quorum: nat) {
    exists x :: NearBoth(samples, tolerance, x, x) >= quorum
  }

  /** Counting intervals that cover a stretch is counting samples near both of its ends. */
  lemma {:induction false} CoveringIsNear(samples: seq<Sample>, tolerance: nat, lower: int, upper: int)
    requires ValidSamples(samples) && tolerance <= UINT64_MAX && lower <= upper
    ensures Covering(Intervals(samples, tolerance), lower, upper) == NearBoth(samples, tolerance, lower, upper)
  {
    if samples != [] {
      var k := |samples| - 1;
      hide Near, IntervalOf;
      assert Intervals(samples, tolerance)[..k] == Intervals(samples[..k], tolerance);
      CoveringIsNear(samples[..k], tolerance, lower, upper);
      IntervalHolds(samples[k], tolerance, lower);
      IntervalHolds(samples[k], tolerance, upper);
      assert IntervalOf(samples[k], tolerance).lower <= lower && upper <= IntervalOf(samples[k], tolerance).upper <==>
             Near(samples[k], tolerance, lower) && Near(samples[k], tolerance, upper);
    }
  }

  /** A wider tolerance is near to no fewer samples. */
  lemma {:induction false} NearWidens(samples: seq<Sample>, a: nat, b: nat, x: int)
    requires a <= b
    ensures NearBoth(samples, a, x, x) <= NearBoth(samples, b, x, x)
  {
    if samples != [] { NearWidens(samples[..|samples| - 1], a, b, x); }
  }

  predicate ValidSamples(samples: seq<Sample>) {
    forall i :: 0 <= i < |samples| ==> ValidSample(samples[i])
  }

  /** A quorum that meets within one tolerance meets within every larger one. */
  lemma ReachesMonotone(samples: seq<Sample>, a: nat, b: nat, quorum: nat)
    requires a <= b && Reaches(samples, a, quorum)
    ensures Reaches(samples, b, quorum)
  {
    var x :| NearBoth(samples, a, x, x) >= quorum;
    NearWidens(samples, a, b, x);
  }

  /** The stretch is near `overlap` samples throughout, no point is near more, and every point near as many lies in
      a stretch that is no narrower. */
  ghost predicate Narrowest(samples: seq<Sample>, a: Agreed) {
    && NearBoth(samples, a.tolerance, a.lower, a.upper) == a.overlap && a.lower <= a.upper
    && (forall x :: NearBoth(samples, a.tolerance, x, x) <= a.overlap)
    && forall x :: NearBoth(samples, a.tolerance, x, x) == a.overlap ==> InWiderStretch(samples, a, x)
  }

  ghost predicate InWiderStretch(samples: seq<Sample>, a: Agreed, x: int) {
    exists lower, upper :: lower <= x <= upper && upper - lower >= a.upper - a.lower
                           && NearBoth(samples, a.tolerance, lower, upper) == a.overlap
  }

  /** The tolerances `install` may try: the maximum halved some number of times. */
  function Halved(maximum: nat, k: nat): (r: nat) {
    if k == 0 then maximum else Halved(maximum, k - 1) / 2
  }

  lemma NarrowestOfIntervals(samples: seq<Sample>, a: Agreed)
    requires ValidSamples(samples) && a.tolerance <= UINT64_MAX && DeepestStretch(Intervals(samples, a.tolerance), a)
    ensures Narrowest(samples, a)
  {
    hide Covering, Intervals, NearBoth;
    var xs := Intervals(samples, a.tolerance);
    CoveringIsNear(samples, a.tolerance, a.lower, a.upper);
    forall x
      ensures NearBoth(samples, a.tolerance, x, x) <= a.overlap
      ensures NearBoth(samples, a.tolerance, x, x) == a.overlap ==> InWiderStretch(samples, a, x)
    {
      CoveringIsNear(samples, a.tolerance, x, x);
      assert Containing(xs, x) <= a.overlap;
      if Containing(xs, x) == a.overlap {
        assert InDeepStretch(xs, a, x);
        var lower, upper :| lower <= x <= upper && upper - lower >= a.upper - a.lower && Covering(xs, lower, upper) == a.overlap;
        CoveringIsNear(samples, a.tolerance, lower, upper);
      }
    }
  }

  /** `interval` on the samples: succeeds exactly if some point is near a quorum of them. */
  method AgreeWithin(samples: seq<Sample>, quorum: nat, tolerance: nat) returns (r: Option<Agreed>)
    requires ValidSamples(samples) && quorum > 0 && tolerance <= UINT64_MAX
    ensures r.Some? <==> Reaches(samples, tolerance, quorum)
    ensures r.Some? ==>
      && r.value.tolerance == tolerance && r.value.overlap >= quorum && r.value.excluded == |samples| - r.value.overlap
      && Narrowest(samples, r.value)
  {
    hide Covering, NearBoth, IntervalOf, Near, Narrowest, DeepestStretch;
    var xs := Intervals(samples, tolerance);
    forall i | 0 <= i < |samples|
      ensures xs[i].lower <= xs[i].upper
    {
      IntervalWidens(samples[i], tolerance, tolerance);
    }
    r := Agree(xs, quorum, tolerance);
    forall x
      ensures Containing(xs, x) == NearBoth(samples, tolerance, x, x)
    {
      CoveringIsNear(samples, tolerance, x, x);
    }
    if r.Some? { NarrowestOfIntervals(samples, r.value); }
  }

  /**
    The halving loop of `install`: succeeds exactly if some point is near a
    quorum of the samples within the largest tolerance, and then installs the
    least of the halved tolerances for which one is, with its narrowest deepest
    stretch; no tolerance up to half of it would do.
   */
  method Install(samples: seq<Sample>, quorum: nat, toleranceMax: nat) returns (r: Option<Agreed>)
    requires ValidSamples(samples) && quorum > 0 && toleranceMax <= UINT64_MAX
    ensures r.Some? <==> Reaches(samples, toleranceMax, quorum)
    ensures r.Some? ==>
      var t := r.value.tolerance;
      && (exists k :: 0 <= k <= 64 && t == Halved(toleranceMax, k)) && Reaches(samples, t, quorum)
      && (t > 0 ==> forall a: nat :: a <= t / 2 ==> !Reaches(samples, a, quorum))
      && r.value.overlap >= quorum && r.value.excluded == |samples| - r.value.overlap && Narrowest(samples, r.value)
  {
    hide Reaches, Narrowest;
    var tolerance := toleranceMax;
    r := AgreeWithin(samples, quorum, tolerance);
    if r.None? {
      return;
    }
    var round := 0;
    assert Pow2(64) > toleranceMax by { Pow2Of64(); }
    while round < 64 && tolerance > 0
      invariant round <= 64 && tolerance <= toleranceMax && tolerance == Halved(toleranceMax, round) < Pow2(64 - round)
      invariant r.Some? && r.value.tolerance == tolerance && Reaches(samples, tolerance, quorum)
      invariant r.value.overlap >= quorum && r.value.excluded == |samples| - r.value.overlap && Narrowest(samples, r.value)
    {
      var next := tolerance / 2;
      var candidate := AgreeWithin(samples, quorum, next);
      if candidate.None? {
        forall a: nat | a <= next
          ensures !Reaches(samples, a, quorum)
        {
          if Reaches(samples, a, quorum) { ReachesMonotone(samples, a, next, quorum); }
        }
        return;
      }
      r, tolerance := candidate, next;
      round := round + 1;
    }
  }

}
