/**
  Selection of the canonical suffix from a set of JoinView records
  (replication/view_change.go).  The new primary walks upward from the highest
  op that some join proves committed.  At every op it either keeps the
  candidate header or, when a negative quorum of joins disowns the op, cuts the
  log below it.
 */
module Selection {
  import opened Chains
  import opened Quorums

  /** One validated JoinView record; `headers[i]` is the header at op `head - i`. */
  datatype Join = Join(
    head: nat, commit: nat, checkpoint: nat, logView: nat,
    headers: seq<Option<Chain>>, present: seq<bool>, nack: seq<bool>)

  /** What `recordJoinView` checks before it keeps a record. */
  predicate ValidJoin(j: Join, pipelineMax: nat) {
    && 1 <= |j.headers| <= pipelineMax + 1
    && |j.present| == |j.headers| == |j.nack|
    && |j.headers| - 1 <= j.head
    && j.checkpoint <= j.commit <= j.head
    && forall i :: 0 <= i < |j.headers| && j.headers[i].Some? ==> |j.headers[i].value| == j.head - i
  }

  /** Indexed by sender; `None` for a sender that has not joined. */
  type Joins = seq<Option<Join>>

  predicate ValidJoins(js: Joins, pipelineMax: nat) {
    forall i :: 0 <= i < |js| && js[i].Some? ==> ValidJoin(js[i].value, pipelineMax)
  }

  /** The primary's own progress, which also bounds the walk from below. */
  datatype Own = Own(commitMin: nat, commitMax: nat, checkpoint: nat)

  function InWindow(j: Join, op: nat): (r: bool) {
    op <= j.head && j.head - op < |j.headers|
  }

  function HeaderAt(j: Option<Join>, op: nat): (r: Option<Chain>) {
    if j.Some? && InWindow(j.value, op) then j.value.headers[j.value.head - op] else None
  }

  function CommittedBound(j: Join, pipelineMax: nat): (r: nat)
    requires ValidJoin(j, pipelineMax)
  {
    var window := Max(Max(j.commit, j.checkpoint), j.head - (|j.headers| - 1));
    var pipeline := if j.head > pipelineMax then Max(window, j.head - pipelineMax) else window;
    if j.headers[0].Some? then Max(pipeline, CommitOf(j.headers[0].value)) else pipeline
  }

  function OwnBound(own: Own): (r: nat) {
    Max(Max(own.commitMin, own.commitMax), own.checkpoint)
  }

  /** The highest op the joins and the primary itself prove committed. */
  function Bound(js: Joins, own: Own, pipelineMax: nat): (r: nat)
    requires ValidJoins(js, pipelineMax)
  {
    if |js| == 0 then OwnBound(own)
    else
      var init := js[..|js| - 1];
      assert forall i :: 0 <= i < |init| ==> init[i] == js[i];
      var rest := Bound(init, own, pipelineMax);
      var last := js[|js| - 1];
      if last.Some? then Max(rest, CommittedBound(last.value, pipelineMax)) else rest
  }

  function MaximumHead(js: Joins, checkpoint: nat): (r: nat)
  {
    if |js| == 0 then checkpoint
    else
      var init := js[..|js| - 1];
      var rest := MaximumHead(init, checkpoint);
      var last := js[|js| - 1];
      if last.Some? then Max(rest, last.value.head) else rest
  }

  /** The latest log view any join reports. */
  function Latest(js: Joins): (r: nat)
  {
    if |js| == 0 then 0
    else
      var init := js[..|js| - 1];
      var rest := Latest(init);
      var last := js[|js| - 1];
      if last.Some? then Max(rest, last.value.logView) else rest
  }

  lemma {:induction false} BoundIsMaximum(js: Joins, own: Own, pipelineMax: nat)
    requires ValidJoins(js, pipelineMax)
    ensures var r := Bound(js, own, pipelineMax);
      && OwnBound(own) <= r
      && (forall i :: 0 <= i < |js| && js[i].Some? ==> CommittedBound(js[i].value, pipelineMax) <= r)
      && (r == OwnBound(own) || exists i :: 0 <= i < |js| && js[i].Some? && r == CommittedBound(js[i].value, pipelineMax))
  {
    hide CommittedBound, OwnBound, ValidJoin;
    if |js| > 0 {
      var init := js[..|js| - 1];
      assert forall i :: 0 <= i < |init| ==> init[i] == js[i];
      BoundIsMaximum(init, own, pipelineMax);
    }
  }

  lemma {:induction false} HeadIsMaximum(js: Joins, checkpoint: nat)
    ensures checkpoint <= MaximumHead(js, checkpoint)
    ensures forall i :: 0 <= i < |js| && js[i].Some? ==> js[i].value.head <= MaximumHead(js, checkpoint)
    ensures MaximumHead(js, checkpoint) == checkpoint
            || exists i :: 0 <= i < |js| && js[i].Some? && MaximumHead(js, checkpoint) == js[i].value.head
  {
    if |js| > 0 {
      var init := js[..|js| - 1];
      assert forall i :: 0 <= i < |init| ==> init[i] == js[i];
      HeadIsMaximum(init, checkpoint);
    }
  }

  lemma {:induction false} LatestIsMaximum(js: Joins)
    ensures forall i :: 0 <= i < |js| && js[i].Some? ==> js[i].value.logView <= Latest(js)
    ensures Latest(js) == 0 || exists i :: 0 <= i < |js| && js[i].Some? && Latest(js) == js[i].value.logView
  {
    if |js| > 0 {
      var init := js[..|js| - 1];
      assert forall i :: 0 <= i < |init| ==> init[i] == js[i];
      LatestIsMaximum(init);
    }
  }

  // ---- candidates ------------------------------------------------------

  datatype Pick = Conflict | Pick(found: bool, header: Chain, log: nat)

  /** Sender `i` offers a header at `op`; above the bound only the latest log view may. */
  predicate Offers(js: Joins, i: nat, op: nat, latest: nat, bound: nat)
    requires i < |js|
  {
    && HeaderAt(js[i], op).Some?
    && (js[i].value.logView == latest || op <= bound)
  }

  /** Two senders of the latest log view hold different headers of one view. */
  predicate Clash(js: Joins, i: nat, j: nat, op: nat, latest: nat)
    requires i < |js| && j < |js|
  {
    && HeaderAt(js[i], op).Some? && HeaderAt(js[j], op).Some?
    && js[i].value.logView == latest && js[j].value.logView == latest
    && ViewOf(HeaderAt(js[i], op).value) == ViewOf(HeaderAt(js[j], op).value)
    && HeaderAt(js[i], op) != HeaderAt(js[j], op)
  }

  /** Folding sender `i` into the choice made among the senders before it. */
  function PickStep(js: Joins, i: nat, op: nat, latest: nat, bound: nat, p: Pick): (r: Pick)
    requires i < |js|
  {
    if p.Conflict? || !Offers(js, i, op, latest, bound) then p
    else
      var header := HeaderAt(js[i], op).value;
      var log := js[i].value.logView;
      if exists j: nat :: j < i && Clash(js, j, i, op, latest) then Conflict
      else if !p.found || log > p.log || (log == p.log && ViewOf(header) > ViewOf(p.header)) then
        Pick(true, header, log)
      else if log == p.log && ViewOf(header) == ViewOf(p.header) && header != p.header then Conflict
      else p
  }

  function PickUpTo(js: Joins, n: nat, op: nat, latest: nat, bound: nat): (r: Pick)
    requires n <= |js|
  {
    if n == 0 then Pick(false, [], 0)
    else PickStep(js, n - 1, op, latest, bound, PickUpTo(js, n - 1, op, latest, bound))
  }

  /** `canonicalCandidate` */
  function Candidate(js: Joins, op: nat, bound: nat): (r: Pick) {
    PickUpTo(js, |js|, op, Latest(js), bound)
  }

  // ---- evidence --------------------------------------------------------

  function Wanted(p: Pick): (r: Option<Chain>) {
    if p.Pick? && p.found then Some(p.header) else None
  }

  /** Sender `i` disowns `op`. */
  predicate Disowns(js: Joins, i: nat, op: nat, wanted: Option<Chain>, latest: nat)
    requires i < |js|
    requires js[i].Some? ==> |js[i].value.nack| == |js[i].value.headers|
  {
    js[i].Some? &&
    var j := js[i].value;
    if !InWindow(j, op) then true
    else if j.nack[j.head - op] then true
    else
      var header := HeaderAt(js[i], op);
      && header.Some? && j.logView < latest
      && if wanted.Some? then header != wanted else ViewOf(header.value) < latest
  }

  /** Sender `i` still has the wanted prepare. */
  predicate HasCopy(js: Joins, i: nat, op: nat, wanted: Option<Chain>)
    requires i < |js|
    requires js[i].Some? ==> |js[i].value.present| == |js[i].value.headers|
  {
    && wanted.Some? && HeaderAt(js[i], op) == wanted
    && js[i].value.present[js[i].value.head - op]
  }

  function Negatives(js: Joins, op: nat, wanted: Option<Chain>, latest: nat, pipelineMax: nat): (r: set<nat>)
    requires ValidJoins(js, pipelineMax)
  {
    set i: nat | i in Members(|js|) && Disowns(js, i, op, wanted, latest)
  }

  function Copies(js: Joins, op: nat, wanted: Option<Chain>, pipelineMax: nat): (r: set<nat>)
    requires ValidJoins(js, pipelineMax)
  {
    set i: nat | i in Members(|js|) && HasCopy(js, i, op, wanted)
  }

  // ---- the walk --------------------------------------------------------

  /** The op is cut: enough joins disown it and nothing proves it committed. */
  predicate Cut(js: Joins, op: nat, bound: nat, negative: nat, pipelineMax: nat)
    requires ValidJoins(js, pipelineMax)
  {
    && op > bound
    && |Negatives(js, op, Wanted(Candidate(js, op, bound)), Latest(js), pipelineMax)| >= negative
  }

  /** The op is kept: there is one candidate and a copy of it to repair from. */
  predicate Kept(js: Joins, op: nat, bound: nat, pipelineMax: nat)
    requires ValidJoins(js, pipelineMax)
  {
    var p := Candidate(js, op, bound);
    p.Pick? && p.found && Copies(js, op, Wanted(p), pipelineMax) != {}
  }

  /** Headers from `bound` upward, given those already kept below `op`. */
  function Walk(js: Joins, bound: nat, negative: nat, pipelineMax: nat, maximum: nat, kept: seq<Chain>): (r: Option<seq<Chain>>)
    requires ValidJoins(js, pipelineMax)
    decreases maximum + 1 - (bound + |kept|)
  {
    var op := bound + |kept|;
    if op > maximum then Some(kept)
    else if Candidate(js, op, bound).Conflict? then None
    else if Cut(js, op, bound, negative, pipelineMax) then Some(kept)
    else if !Kept(js, op, bound, pipelineMax) then None
    else
      var header := Candidate(js, op, bound).header;
      if kept != [] && !IsParent(kept[|kept| - 1], header) then None
      else Walk(js, bound, negative, pipelineMax, maximum, kept + [header])
  }

  /** `headers` runs upward from `commit`; its last element is the new head. */
  datatype Suffix = Unresolved | Suffix(commit: nat, headers: seq<Chain>)

  /** `selectCanonicalSuffix` */
  function Select(js: Joins, own: Own, negative: nat, pipelineMax: nat): (r: Suffix)
    requires ValidJoins(js, pipelineMax)
  {
    var bound := Bound(js, own, pipelineMax);
    var maximum := MaximumHead(js, own.checkpoint);
    if bound > maximum || maximum - bound >= pipelineMax + 1 then Unresolved
    else
      match Walk(js, bound, negative, pipelineMax, maximum, [])
      case None => Unresolved
      case Some(headers) => Suffix(bound, headers)
  }
}
