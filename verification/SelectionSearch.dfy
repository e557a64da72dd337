/** The loops by which the new primary computes Selection.Select. */
module SelectionSearch {
  import opened Chains
  import opened Selection

  /** `canonicalLogView` */
  method FindLatest(js: Joins) returns (latest: nat)
    ensures latest == Latest(js)
  {
    latest := 0;
    for i := 0 to |js|
      invariant latest == Latest(js[..i])
    {
      assert js[..i + 1][..i] == js[..i];
      if js[i].Some? && js[i].value.logView > latest {
        latest := js[i].value.logView;
      }
    }
    assert js[..|js|] == js;
  }

  /** The first loop of `selectCanonicalSuffix`: the committed bound and the highest head. */
  method FindBounds(js: Joins, own: Own, pipelineMax: nat) returns (committed: nat, maximum: nat)
    requires ValidJoins(js, pipelineMax)
    ensures committed == Bound(js, own, pipelineMax) && maximum == MaximumHead(js, own.checkpoint)
  {
    hide CommittedBound, ValidJoin;
    maximum := own.checkpoint;
    committed := Max(Max(own.commitMin, own.commitMax), own.checkpoint);
    for i := 0 to |js|
      invariant ValidJoins(js[..i], pipelineMax)
      invariant committed == Bound(js[..i], own, pipelineMax) && maximum == MaximumHead(js[..i], own.checkpoint)
    {
      assert js[..i + 1][..i] == js[..i];
      if js[i].Some? {
        maximum := Max(maximum, js[i].value.head);
        committed := Max(committed, CommittedBound(js[i].value, pipelineMax));
      }
    }
    assert js[..|js|] == js;
  }

  /** The inner loop of `canonicalCandidate`: an earlier sender of the latest log view that disagrees. */
  method FindClash(js: Joins, sender: nat, op: nat, latest: nat) returns (clash: bool)
    requires sender < |js|
    ensures clash <==> exists other: nat :: other < sender && Clash(js, other, sender, op, latest)
  {
    clash := false;
    for other := 0 to sender
      invariant clash <==> exists k: nat :: k < other && Clash(js, k, sender, op, latest)
    {
      if Clash(js, other, sender, op, latest) {
        clash := true;
      }
    }
  }

  /** `canonicalCandidate` */
  method FindCandidate(js: Joins, op: nat, bound: nat) returns (found: bool, selected: Chain, conflict: bool)
    ensures conflict <==> Candidate(js, op, bound).Conflict?
    ensures !conflict ==> found == Candidate(js, op, bound).found && (found ==> selected == Candidate(js, op, bound).header)
  {
    var latest := FindLatest(js);
    found, selected, conflict := false, [], false;
    var selectedLog := 0;
    var sender := 0;
    while sender < |js|
      invariant sender <= |js| && !conflict
      invariant PickUpTo(js, sender, op, latest, bound) == Pick(found, selected, selectedLog)
    {
      var header := HeaderAt(js[sender], op);
      if header.Some? && (js[sender].value.logView == latest || op <= bound) {
        var log := js[sender].value.logView;
        var clash := false;
        if log == latest {
          clash := FindClash(js, sender, op, latest);
        }
        if clash {
          ConflictStays(js, sender + 1, |js|, op, latest, bound);
          conflict := true;
          return;
        }
        assert !exists k: nat :: k < sender && Clash(js, k, sender, op, latest);
        if !found || log > selectedLog || (log == selectedLog && ViewOf(header.value) > ViewOf(selected)) {
          found, selected, selectedLog := true, header.value, log;
        } else if log == selectedLog && ViewOf(header.value) == ViewOf(selected) && header.value != selected {
          ConflictStays(js, sender + 1, |js|, op, latest, bound);
          conflict := true;
          return;
        }
      }
      sender := sender + 1;
    }
  }

  lemma {:induction false} ConflictStays(js: Joins, m: nat, n: nat, op: nat, latest: nat, bound: nat)
    requires m <= n <= |js| && PickUpTo(js, m, op, latest, bound).Conflict?
    ensures PickUpTo(js, n, op, latest, bound).Conflict?
    decreases n
  {
    if m < n { ConflictStays(js, m, n - 1, op, latest, bound); }
  }

  /** One sender's part in `canonicalEvidence`. */
  method CheckDisowns(js: Joins, sender: nat, op: nat, wanted: Option<Chain>, latest: nat, pipelineMax: nat) returns (disowns: bool)
    requires ValidJoins(js, pipelineMax) && sender < |js|
    ensures disowns <==> Disowns(js, sender, op, wanted, latest)
  {
    if js[sender].None? {
      return false;
    }
    var j := js[sender].value;
    if j.head < op || j.head - op >= |j.headers| {
      return true;
    }
    if j.nack[j.head - op] {
      return true;
    }
    var header := j.headers[j.head - op];
    if header.None? || j.logView >= latest {
      return false;
    }
    return (wanted.Some? && header != wanted) || (wanted.None? && ViewOf(header.value) < latest);
  }

  /** `canonicalEvidence` */
  method CountEvidence(js: Joins, op: nat, wanted: Option<Chain>, pipelineMax: nat) returns (negatives: nat, copies: nat)
    requires ValidJoins(js, pipelineMax)
    ensures negatives == |Negatives(js, op, wanted, Latest(js), pipelineMax)|
    ensures copies == |Copies(js, op, wanted, pipelineMax)|
  {
    hide Disowns, HasCopy, Latest;
    var latest := FindLatest(js);
    negatives, copies := 0, 0;
    ghost var disowned: set<nat>, held: set<nat> := {}, {};
    for sender := 0 to |js|
      invariant negatives == |disowned| && copies == |held|
      invariant forall i: nat :: i in disowned <==> i < sender && Disowns(js, i, op, wanted, latest)
      invariant forall i: nat :: i in held <==> i < sender && HasCopy(js, i, op, wanted)
    {
      if HasCopy(js, sender, op, wanted) {
        copies, held := copies + 1, held + {sender};
      }
      var disowns := CheckDisowns(js, sender, op, wanted, latest, pipelineMax);
      if disowns {
        negatives, disowned := negatives + 1, disowned + {sender};
      }
    }
    assert disowned == Negatives(js, op, wanted, latest, pipelineMax);
    assert held == Copies(js, op, wanted, pipelineMax);
  }

  /** The last loop of `selectCanonicalSuffix`: the run is turned round in place, head first. */
  method ReverseFront(a: array<Chain>, count: nat)
    requires count <= a.Length
    modifies a
    ensures forall k :: 0 <= k < count ==> a[k] == old(a[count - 1 - k])
    ensures forall k :: count <= k < a.Length ==> a[k] == old(a[k])
  {
    var left := 0;
    while left < count / 2
      invariant 0 <= left <= count / 2
      invariant forall k :: 0 <= k < left ==> a[k] == old(a[count - 1 - k]) && a[count - 1 - k] == old(a[k])
      invariant forall k :: left <= k < count - left ==> a[k] == old(a[k])
      invariant forall k :: count <= k < a.Length ==> a[k] == old(a[k])
    {
      a[left], a[count - 1 - left] := a[count - 1 - left], a[left];
      left := left + 1;
    }
  }

  /**
    `selectCanonicalSuffix`: resolves exactly when `Select` does, and leaves its
    headers in the buffer from the head down to the committed bound.
   */
  method SelectCanonicalSuffix(js: Joins, own: Own, negative: nat, pipelineMax: nat, buffer: array<Chain>)
    returns (commit: nat, head: nat, count: nat, resolved: bool)
    requires ValidJoins(js, pipelineMax) && buffer.Length == pipelineMax + 1
    modifies buffer
    ensures resolved <==> Select(js, own, negative, pipelineMax).Suffix?
    ensures resolved ==>
      var x := Select(js, own, negative, pipelineMax);
      && commit == x.commit && count == |x.headers| <= buffer.Length && head + 1 == commit + count
      && forall k :: 0 <= k < count ==> buffer[k] == x.headers[count - 1 - k]
  {
    hide Candidate, Negatives, Copies, ValidJoins, IsParent, Bound, MaximumHead;
    commit, head := FindBounds(js, own, pipelineMax);
    count, resolved := 0, false;
    if commit > head || head - commit >= buffer.Length {
      return;
    }
    ghost var maximum := head;
    var done := false;
    var op := commit;
    while op <= head && !done
      invariant op == commit + count <= maximum + 1 && count <= buffer.Length
      invariant !done ==> head == maximum
      invariant done ==> head + 1 == commit + count && Walk(js, commit, negative, pipelineMax, maximum, []) == Some(buffer[..count])
      invariant Walk(js, commit, negative, pipelineMax, maximum, []) == Walk(js, commit, negative, pipelineMax, maximum, buffer[..count])
      decreases maximum + 1 - op, !done
    {
      var found, candidate, conflict := FindCandidate(js, op, commit);
      if conflict {
        return;
      }
      var wanted := if found then Some(candidate) else None;
      assert wanted == Wanted(Candidate(js, op, commit));
      var negatives, copies := CountEvidence(js, op, wanted, pipelineMax);
      if negatives >= negative && op > commit {
        head, done := op - 1, true;
      } else {
        if !found || copies == 0 {
          return;
        }
        if count != 0 && !IsParent(buffer[count - 1], candidate) {
          return;
        }
        ghost var kept := buffer[..count];
        assert count != 0 ==> kept[count - 1] == buffer[count - 1];
        buffer[count] := candidate;
        count := count + 1;
        op := op + 1;
        assert buffer[..count] == kept + [candidate];
      }
    }
    assert Walk(js, commit, negative, pipelineMax, maximum, []) == Some(buffer[..count]);
    ReverseFront(buffer, count);
    resolved := true;
  }
}
