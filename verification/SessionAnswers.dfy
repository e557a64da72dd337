/**
  What a client is told, in terms of the log alone (replication/sessions.go): the
  table holds exactly the clients that were active last, and every request is
  answered by comparing it with the last entry of its client.
 */
module SessionAnswers {
  import opened Chains
  import opened Sessions

  type Entry = Sessions.Entry

  /** The last of the first `n` entries that comes from the client. */
  function LastFrom(log: seq<Entry>, n: nat, c: Client): (r: Option<nat>)
    requires n <= |log|
    ensures r.Some? ==> r.value < n && From(log[r.value], c) && forall j :: r.value < j < n ==> !From(log[j], c)
    ensures r.None? ==> forall j :: 0 <= j < n ==> !From(log[j], c)
  {
    if n == 0 then None else if From(log[n - 1], c) then Some(n - 1) else LastFrom(log, n - 1, c)
  }

  /** The last of the first `n` entries that registers the client. */
  function LastRegister(log: seq<Entry>, n: nat, c: Client): (r: Option<nat>)
    requires n <= |log|
  {
    if n == 0 then None
    else if log[n - 1].Register? && log[n - 1].client == c then Some(n - 1)
    else LastRegister(log, n - 1, c)
  }

  /** The clients with an entry from `a` up to `b`. */
  function ClientsIn(log: seq<Entry>, a: nat, b: nat): (r: set<Client>)
    requires b <= |log|
    ensures forall c :: c in r <==> exists j :: a <= j < b && From(log[j], c)
    decreases b
  {
    if b == 0 || b <= a then {}
    else ClientsIn(log, a, b - 1) + if log[b - 1].System? then {} else {log[b - 1].client}
  }

  /** The client has an entry, and fewer than `capacity` other clients have been active since. */
  predicate Recent(log: seq<Entry>, n: nat, c: Client, capacity: nat)
    requires n <= |log|
  {
    var last := LastFrom(log, n, c);
    last.Some? && |ClientsIn(log, last.value + 1, n)| < capacity
  }

  // ---- which clients have a session ------------------------------------------------------------

  /** A client that has dropped out of the table was last active before every client in it, and the table is full. */
  ghost predicate DroppedOut(log: seq<Entry>, n: nat, t: Table, c: Client, capacity: nat)
    requires n <= |log|
  {
    var last := LastFrom(log, n, c);
    last.Some? && c !in t ==> |t| == capacity && forall d :: d in t ==> t[d].op - 1 > last.value
  }

  ghost predicate Bounded(log: seq<Entry>, n: nat, t: Table, capacity: nat)
    requires n <= |log|
  {
    |t| <= capacity && forall c :: DroppedOut(log, n, t, c, capacity)
  }

  lemma StoredKeySet(t: Table, c: Client, r: Record, capacity: nat)
    ensures Stored(t, c, r, capacity).Keys ==
            if c in t || |t| < capacity || t == map[] then t.Keys + {c} else t.Keys - {Oldest(t)} + {c}
  {
    hide Oldest;
  }

  lemma StoredSize(t: Table, c: Client, r: Record, capacity: nat)
    requires capacity > 0 && |t| <= capacity
    ensures var q := Stored(t, c, r, capacity);
      |q| == if c in t || |t| == capacity then |t| else |t| + 1
  {
    hide Stored, Oldest;
    StoredKeySet(t, c, r, capacity);
    var ks := Stored(t, c, r, capacity).Keys;
    if c in t { assert ks == t.Keys; }
    if t == map[] { assert t.Keys == {}; } else { assert Oldest(t) in t.Keys; }
    assert c !in t ==> c !in t.Keys;
  }

  lemma StoredKeys(t: Table, c: Client, r: Record, capacity: nat)
    requires capacity > 0 && |t| <= capacity
    ensures var q := Stored(t, c, r, capacity);
      && c in q && (forall d :: d in q && d != c ==> d in t)
      && (forall d :: d in t && d !in q ==> |t| == capacity && forall b :: b in t && b != d ==> t[d].op <= t[b].op)
  {
  }

  lemma BoundedStep(log: seq<Entry>, n: nat, t: Table, capacity: nat)
    requires Orderly(log, capacity) && 0 < n <= |log| && capacity > 0
    requires Replay(log, n - 1, capacity) == Some(t) && Bounded(log, n - 1, t, capacity)
    requires forall d :: d in t ==> LastFrom(log, n - 1, d) == Some(t[d].op - 1)
    ensures Replay(log, n, capacity).Some? && Bounded(log, n, Replay(log, n, capacity).value, capacity)
  {
    ReplayStores(log, n, capacity);
    var e := log[n - 1];
    var q := Replay(log, n, capacity).value;
    hide Replay, Orderly, Stored;
    if !e.System? {
      StoredSize(t, e.client, Reply(log, n, t), capacity);
      StoredKeys(t, e.client, Reply(log, n, t), capacity);
    }
    forall c
      ensures DroppedOut(log, n, q, c, capacity)
    {
      assert DroppedOut(log, n - 1, t, c, capacity);
      if e.System? || e.client != c {
        assert LastFrom(log, n, c) == LastFrom(log, n - 1, c);
        if LastFrom(log, n, c).Some? && c !in q {
          forall d | d in q
            ensures q[d].op - 1 > LastFrom(log, n, c).value
          {
            if !e.System? { StoredOthers(t, e.client, Reply(log, n, t), capacity, d); }
            if c in t && d in t && d != c { DistinctOps(log, n - 1, t, c, d); }
          }
        }
      }
    }
  }

  /** Two clients never have the same last entry. */
  lemma DistinctOps(log: seq<Entry>, n: nat, t: Table, c: Client, d: Client)
    requires n <= |log| && c in t && d in t && c != d
    requires LastFrom(log, n, c) == Some(t[c].op - 1) && LastFrom(log, n, d) == Some(t[d].op - 1)
    ensures t[c].op != t[d].op
  {
  }

  lemma RecordIsLast(log: seq<Entry>, n: nat, c: Client, capacity: nat)
    requires Orderly(log, capacity) && n <= |log| && Replay(log, n, capacity).Some? && c in Replay(log, n, capacity).value
    ensures LastFrom(log, n, c) == Some(Replay(log, n, capacity).value[c].op - 1)
  {
    RecordsAreLatest(log, n, c, capacity);
    hide Replay, Orderly;
  }

  lemma {:induction false} TableBounded(log: seq<Entry>, n: nat, capacity: nat)
    requires Orderly(log, capacity) && n <= |log| && capacity > 0
    ensures Replay(log, n, capacity).Some? && Bounded(log, n, Replay(log, n, capacity).value, capacity)
    decreases n
  {
    hide Orderly;
    if n > 0 {
      TableBounded(log, n - 1, capacity);
      var t := Replay(log, n - 1, capacity).value;
      forall d | d in t
        ensures LastFrom(log, n - 1, d) == Some(t[d].op - 1)
      {
        RecordIsLast(log, n - 1, d, capacity);
      }
      BoundedStep(log, n, t, capacity);
    }
  }

  lemma SubsetSize(a: set<Client>, b: set<Client>)
    requires a <= b
    ensures |a| <= |b|
  {
    assert b == a + (b - a);
  }

  /** The table holds exactly the `capacity` clients that were active last. */
  lemma TableIsRecent(log: seq<Entry>, n: nat, c: Client, capacity: nat)
    requires Orderly(log, capacity) && n <= |log| && capacity > 0
    ensures Replay(log, n, capacity).Some? && |Replay(log, n, capacity).value| <= capacity
    ensures c in Replay(log, n, capacity).value <==> Recent(log, n, c, capacity)
  {
    hide Replay, Orderly, LastFrom, ClientsIn;
    TableBounded(log, n, capacity);
    var t := Replay(log, n, capacity).value;
    if c in t {
      RecordIsLast(log, n, c, capacity);
      FewLater(log, n, t, c, capacity);
    } else if LastFrom(log, n, c).Some? {
      assert DroppedOut(log, n, t, c, capacity);
      FullAndLater(log, n, t, LastFrom(log, n, c).value, capacity);
    }
  }

  lemma FewLater(log: seq<Entry>, n: nat, t: Table, c: Client, capacity: nat)
    requires n <= |log| && Bounded(log, n, t, capacity) && c in t && LastFrom(log, n, c) == Some(t[c].op - 1)
    ensures |ClientsIn(log, t[c].op, n)| < capacity
  {
    hide LastFrom, ClientsIn;
    var later := ClientsIn(log, t[c].op, n);
    forall d | d in later
      ensures d in t.Keys - {c}
    {
      assert DroppedOut(log, n, t, d, capacity);
    }
    SubsetSize(later, t.Keys - {c});
  }

  lemma FullAndLater(log: seq<Entry>, n: nat, t: Table, last: nat, capacity: nat)
    requires Orderly(log, capacity) && n <= |log| && Replay(log, n, capacity) == Some(t) && |t| == capacity
    requires forall d :: d in t ==> t[d].op - 1 > last
    ensures |ClientsIn(log, last + 1, n)| >= capacity
  {
    forall d | d in t.Keys
      ensures d in ClientsIn(log, last + 1, n)
    {
      RecordIsLast(log, n, d, capacity);
    }
    SubsetSize(t.Keys, ClientsIn(log, last + 1, n));
  }

  // ---- what a request is told ---------------------------------------------------------------------

  /** A session is named after the op of its registration. */
  lemma {:induction false} SessionIsRegistration(log: seq<Entry>, i: nat, capacity: nat)
    requires Orderly(log, capacity) && i < |log| && !log[i].System?
    ensures LastRegister(log, i + 1, log[i].client) == Some(SessionOf(log, i, capacity) - 1)
    decreases i
  {
    if log[i].Request? {
      var p := Predecessor(log, i, capacity);
      SessionIsRegistration(log, p, capacity);
      hide SessionOf;
      QuietRegister(log, p + 1, i + 1, log[i].client);
    }
  }

  lemma {:induction false} QuietRegister(log: seq<Entry>, m: nat, n: nat, c: Client)
    requires m <= n <= |log| && forall j :: m <= j < n ==> !(log[j].Register? && log[j].client == c)
    ensures LastRegister(log, n, c) == LastRegister(log, m, c)
    decreases n
  {
    if m < n { QuietRegister(log, m, n - 1, c); }
  }

  /** What a request of a client with a session is told, given the client's last entry and its registration. */
  predicate Answers(d: Decision, e: Entry, last: Entry, op: nat, session: nat)
    requires e.Request? && !last.System?
  {
    && (e.session < session ==> d == TooLow)
    && (e.session > session ==> d == Behind)
    && (e.session == session && e.release != last.release ==> d == ReleaseMismatch)
    && (e.session == session && e.release == last.release ==>
          var number := if last.Request? then last.request else 0;
          && (e.request == number < REQUESTS - 1 ==> d == if e.checksum == last.checksum then Duplicate else ClientFork)
          && (e.request == number + 1 ==> d == if e.parent == op then Admit else ClientFork)
          && (e.request < number || e.request > number + 1 || number == REQUESTS - 1 ==> d == Drop))
  }

  lemma DecideAnswers(t: Table, e: Entry, last: Entry)
    requires e.Request? && e.client in t && !last.System? && e.request < REQUESTS
    requires var r := t[e.client];
      && r.request == NumberOf(last) < REQUESTS && r.checksum == last.checksum && r.release == last.release && r.context == r.op
    ensures Answers(Decide(t, e), e, last, t[e.client].op, t[e.client].session)
  {
  }

  /**
    What a request is told in any log that can be built, after any number of its
    entries: without a session, NoSession; with one, what comparing it with the
    client's last entry says.
   */
  lemma AnswersByLog(steps: seq<Step>, log: seq<Entry>, n: nat, e: Entry, capacity: nat)
    requires Run([], steps, log, capacity) && n <= |log| && capacity > 0 && e.Request? && e.request < REQUESTS
    ensures Replay(log, n, capacity).Some?
    ensures var d := Decide(Replay(log, n, capacity).value, e);
      if !Recent(log, n, e.client, capacity) then d == NoSession
      else
        var i := LastFrom(log, n, e.client).value;
        && LastRegister(log, n, e.client).Some?
        && Answers(d, e, log[i], i + 1, LastRegister(log, n, e.client).value + 1)
  {
    BuiltLogsReplay(steps, log, capacity);
    hide Orderly, Run, Replay, Decide, Recent, Answers;
    TableIsRecent(log, n, e.client, capacity);
    if Recent(log, n, e.client, capacity) {
      var i := RecentLast(log, n, e.client, capacity);
      NumbersFit(steps, log, i, capacity);
      AnswersRecent(log, n, e, capacity);
    } else {
      NoAnswer(Replay(log, n, capacity).value, e);
    }
  }

  lemma NoAnswer(t: Table, e: Entry)
    requires e.Request? && e.client !in t
    ensures Decide(t, e) == NoSession
  {
  }

  lemma RecentLast(log: seq<Entry>, n: nat, c: Client, capacity: nat) returns (i: nat)
    requires n <= |log| && Recent(log, n, c, capacity)
    ensures LastFrom(log, n, c) == Some(i) && i < n
  {
    i := LastFrom(log, n, c).value;
  }

  lemma AnswersRecent(log: seq<Entry>, n: nat, e: Entry, capacity: nat)
    requires Orderly(log, capacity) && n <= |log| && Replay(log, n, capacity).Some? && e.Request? && e.request < REQUESTS
    requires e.client in Replay(log, n, capacity).value && LastFrom(log, n, e.client).Some?
    requires NumberOf(log[LastFrom(log, n, e.client).value]) < REQUESTS
    ensures var i := LastFrom(log, n, e.client).value;
      && LastRegister(log, n, e.client).Some?
      && Answers(Decide(Replay(log, n, capacity).value, e), e, log[i], i + 1, LastRegister(log, n, e.client).value + 1)
  {
    hide Orderly, Replay, Decide, Answers, SessionOf, LastFrom, LastRegister;
    RecordIsLast(log, n, e.client, capacity);
    RecordsAreLatest(log, n, e.client, capacity);
    var i := LastFrom(log, n, e.client).value;
    SessionIsRegistration(log, i, capacity);
    QuietRegister(log, i + 1, n, e.client);
    DecideAnswers(Replay(log, n, capacity).value, e, log[i]);
  }

  // ---- what is admitted ---------------------------------------------------------------------------

  lemma {:induction false} RunNumbersFit(log: seq<Entry>, steps: seq<Step>, q: seq<Entry>, capacity: nat)
    requires Run(log, steps, q, capacity) && forall i :: 0 <= i < |log| ==> NumberOf(log[i]) < REQUESTS
    ensures forall i :: 0 <= i < |q| ==> NumberOf(q[i]) < REQUESTS
    decreases |steps|
  {
    hide Replay;
    if steps != [] { RunNumbersFit(Apply(log, steps[0]), steps[1..], q, capacity); }
  }

  lemma NumbersFit(steps: seq<Step>, log: seq<Entry>, i: nat, capacity: nat)
    requires Run([], steps, log, capacity) && i < |log|
    ensures NumberOf(log[i]) < REQUESTS
  {
    RunNumbersFit([], steps, log, capacity);
  }

  /** Entry `i` of the pipeline comes from the client and carries the number. */
  predicate Carries(log: seq<Entry>, i: nat, c: Client, number: nat)
    requires i < |log|
  {
    From(log[i], c) && number == if log[i].Request? then log[i].request else 0
  }

  lemma ConflictsIff(log: seq<Entry>, n: nat, e: Entry)
    requires n <= |log| && !e.System?
    ensures Conflicts(log, n, e) <==> exists i :: n <= i < |log| && Carries(log, i, e.client, NumberOf(e))
  {
    if Conflicts(log, n, e) {
      var i :| n <= i < |log| && From(log[i], e.client) && NumberOf(log[i]) == NumberOf(e);
      assert Carries(log, i, e.client, NumberOf(e));
    }
  }

  /**
    What a primary that has executed `n` entries admits: a registration of a
    client that is not recent and not already registering; and the next request
    of a recent client's session, while no registration is pending and the
    request is not.
   */
  lemma AdmittedByLog(steps: seq<Step>, log: seq<Entry>, n: nat, e: Entry, capacity: nat)
    requires Run([], steps, log, capacity) && n <= |log| && capacity > 0 && !e.System?
    ensures e.Register? ==>
      (Admissible(log, n, e, capacity) <==>
        !Recent(log, n, e.client, capacity) && forall i :: n <= i < |log| ==> !Carries(log, i, e.client, 0))
    ensures e.Request? ==>
      (Admissible(log, n, e, capacity) <==>
        && Recent(log, n, e.client, capacity) && LastRegister(log, n, e.client).Some?
        && (forall i :: n <= i < |log| ==> !log[i].Register? && !Carries(log, i, e.client, e.request))
        && var i := LastFrom(log, n, e.client).value;
           && e.session == LastRegister(log, n, e.client).value + 1 && e.release == log[i].release
           && e.request == (if log[i].Request? then log[i].request else 0) + 1 < REQUESTS && e.parent == i + 1)
  {
    BuiltLogsReplay(steps, log, capacity);
    TableIsRecent(log, n, e.client, capacity);
    hide Orderly, Run, Replay, Decide, Recent, Carries, Conflicts, Answers, LastFrom, LastRegister, NumberOf;
    ConflictsIff(log, n, e);
    if e.Register? {
      assert NumberOf(e) == 0 by { RegisterNumber(e); }
    } else if e.request < REQUESTS {
      AnswersByLog(steps, log, n, e, capacity);
      RequestNumber(e);
      if Recent(log, n, e.client, capacity) {
        var i := RecentLast(log, n, e.client, capacity);
        NumbersFit(steps, log, i, capacity);
        AdmitIff(Decide(Replay(log, n, capacity).value, e), e, log[i], i + 1, LastRegister(log, n, e.client).value + 1);
      }
    }
  }

  lemma RegisterNumber(e: Entry)
    requires e.Register?
    ensures NumberOf(e) == 0
  {
  }

  lemma RequestNumber(e: Entry)
    requires e.Request?
    ensures NumberOf(e) == e.request
  {
  }

  lemma AdmitIff(d: Decision, e: Entry, last: Entry, op: nat, session: nat)
    requires e.Request? && !last.System? && e.request < REQUESTS && NumberOf(last) < REQUESTS && Answers(d, e, last, op, session)
    ensures d == Admit <==>
      && e.session == session && e.release == last.release && e.parent == op
      && e.request == (if last.Request? then last.request else 0) + 1 < REQUESTS
  {
  }
}
