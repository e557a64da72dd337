/**
  Client sessions: which requests a primary admits (replication/replica_normal.go),
  what executing the log does to the session table, and why every log that
  admission builds can be replayed.  The slot table is in SessionTable.
 */
module Sessions {
  import opened Chains

  type Client = nat

  /** Request numbers are 32 bits wide. */
  const REQUESTS := 0x1_0000_0000

  /** The latest reply to a client; `context` is what the next request must name as its parent. */
  datatype Record = Record(session: nat, request: nat, op: nat, checksum: int, context: int, release: nat)

  type Table = map<Client, Record>

  datatype Entry =
    | System
    | Register(client: Client, checksum: int, release: nat)
    | Request(client: Client, session: nat, request: nat, checksum: int, parent: int, release: nat)

  // ---- the table as a map that evicts its oldest client ---------------------------------------

  /** The order in which clients are evicted. */
  predicate Older(t: Table, c: Client, d: Client)
    requires c in t && d in t
  {
    t[c].op < t[d].op || (t[c].op == t[d].op && c < d)
  }

  predicate IsOldest(t: Table, c: Client) {
    c in t && forall d :: d in t && d != c ==> Older(t, c, d)
  }

  lemma OldestUnique(t: Table, c: Client, d: Client)
    requires IsOldest(t, c) && IsOldest(t, d)
    ensures c == d
  {
  }

  lemma {:induction false} OldestExists(t: Table, among: set<Client>) returns (c: Client)
    requires among != {} && among <= t.Keys
    ensures c in among && forall d :: d in among && d != c ==> Older(t, c, d)
    decreases |among|
  {
    var first :| first in among;
    var rest := among - {first};
    c := first;
    if rest != {} {
      var d := OldestExists(t, rest);
      if Older(t, d, first) { c := d; }
      forall x | x in among && x != c
        ensures Older(t, c, x)
      {
        assert x in rest || x == first;
        assert d in rest;
      }
    }
  }

  ghost function Oldest(t: Table): (c: Client)
    requires t != map[]
    ensures IsOldest(t, c)
  {
    assert exists c :: IsOldest(t, c) by {
      assert t.Keys != {} by { var k :| k in t; assert k in t.Keys; }
      var c := OldestExists(t, t.Keys);
      assert IsOldest(t, c);
    }
    var c :| IsOldest(t, c);
    c
  }

  /** Storing a reply: a known client is updated, a new one takes a place, evicting the oldest if there is none left. */
  ghost function Stored(t: Table, c: Client, r: Record, capacity: nat): (q: Table) {
    if c in t || |t| < capacity || t == map[] then t[c := r]
    else (map d | d in t && d != Oldest(t) :: t[d])[c := r]
  }

  // ---- execution -----------------------------------------------------------------------------------

  /** Executing the entry at `op`; a request of a client without a session is an invariant failure. */
  ghost function Execute(t: Table, e: Entry, op: nat, capacity: nat): (q: Option<Table>) {
    match e
    case System => Some(t)
    case Register(c, checksum, release) => Some(Stored(t, c, Record(op, 0, op, checksum, op, release), capacity))
    case Request(c, _, n, checksum, _, release) =>
      if c !in t then None
      else Some(Stored(t, c, Record(t[c].session, n, op, checksum, op, release), capacity))
  }

  /** The table after the first `n` entries, or nothing if one of them could not be executed. */
  ghost function Replay(log: seq<Entry>, n: nat, capacity: nat): (q: Option<Table>)
    requires n <= |log|
  {
    if n == 0 then Some(map[])
    else
      match Replay(log, n - 1, capacity)
      case None => None
      case Some(t) => Execute(t, log[n - 1], n, capacity)
  }

  // ---- admission -------------------------------------------------------------------------------------

  datatype Decision = Admit | Duplicate | Drop | ClientFork | NoSession | TooLow | Behind | ReleaseMismatch

  /** `Decide` */
  function Decide(t: Table, e: Entry): (d: Decision)
    requires e.Request?
  {
    if e.client !in t then NoSession
    else
      var r := t[e.client];
      if e.session < r.session then TooLow
      else if e.session > r.session then Behind
      else if e.release != r.release then ReleaseMismatch
      else if e.request < r.request || e.request > (r.request + 1) % REQUESTS then Drop
      else if e.request == r.request then (if e.checksum == r.checksum then Duplicate else ClientFork)
      else if e.parent != r.context then ClientFork
      else Admit
  }

  function NumberOf(e: Entry): (n: nat) {
    if e.Request? then e.request else 0
  }

  predicate From(e: Entry, c: Client) {
    !e.System? && e.client == c
  }

  /** `pipelineConflict` on the entries of the pipeline. */
  predicate Conflicts(log: seq<Entry>, from: nat, e: Entry)
    requires from <= |log| && !e.System?
  {
    exists i :: from <= i < |log| && From(log[i], e.client) && NumberOf(log[i]) == NumberOf(e)
  }

  /** A primary that has executed `committed` entries admits `e` at the end of its log. */
  ghost predicate Admissible(log: seq<Entry>, committed: nat, e: Entry, capacity: nat) {
    committed <= |log| && Replay(log, committed, capacity).Some? &&
    var t := Replay(log, committed, capacity).value;
    match e
    case System => true
    case Register(c, _, _) => c !in t && !Conflicts(log, committed, e)
    case Request(c, _, n, _, _, _) =>
      && n < REQUESTS && Decide(t, e) == Admit && !Conflicts(log, committed, e)
      && forall i :: committed <= i < |log| ==> !log[i].Register?
  }

  // ---- logs that admission builds ------------------------------------------------------------------------

  /** Entry `i` continues its client's session where the entries before it left off. */
  ghost predicate Continues(log: seq<Entry>, i: nat, capacity: nat) {
    i < |log| && Replay(log, i, capacity).Some? &&
    var t := Replay(log, i, capacity).value;
    match log[i]
    case System => true
    case Register(c, _, _) => c !in t
    case Request(c, session, n, _, _, _) => c in t && t[c].session == session && t[c].request + 1 == n
  }

  ghost predicate Orderly(log: seq<Entry>, capacity: nat) {
    forall i :: 0 <= i < |log| ==> Continues(log, i, capacity)
  }

  lemma {:induction false} ReplayPrefix(a: seq<Entry>, b: seq<Entry>, n: nat, capacity: nat)
    requires n <= |a| && n <= |b| && a[..n] == b[..n]
    ensures Replay(a, n, capacity) == Replay(b, n, capacity)
  {
    if n > 0 {
      assert a[..n][..n - 1] == b[..n][..n - 1] && a[..n][n - 1] == b[..n][n - 1];
      assert a[..n - 1] == a[..n][..n - 1] && b[..n - 1] == b[..n][..n - 1];
      ReplayPrefix(a, b, n - 1, capacity);
    }
  }

  lemma {:induction false} OrderlyReplays(log: seq<Entry>, n: nat, capacity: nat)
    requires Orderly(log, capacity) && n <= |log|
    ensures Replay(log, n, capacity).Some?
  {
    if n > 0 {
      assert Continues(log, n - 1, capacity);
    }
  }

  lemma OrderlyPrefix(log: seq<Entry>, n: nat, capacity: nat)
    requires Orderly(log, capacity) && n <= |log|
    ensures Orderly(log[..n], capacity)
  {
    forall i | 0 <= i < n
      ensures Continues(log[..n], i, capacity)
    {
      assert Continues(log, i, capacity);
      assert log[..n][..i] == log[..i];
      ReplayPrefix(log[..n], log, i, capacity);
    }
  }

  /** While no registration runs, no session is opened or evicted, and other clients' records stand still. */
  lemma {:induction false} QuietStretch(log: seq<Entry>, m: nat, n: nat, c: Client, capacity: nat)
    requires Orderly(log, capacity) && m <= n <= |log|
    requires forall i :: m <= i < n ==> !log[i].Register? && !From(log[i], c)
    ensures Replay(log, m, capacity).Some? && Replay(log, n, capacity).Some?
    ensures var t, q := Replay(log, m, capacity).value, Replay(log, n, capacity).value;
      t.Keys == q.Keys && (c in t ==> q[c] == t[c])
    decreases n
  {
    OrderlyReplays(log, m, capacity);
    OrderlyReplays(log, n, capacity);
    if m < n {
      QuietStretch(log, m, n - 1, c, capacity);
      assert Continues(log, n - 1, capacity);
    }
  }

  /** A client that is not in the table stays out until it registers. */
  lemma {:induction false} AbsentStretch(log: seq<Entry>, m: nat, n: nat, c: Client, capacity: nat)
    requires Orderly(log, capacity) && m <= n <= |log|
    requires forall i :: m <= i < n ==> !(log[i].Register? && log[i].client == c)
    ensures Replay(log, m, capacity).Some? && Replay(log, n, capacity).Some?
    ensures c !in Replay(log, m, capacity).value ==> c !in Replay(log, n, capacity).value
    decreases n
  {
    OrderlyReplays(log, m, capacity);
    OrderlyReplays(log, n, capacity);
    if m < n {
      AbsentStretch(log, m, n - 1, c, capacity);
      assert Continues(log, n - 1, capacity);
    }
  }

  /** An admissible request is its client's only entry in the pipeline. */
  lemma {:induction false} NothingPending(log: seq<Entry>, committed: nat, e: Entry, capacity: nat, k: nat)
    requires Orderly(log, capacity) && Admissible(log, committed, e, capacity) && e.Request? && committed <= k <= |log|
    ensures forall i :: committed <= i < k ==> !From(log[i], e.client)
    decreases k
  {
    if committed < k {
      NothingPending(log, committed, e, capacity, k - 1);
      QuietStretch(log, committed, k - 1, e.client, capacity);
      assert Continues(log, k - 1, capacity);
      if From(log[k - 1], e.client) {
        assert false;
      }
    }
  }

  /** Whatever the primary has executed so far, what it admits keeps the log orderly. */
  lemma AdmissionKeepsOrder(log: seq<Entry>, committed: nat, e: Entry, capacity: nat)
    requires Orderly(log, capacity) && Admissible(log, committed, e, capacity)
    ensures Orderly(log + [e], capacity)
  {
    var longer := log + [e];
    var n := |log|;
    OrderlyReplays(log, n, capacity);
    forall i | 0 <= i < |longer|
      ensures Continues(longer, i, capacity)
    {
      assert longer[..i] == log[..i];
      ReplayPrefix(longer, log, i, capacity);
      if i < n {
        assert Continues(log, i, capacity);
      } else if e.Request? {
        NothingPending(log, committed, e, capacity, n);
        QuietStretch(log, committed, n, e.client, capacity);
      } else if e.Register? {
        AbsentStretch(log, committed, n, e.client, capacity);
      }
    }
  }

  /** How logs come about: some primary admits an entry, or a view change cuts the log. */
  datatype Step = Append(committed: nat, entry: Entry) | Truncate(length: nat)

  ghost predicate Enabled(log: seq<Entry>, step: Step, capacity: nat) {
    match step
    case Append(committed, e) => Admissible(log, committed, e, capacity)
    case Truncate(n) => n <= |log|
  }

  function Apply(log: seq<Entry>, step: Step): (q: seq<Entry>) {
    match step
    case Append(_, e) => log + [e]
    case Truncate(n) => if n <= |log| then log[..n] else log
  }

  ghost predicate Run(log: seq<Entry>, steps: seq<Step>, q: seq<Entry>, capacity: nat)
    decreases |steps|
  {
    if steps == [] then log == q
    else Enabled(log, steps[0], capacity) && Run(Apply(log, steps[0]), steps[1..], q, capacity)
  }

  lemma {:induction false} RunKeepsOrder(log: seq<Entry>, steps: seq<Step>, q: seq<Entry>, capacity: nat)
    requires Orderly(log, capacity) && Run(log, steps, q, capacity)
    ensures Orderly(q, capacity)
    decreases |steps|
  {
    hide Orderly, Admissible;
    if steps != [] {
      match steps[0] {
        case Append(committed, e) => AdmissionKeepsOrder(log, committed, e, capacity);
        case Truncate(n) => OrderlyPrefix(log, n, capacity);
      }
      RunKeepsOrder(Apply(log, steps[0]), steps[1..], q, capacity);
    }
  }

  /**
    Every log built by admissions of any primaries at any points of their
    execution, and cut by any view changes, can be replayed to the end: no
    request ever meets a missing session.
   */
  lemma BuiltLogsReplay(steps: seq<Step>, log: seq<Entry>, capacity: nat)
    requires Run([], steps, log, capacity)
    ensures Orderly(log, capacity) && forall n :: 0 <= n <= |log| ==> Replay(log, n, capacity).Some?
  {
    RunKeepsOrder([], steps, log, capacity);
    forall n | 0 <= n <= |log|
      ensures Replay(log, n, capacity).Some?
    {
      OrderlyReplays(log, n, capacity);
    }
  }

  // ---- exactly once ------------------------------------------------------------------------------------------

  /** The session in which entry `i` runs: a registration opens one named after its own op. */
  ghost function SessionOf(log: seq<Entry>, i: nat, capacity: nat): (session: nat)
    requires i < |log|
  {
    if log[i].Register? then i + 1
    else if log[i].Request? && Replay(log, i, capacity).Some? && log[i].client in Replay(log, i, capacity).value
    then Replay(log, i, capacity).value[log[i].client].session
    else 0
  }

  /** A record describes its client's latest entry. */
  ghost predicate Latest(log: seq<Entry>, n: nat, t: Table, c: Client, capacity: nat) {
    n <= |log| && c in t && 1 <= t[c].op <= n &&
    var i := t[c].op - 1;
    && From(log[i], c) && NumberOf(log[i]) == t[c].request && SessionOf(log, i, capacity) == t[c].session <= t[c].op
    && t[c].checksum == log[i].checksum && t[c].release == log[i].release && t[c].context == t[c].op
    && forall j :: i < j < n ==> !From(log[j], c)
  }

  lemma StoredOthers(t: Table, c: Client, r: Record, capacity: nat, d: Client)
    requires d in Stored(t, c, r, capacity)
    ensures d == c ==> Stored(t, c, r, capacity)[d] == r
    ensures d != c ==> d in t && Stored(t, c, r, capacity)[d] == t[d]
  {
  }

  /** The record that executing entry `n - 1` stores. */
  ghost function Reply(log: seq<Entry>, n: nat, t: Table): (r: Record)
    requires 0 < n <= |log| && !log[n - 1].System? && (log[n - 1].Request? ==> log[n - 1].client in t)
  {
    var e := log[n - 1];
    if e.Register? then Record(n, 0, n, e.checksum, n, e.release)
    else Record(t[e.client].session, e.request, n, e.checksum, n, e.release)
  }

  lemma ReplayStores(log: seq<Entry>, n: nat, capacity: nat)
    requires Orderly(log, capacity) && 0 < n <= |log|
    ensures Replay(log, n - 1, capacity).Some?
    ensures var t := Replay(log, n - 1, capacity).value;
      && (log[n - 1].Request? ==> log[n - 1].client in t)
      && Replay(log, n, capacity) ==
           Some(if log[n - 1].System? then t else Stored(t, log[n - 1].client, Reply(log, n, t), capacity))
  {
    assert Continues(log, n - 1, capacity);
  }

  lemma ReplyIsLatest(log: seq<Entry>, n: nat, q: Table, capacity: nat)
    requires Orderly(log, capacity) && 0 < n <= |log| && !log[n - 1].System? && Replay(log, n - 1, capacity).Some?
    requires var t := Replay(log, n - 1, capacity).value;
      && (log[n - 1].Request? ==> Latest(log, n - 1, t, log[n - 1].client, capacity))
      && log[n - 1].client in q && q[log[n - 1].client] == Reply(log, n, t)
    ensures Latest(log, n, q, log[n - 1].client, capacity)
  {
    hide Stored, Replay;
  }

  lemma {:induction false} RecordsAreLatest(log: seq<Entry>, n: nat, c: Client, capacity: nat)
    requires Orderly(log, capacity) && n <= |log| && Replay(log, n, capacity).Some? && c in Replay(log, n, capacity).value
    ensures Latest(log, n, Replay(log, n, capacity).value, c, capacity)
    decreases n
  {
    hide Stored, Orderly, SessionOf;
    if n > 0 {
      ReplayStores(log, n, capacity);
      var t := Replay(log, n - 1, capacity).value;
      var e := log[n - 1];
      if e.System? {
        RecordsAreLatest(log, n - 1, c, capacity);
      } else {
        StoredOthers(t, e.client, Reply(log, n, t), capacity, c);
        if e.client != c {
          RecordsAreLatest(log, n - 1, c, capacity);
        } else {
          if e.Request? { RecordsAreLatest(log, n - 1, c, capacity); }
          ReplyIsLatest(log, n, Replay(log, n, capacity).value, capacity);
        }
      }
    }
  }

  /** The entry before `i` in its session carries the number before it. */
  lemma Predecessor(log: seq<Entry>, i: nat, capacity: nat) returns (j: nat)
    requires Orderly(log, capacity) && i < |log| && log[i].Request?
    ensures j < i && From(log[j], log[i].client) && SessionOf(log, j, capacity) == SessionOf(log, i, capacity)
    ensures NumberOf(log[j]) + 1 == NumberOf(log[i]) && forall k :: j < k < i ==> !From(log[k], log[i].client)
  {
    assert Continues(log, i, capacity);
    RecordsAreLatest(log, i, log[i].client, capacity);
    j := Replay(log, i, capacity).value[log[i].client].op - 1;
  }

  lemma SessionBound(log: seq<Entry>, i: nat, capacity: nat)
    requires Orderly(log, capacity) && i < |log|
    ensures SessionOf(log, i, capacity) <= i + 1
  {
    if log[i].Request? {
      assert Continues(log, i, capacity);
      RecordsAreLatest(log, i, log[i].client, capacity);
    }
  }

  /** Within a session numbers only rise, so nothing executes twice. */
  lemma {:induction false} NumbersRise(log: seq<Entry>, i: nat, j: nat, capacity: nat)
    requires Orderly(log, capacity) && i < j < |log| && !log[i].System? && From(log[j], log[i].client)
    requires SessionOf(log, i, capacity) == SessionOf(log, j, capacity)
    ensures NumberOf(log[i]) < NumberOf(log[j])
    decreases j
  {
    if log[j].Register? {
      SessionBound(log, i, capacity);
    } else {
      var p := Predecessor(log, j, capacity);
      if p < i {
        assert From(log[i], log[j].client);
      } else if i < p {
        NumbersRise(log, i, p, capacity);
      }
    }
  }

  /** Every number of a session has run before a later one: each session starts with its registration, numbered 0. */
  lemma {:induction false} NumbersFill(log: seq<Entry>, j: nat, n: nat, capacity: nat) returns (i: nat)
    requires Orderly(log, capacity) && j < |log| && !log[j].System? && n <= NumberOf(log[j])
    ensures i <= j && From(log[i], log[j].client) && NumberOf(log[i]) == n
    ensures SessionOf(log, i, capacity) == SessionOf(log, j, capacity)
    ensures n == 0 ==> log[i].Register?
    decreases j
  {
    if n == NumberOf(log[j]) {
      i := j;
      if log[j].Request? { assert Continues(log, j, capacity); }
    } else {
      var p := Predecessor(log, j, capacity);
      i := NumbersFill(log, p, n, capacity);
    }
  }

  /** Number `n` ran in the session of entry `j`, no later than it. */
  ghost predicate Ran(log: seq<Entry>, j: nat, n: nat, capacity: nat)
    requires j < |log| && !log[j].System?
  {
    exists i :: 0 <= i <= j && From(log[i], log[j].client) && NumberOf(log[i]) == n
                && SessionOf(log, i, capacity) == SessionOf(log, j, capacity)
  }

  predicate SameClient(e: Entry, f: Entry) {
    !e.System? && !f.System? && e.client == f.client
  }

  /**
    Exactly once: in every log that can be built, within each session of each
    client the executed request numbers are 0, 1, 2, ... without gap or
    repetition.
   */
  lemma ExactlyOnce(steps: seq<Step>, log: seq<Entry>, capacity: nat)
    requires Run([], steps, log, capacity)
    ensures forall i, j :: 0 <= i < j < |log| && SameClient(log[i], log[j]) ==>
      (SessionOf(log, i, capacity) == SessionOf(log, j, capacity) ==> NumberOf(log[i]) < NumberOf(log[j]))
    ensures forall j, n: nat :: 0 <= j < |log| && !log[j].System? && n <= NumberOf(log[j]) ==> Ran(log, j, n, capacity)
  {
    hide Orderly;
    BuiltLogsReplay(steps, log, capacity);
    forall i, j | 0 <= i < j < |log| && SameClient(log[i], log[j]) && SessionOf(log, i, capacity) == SessionOf(log, j, capacity)
      ensures NumberOf(log[i]) < NumberOf(log[j])
    {
      NumbersRise(log, i, j, capacity);
    }
    forall j, n: nat | 0 <= j < |log| && !log[j].System? && n <= NumberOf(log[j])
      ensures Ran(log, j, n, capacity)
    {
      var i := NumbersFill(log, j, n, capacity);
    }
  }
}
