/**
  Writing trailers (replication/trailer_store.go) into blocks the allocator has
  reserved: each written block is published, and a failure on the way releases
  what was published and gives the other reservations back.
 */
module TrailerStore {
  import opened Allocator
  import opened Blocks
  import opened Chains
  import opened Ewah
  import opened Trailers
  import BlockAllocator

  /** The allocator counts blocks from 0, addresses count from 1. */
  function Indices(addresses: seq<nat>): (r: set<nat>)
    ensures forall i: nat :: i in r <==> i + 1 in addresses
  {
    if addresses == [] then {}
    else
      var k := |addresses| - 1;
      Indices(addresses[..k]) + if addresses[k] > 0 then {addresses[k] - 1} else {}
  }

  predicate AllReserved(s: Sets, addresses: seq<nat>) {
    forall k :: 0 <= k < |addresses| ==> addresses[k] > 0 && Reserves(s, addresses[k] - 1)
  }

  /** What is checked before the first write. */
  predicate Fits(addresses: seq<nat>, kind: Kind, encoded: Bytes, capacity: nat) {
    (kind == FreeSet || kind == ClientSessions) && 0 < |addresses| <= |encoded| <= |addresses| * capacity
  }

  /** Block `k` is written and published: its write succeeds and its address has not been used before. */
  predicate Passes(addresses: seq<nat>, failing: set<nat>, k: nat)
    requires k < |addresses|
  {
    addresses[k] !in failing && addresses[k] !in addresses[..k]
  }

  predicate AllPass(addresses: seq<nat>, failing: set<nat>, n: nat)
    requires n <= |addresses|
  {
    forall k :: 0 <= k < n ==> Passes(addresses, failing, k)
  }

  /** Block `n` is the first that does not pass. */
  predicate StopsAt(addresses: seq<nat>, failing: set<nat>, n: nat) {
    n < |addresses| && AllPass(addresses, failing, n) && !Passes(addresses, failing, n)
  }

  // ---- giving up ------------------------------------------------------------------------------

  /** Blocks `a` were published and those of `p` among them released again; the reservations `b` were given back. */
  function Rolling(s: Sets, a: set<nat>, p: set<nat>, b: set<nat>): (q: Sets) {
    s.(acquired := s.acquired + a, pending := s.pending + p, released := (s.released - a) + (b * s.reservedReleased),
       reserved := s.reserved - a - b, reservedReleased := s.reservedReleased - a - b)
  }

  function RolledBack(s: Sets, a: set<nat>, b: set<nat>): (q: Sets) {
    Rolling(s, a, a, b)
  }

  /**
    Nothing is lost by giving up: no block stays reserved, what had been
    published waits for its release, the rest can be reserved again, and every
    other block is as it was.
   */
  lemma RollbackSound(s: Sets, a: set<nat>, b: set<nat>)
    requires Sound(s) && a <= s.reserved && b <= s.reserved && a !! b
    ensures var q := RolledBack(s, a, b);
      && Sound(q) && q.reserved == s.reserved - (a + b)
      && (forall i :: i in a ==> i in q.pending && i in q.acquired) && (forall i :: i in b ==> Available(q, i))
      && (forall i :: i !in a + b ==> (i in q.acquired <==> i in s.acquired))
      && (forall i :: i !in a + b ==> (i in q.released <==> i in s.released))
      && (forall i :: i !in a + b ==> (i in q.pending <==> i in s.pending))
  {
    assert s.reserved - a - b == s.reserved - (a + b);
  }

  lemma RollRelease(s: Sets, a: set<nat>, p: set<nat>, b: set<nat>, i: nat)
    requires Sound(s) && a <= s.reserved && a !! b && i in a && i !in p
    ensures var q := Rolling(s, a, p, b);
      Releasable(q, i) && q.(pending := q.pending + {i}) == Rolling(s, a, p + {i}, b)
  {
    assert s.pending + p + {i} == s.pending + (p + {i});
  }

  lemma RollForfeit(s: Sets, a: set<nat>, p: set<nat>, b: set<nat>, i: nat)
    requires Sound(s) && a <= s.reserved && b <= s.reserved && i in s.reserved
    ensures var q := Rolling(s, a, p, b);
      && (Reserves(q, i) <==> i !in a && i !in b)
      && (i !in a && i !in b ==> Forfeited(q, i) == Rolling(s, a, p, b + {i}))
  {
    var q, t := Rolling(s, a, p, b), Rolling(s, a, p, b + {i});
    if i !in a && i !in b {
      assert Forfeited(q, i).reserved == t.reserved;
      assert Forfeited(q, i).reservedReleased == t.reservedReleased;
      assert Forfeited(q, i).released == t.released;
    }
  }

  lemma IndicesGrow(addresses: seq<nat>, k: nat)
    requires k < |addresses| && addresses[k] > 0
    ensures Indices(addresses[..k + 1]) == Indices(addresses[..k]) + {addresses[k] - 1}
  {
    assert addresses[..k + 1] == addresses[..k] + [addresses[k]];
  }

  lemma IndicesReserved(s: Sets, addresses: seq<nat>, k: nat)
    requires k <= |addresses| && AllReserved(s, addresses)
    ensures Indices(addresses[..k]) <= s.reserved
  {
  }

  lemma NewIndex(s: Sets, addresses: seq<nat>, k: nat)
    requires k < |addresses| && AllReserved(s, addresses)
    ensures addresses[k] - 1 in Indices(addresses[..k]) <==> addresses[k] in addresses[..k]
  {
  }

  /** One address of `rollback`. */
  method RollBackOne(allocator: BlockAllocator.BlockAllocator, release: bool, i: nat,
                     ghost s: Sets, ghost a: set<nat>, ghost p: set<nat>, ghost b: set<nat>)
    requires Sound(s) && a <= s.reserved && b <= s.reserved && a !! b && i in s.reserved
    requires release ==> i in a && i !in p
    requires allocator.Value() == Rolling(s, a, p, b)
    modifies allocator
    ensures allocator.Value() == if release then Rolling(s, a, p + {i}, b) else Rolling(s, a, p, b + ({i} - a))
  {
    hide Sound, Rolling;
    if release {
      RollRelease(s, a, p, b, i);
      var _ := allocator.Release(i);
    } else {
      RollForfeit(s, a, p, b, i);
      assert b + ({i} - a) == if i in a || i in b then b else b + {i};
      var _ := allocator.Forfeit(i);
    }
  }

  /** `rollback`: what was published is released, and the other reservations are given back. */
  method Rollback(allocator: BlockAllocator.BlockAllocator, addresses: seq<nat>, published: nat, ghost s: Sets)
    requires Sound(s) && AllReserved(s, addresses) && published <= |addresses| && AllPass(addresses, {}, published)
    requires allocator.Value() == PublishedAll(s, Indices(addresses[..published]))
    modifies allocator
    ensures var a := Indices(addresses[..published]);
      allocator.Value() == RolledBack(s, a, Indices(addresses) - a)
  {
    hide Sound, Indices, Rolling, PublishedAll;
    ghost var a := Indices(addresses[..published]);
    IndicesReserved(s, addresses, published);
    assert addresses[..0] == [];
    NothingRolled(s, a);
    var index := 0;
    while index < |addresses|
      invariant 0 <= index <= |addresses|
      invariant allocator.Value() ==
                Rolling(s, a, Indices(addresses[..Min(index, published)]), Indices(addresses[..index]) - a)
    {
      RollStep(s, addresses, index, published);
      RollBackOne(allocator, index < published, addresses[index] - 1, s, a,
                  Indices(addresses[..Min(index, published)]), Indices(addresses[..index]) - a);
      index := index + 1;
    }
    assert addresses[..index] == addresses;
  }

  /** How the sets of `rollback` grow by one address. */
  lemma RollStep(s: Sets, addresses: seq<nat>, index: nat, published: nat)
    requires AllReserved(s, addresses) && index < |addresses| && published <= |addresses| && AllPass(addresses, {}, published)
    ensures var a := Indices(addresses[..published]);
      var i := addresses[index] - 1;
      && addresses[index] > 0 && i in s.reserved && Indices(addresses[..index]) - a <= s.reserved
      && Indices(addresses[..index + 1]) - a == (Indices(addresses[..index]) - a) + ({i} - a)
      && (index < published ==> i in a && i !in Indices(addresses[..index]) && Indices(addresses[..index]) - a == {})
      && (index < published ==> Indices(addresses[..index + 1]) == Indices(addresses[..index]) + {i})
      && (index < published ==> Indices(addresses[..index + 1]) - a == {})
  {
    hide Indices;
    IndicesGrow(addresses, index);
    IndicesReserved(s, addresses, index);
    NewIndex(s, addresses, index);
    if index < published {
      assert Passes(addresses, {}, index);
      PrefixIndices(addresses, index, published);
      PrefixIndices(addresses, index + 1, published);
    }
  }

  lemma NothingRolled(s: Sets, a: set<nat>)
    ensures Rolling(s, a, Indices([]), Indices([]) - a) == PublishedAll(s, a)
  {
    assert Indices([]) == {};
    assert s.reserved - a - {} == s.reserved - a;
    assert s.reservedReleased - a - {} == s.reservedReleased - a;
    assert (s.released - a) + ({} * s.reservedReleased) == s.released - a;
  }

  lemma PrefixIndices(addresses: seq<nat>, j: nat, k: nat)
    requires j <= k <= |addresses|
    ensures Indices(addresses[..j]) <= Indices(addresses[..k])
  {
  }

  // ---- writing --------------------------------------------------------------------------------

  lemma PublishNext(s: Sets, addresses: seq<nat>, k: nat)
    requires k < |addresses| && AllReserved(s, addresses)
    ensures var q := PublishedAll(s, Indices(addresses[..k]));
      && addresses[k] > 0 && (Reserves(q, addresses[k] - 1) <==> addresses[k] !in addresses[..k])
      && Published(q, addresses[k] - 1) == PublishedAll(s, Indices(addresses[..k + 1]))
  {
    hide Indices;
    NewIndex(s, addresses, k);
    IndicesGrow(addresses, k);
    var e, i := Indices(addresses[..k]), addresses[k] - 1;
    assert s.acquired + e + {i} == s.acquired + (e + {i});
    assert s.released - e - {i} == s.released - (e + {i});
    assert s.reserved - e - {i} == s.reserved - (e + {i});
    assert s.reservedReleased - e - {i} == s.reservedReleased - (e + {i});
  }

  /** All blocks pass exactly when none fails and no address is given twice. */
  lemma AllPassIff(addresses: seq<nat>, failing: set<nat>)
    ensures AllPass(addresses, failing, |addresses|) <==>
              Distinct(addresses) && forall k :: 0 <= k < |addresses| ==> addresses[k] !in failing
  {
    if AllPass(addresses, failing, |addresses|) {
      forall i, j | 0 <= i < j < |addresses| ensures addresses[i] != addresses[j] {
        assert Passes(addresses, failing, j) && addresses[i] in addresses[..j];
      }
      forall k | 0 <= k < |addresses| ensures addresses[k] !in failing { assert Passes(addresses, failing, k); }
    }
  }

  /**
    `WriteReserved`; `failing` are the addresses whose block cannot be written.
    It succeeds exactly if the encoding fits, every block is reserved, none
    fails and none is given twice; then the chain holds the pieces and the
    blocks are published.  It refuses a bad request untouched, and a failure on
    the way is rolled back.
   */
  method WriteReserved(allocator: BlockAllocator.BlockAllocator, given: Store, addresses: seq<nat>, kind: Kind,
                       snapshot: nat, encoded: Bytes, capacity: nat, failing: set<nat>, sum: BlockSum, total: ByteSum)
    returns (store: Store, r: Option<Trailer>)
    requires Sound(allocator.Value())
    modifies allocator
    ensures r.Some? <==> Fits(addresses, kind, encoded, capacity) && old(AllReserved(allocator.Value(), addresses))
                         && AllPass(addresses, failing, |addresses|)
    ensures r.Some? ==>
      && Holds(store, sum, r.value.last, addresses, Pieces(encoded, |addresses|), kind, snapshot)
      && r.value == Trailer(Reference(addresses[|addresses| - 1], r.value.last.checksum), total(encoded), |encoded|,
                            |addresses|, kind, snapshot)
      && r.value.last.address in store && r.value.last.checksum == sum(store[r.value.last.address])
      && allocator.Value() == PublishedAll(old(allocator.Value()), Indices(addresses))
    ensures !Fits(addresses, kind, encoded, capacity) || !old(AllReserved(allocator.Value(), addresses)) ==>
      store == given && allocator.Value() == old(allocator.Value())
    ensures r.None? && Fits(addresses, kind, encoded, capacity) && old(AllReserved(allocator.Value(), addresses)) ==>
      exists n: nat :: StopsAt(addresses, failing, n) &&
        var a := Indices(addresses[..n]);
        allocator.Value() == RolledBack(old(allocator.Value()), a, Indices(addresses) - a)
    ensures forall a :: a in given && a !in addresses ==> a in store && store[a] == given[a]
  {
    hide Pieces, Chunk, Holds, Joined, Indices, Sound, PublishedAll, Published, RolledBack, AllReserved, Reserves,
         AllPass, Passes, StopsAt, Writing;
    store := given;
    ghost var s := allocator.Value();
    if |addresses| == 0 || |encoded| < |addresses| || |encoded| > |addresses| * capacity || !ForTrailers(kind) {
      return store, None;
    }
    var reserved := CheckReserved(allocator, addresses);
    if !reserved {
      return store, None;
    }
    ghost var pieces := Pieces(encoded, |addresses|);
    WritingStarts(store, sum, addresses, encoded, kind, snapshot);
    PassedNone(addresses, failing);
    PublishNone(s, addresses);
    var previous := NO_REFERENCE;
    var index, cursor := 0, 0;
    while index < |addresses|
      invariant 0 <= index <= |addresses| && 0 <= cursor <= |encoded|
      invariant Writing(store, sum, previous, addresses, pieces, encoded, cursor, index, kind, snapshot)
      invariant AllPass(addresses, failing, index) && allocator.Value() == PublishedAll(s, Indices(addresses[..index]))
      invariant forall a :: a in given && a !in addresses ==> a in store && store[a] == given[a]
    {
      WritingStep(store, sum, previous, addresses, pieces, encoded, cursor, index, kind, snapshot);
      PublishNext(s, addresses, index);
      var blocks, bytes := |addresses| - index, |encoded| - cursor;
      var end := cursor + Chunk(bytes, blocks);
      var block := Block(previous, encoded[cursor..end], kind, snapshot);
      if addresses[index] in failing {
        Stopped(addresses, failing, index);
        GiveUp(allocator, addresses, index, failing, s);
        return store, None;
      }
      store := store[addresses[index] := block];
      var ok := allocator.Publish(addresses[index] - 1);
      if !ok {
        Stopped(addresses, failing, index);
        GiveUp(allocator, addresses, index, failing, s);
        return store, None;
      }
      PassedOne(addresses, failing, index);
      previous := Reference(addresses[index], sum(block));
      index, cursor := index + 1, end;
    }
    WritingDone(store, sum, previous, addresses, pieces, encoded, cursor, kind, snapshot);
    assert addresses[..index] == addresses;
    return store, Some(Trailer(previous, total(encoded), |encoded|, |addresses|, kind, snapshot));
  }

  /** The first `index` pieces are written, and those that remain are cut from `cursor` on. */
  ghost predicate Writing(store: Store, sum: BlockSum, previous: Reference, addresses: seq<nat>, pieces: seq<Bytes>,
                          encoded: Bytes, cursor: nat, index: nat, kind: Kind, snapshot: nat)
  {
    && index <= |addresses| == |pieces| && cursor <= |encoded| && |addresses| - index <= |encoded| - cursor
    && pieces[index..] == Pieces(encoded[cursor..], |addresses| - index)
    && Holds(store, sum, previous, addresses[..index], pieces[..index], kind, snapshot)
    && (index > 0 ==> previous.address == addresses[index - 1] && previous.address in store
                      && previous.checksum == sum(store[previous.address]))
  }

  lemma WritingStarts(store: Store, sum: BlockSum, addresses: seq<nat>, encoded: Bytes, kind: Kind, snapshot: nat)
    requires |addresses| <= |encoded|
    ensures Writing(store, sum, NO_REFERENCE, addresses, Pieces(encoded, |addresses|), encoded, 0, 0, kind, snapshot)
  {
    hide Pieces, Holds;
    var pieces := Pieces(encoded, |addresses|);
    assert pieces[0..] == pieces && encoded[0..] == encoded && addresses[..0] == [] && pieces[..0] == [];
    HoldsNothing(store, sum, kind, snapshot);
  }

  lemma WritingStep(store: Store, sum: BlockSum, previous: Reference, addresses: seq<nat>, pieces: seq<Bytes>,
                    encoded: Bytes, cursor: nat, index: nat, kind: Kind, snapshot: nat)
    requires Writing(store, sum, previous, addresses, pieces, encoded, cursor, index, kind, snapshot) && index < |addresses|
    ensures var end := cursor + Chunk(|encoded| - cursor, |addresses| - index);
      cursor <= end <= |encoded| &&
      var block := Block(previous, encoded[cursor..end], kind, snapshot);
      addresses[index] !in addresses[..index] ==>
        Writing(store[addresses[index] := block], sum, Reference(addresses[index], sum(block)), addresses, pieces,
                encoded, end, index + 1, kind, snapshot)
  {
    hide Pieces, Holds, Chunk;
    PieceStep(encoded, cursor, pieces, index);
    if addresses[index] !in addresses[..index] {
      var end := cursor + Chunk(|encoded| - cursor, |addresses| - index);
      WriteExtends(store, sum, previous, addresses, pieces, index, Block(previous, encoded[cursor..end], kind, snapshot),
                   kind, snapshot);
    }
  }

  lemma WritingDone(store: Store, sum: BlockSum, previous: Reference, addresses: seq<nat>, pieces: seq<Bytes>,
                    encoded: Bytes, cursor: nat, kind: Kind, snapshot: nat)
    requires Writing(store, sum, previous, addresses, pieces, encoded, cursor, |addresses|, kind, snapshot) && addresses != []
    ensures Holds(store, sum, previous, addresses, pieces, kind, snapshot)
    ensures previous.address == addresses[|addresses| - 1] && previous.address in store
    ensures previous.checksum == sum(store[previous.address])
  {
    hide Holds, Pieces;
    assert addresses[..|addresses|] == addresses && pieces[..|addresses|] == pieces;
  }

  lemma PassedNone(addresses: seq<nat>, failing: set<nat>)
    ensures AllPass(addresses, failing, 0)
  {
  }

  lemma PassedOne(addresses: seq<nat>, failing: set<nat>, k: nat)
    requires k < |addresses| && AllPass(addresses, failing, k)
    requires addresses[k] !in failing && addresses[k] !in addresses[..k]
    ensures AllPass(addresses, failing, k + 1)
  {
  }

  lemma Stopped(addresses: seq<nat>, failing: set<nat>, k: nat)
    requires k < |addresses| && AllPass(addresses, failing, k)
    requires addresses[k] in failing || addresses[k] in addresses[..k]
    ensures StopsAt(addresses, failing, k) && !AllPass(addresses, failing, |addresses|)
  {
    assert !Passes(addresses, failing, k);
  }

  lemma PublishNone(s: Sets, addresses: seq<nat>)
    ensures PublishedAll(s, Indices(addresses[..0])) == s
  {
    assert addresses[..0] == [];
    assert s.acquired + {} == s.acquired && s.released - {} == s.released;
    assert s.reserved - {} == s.reserved && s.reservedReleased - {} == s.reservedReleased;
  }

  method GiveUp(allocator: BlockAllocator.BlockAllocator, addresses: seq<nat>, n: nat, failing: set<nat>, ghost s: Sets)
    requires Sound(s) && AllReserved(s, addresses) && StopsAt(addresses, failing, n)
    requires allocator.Value() == PublishedAll(s, Indices(addresses[..n]))
    modifies allocator
    ensures var a := Indices(addresses[..n]); allocator.Value() == RolledBack(s, a, Indices(addresses) - a)
  {
    assert AllPass(addresses, {}, n) by {
      forall k | 0 <= k < n ensures Passes(addresses, {}, k) { assert Passes(addresses, failing, k); }
    }
    Rollback(allocator, addresses, n, s);
  }

  /** The check that every address is reserved. */
  method CheckReserved(allocator: BlockAllocator.BlockAllocator, addresses: seq<nat>) returns (ok: bool)
    ensures ok <==> AllReserved(allocator.Value(), addresses)
  {
    var index := 0;
    while index < |addresses|
      invariant 0 <= index <= |addresses|
      invariant forall k :: 0 <= k < index ==> addresses[k] > 0 && Reserves(allocator.Value(), addresses[k] - 1)
    {
      var a := addresses[index];
      if a == 0 || a - 1 >= allocator.count || a - 1 !in allocator.reserved {
        return false;
      }
      index := index + 1;
    }
    return true;
  }

  // ---- the round trip ---------------------------------------------------------------------------

  /** Every block of the coding of a set is used, none is overfull, and the size is within the bound of checkpoints. */
  lemma CodingInPieces(words: Words, blocks: nat, capacity: nat)
    requires Valid(words) && 0 < blocks <= |ToBytes(Encode(words))| <= blocks * capacity
    ensures var encoded := ToBytes(Encode(words));
      var pieces := Pieces(encoded, blocks);
      && Joined(pieces) == encoded && Decode(FromBytes(encoded), |words|) == Some(words)
      && (forall i :: 0 <= i < blocks ==> 1 <= |pieces[i]| <= capacity)
      && |encoded| % 8 == 0 && (|words| <= LITERAL_MAX ==> |encoded| <= 8 * (|words| + 1))
  {
    hide Encode, Decode, Pieces, Joined, ToBytes, FromBytes;
    var encoded := ToBytes(Encode(words));
    PiecesProper(encoded, blocks, capacity);
    EncodeValid(words);
    BytesRoundTrip(Encode(words));
    DecodeEncode(words);
    if |words| <= LITERAL_MAX { EncodeShort(words); }
  }

  /**
    A bit set survives the whole way: encoded, cut into the blocks of a trailer,
    written, read back from the last block and decoded, it is the same set; and
    it fails exactly if the writing does.
   */
  method SetSurvivesTrailer(allocator: BlockAllocator.BlockAllocator, given: Store, addresses: seq<nat>, kind: Kind,
                            snapshot: nat, words: Words, capacity: nat, failing: set<nat>, sum: BlockSum, total: ByteSum)
    returns (r: Option<Words>)
    requires Valid(words) && capacity > 0 && Sound(allocator.Value()) && forall b :: sum(b) != 0
    modifies allocator
    ensures r == if Fits(addresses, kind, ToBytes(Encode(words)), capacity)
                    && old(AllReserved(allocator.Value(), addresses)) && AllPass(addresses, failing, |addresses|)
                 then Some(words) else None
  {
    hide Encode, Decode, Pieces, Joined, ToBytes, FromBytes, Holds, Sound, PublishedAll, RolledBack, AllPass;
    var encoded := ToBytes(Encode(words));
    var store, trailer := WriteReserved(allocator, given, addresses, kind, snapshot, encoded, capacity, failing, sum, total);
    if trailer.None? {
      return None;
    }
    CodingInPieces(words, |addresses|, capacity);
    var bytes := Read(store, trailer.value, capacity, sum, total, addresses, Pieces(encoded, |addresses|));
    return if bytes.None? then None else Decode(FromBytes(bytes.value), |words|);
  }
}
