/**
  Trailers (replication/trailer_store.go): an encoded set cut into pieces, each
  in a block that names the block before it, and read back from the last.
 */
module Trailers {
  import opened Blocks
  import opened Chains
  import opened Ewah

  type Bytes = seq<nat>

  datatype Block = Block(previous: Reference, body: Bytes, kind: Kind, snapshot: nat)

  type Store = map<nat, Block>
  /** Checksum of a block, and of a whole encoding. */
  type BlockSum = Block -> int
  type ByteSum = Bytes -> int

  datatype Trailer = Trailer(last: Reference, aggregate: int, encodedSize: nat, blockCount: nat, kind: Kind, snapshot: nat)

  /** The two types of block a trailer may have. */
  predicate ForTrailers(kind: Kind) {
    kind == FreeSet || kind == ClientSessions
  }

  // ---- cutting -----------------------------------------------------------------------------------

  function Chunk(bytes: nat, blocks: nat): (n: nat)
    requires blocks > 0
  {
    (bytes + blocks - 1) / blocks
  }

  /** The pieces the writing loop cuts: always the rounded-up average of what is left. */
  function Pieces(encoded: Bytes, blocks: nat): (r: seq<Bytes>)
    requires blocks <= |encoded|
    ensures |r| == blocks
    decreases blocks
  {
    if blocks == 0 then []
    else
      ChunkFits(|encoded|, blocks);
      var n := Chunk(|encoded|, blocks);
      [encoded[..n]] + Pieces(encoded[n..], blocks - 1)
  }

  lemma Grow(a: nat, b: nat, c: nat)
    requires a >= b
    ensures a * c >= b * c
  {
    assert a * c == b * c + (a - b) * c;
  }

  /** A chunk times the blocks is what is left, rounded up. */
  lemma ChunkProduct(bytes: nat, blocks: nat)
    requires blocks > 0
    ensures bytes <= Chunk(bytes, blocks) * blocks <= bytes + blocks - 1
  {
    var r := (bytes + blocks - 1) % blocks;
    assert bytes + blocks - 1 == Chunk(bytes, blocks) * blocks + r;
  }

  lemma ChunkFits(bytes: nat, blocks: nat)
    requires 0 < blocks <= bytes
    ensures 1 <= Chunk(bytes, blocks) && blocks - 1 <= bytes - Chunk(bytes, blocks)
  {
    hide Chunk;
    var n := Chunk(bytes, blocks);
    var d := bytes - blocks;
    ChunkProduct(bytes, blocks);
    Grow(blocks, 1, d);
    assert (d + 2) * blocks == blocks * d + 2 * blocks;
    if n >= d + 2 { Grow(n, d + 2, blocks); }
  }

  /** If what is left fits the blocks that are left, the next piece fits its block and the rest fits the others. */
  lemma ChunkBounded(bytes: nat, blocks: nat, capacity: nat)
    requires 0 < blocks && bytes <= blocks * capacity
    ensures Chunk(bytes, blocks) <= capacity
    ensures bytes - Chunk(bytes, blocks) <= (blocks - 1) * capacity
  {
    hide Chunk;
    var n := Chunk(bytes, blocks);
    ChunkProduct(bytes, blocks);
    assert (capacity + 1) * blocks == blocks * capacity + blocks;
    if n >= capacity + 1 { Grow(n, capacity + 1, blocks); }
    assert n * blocks == n + n * (blocks - 1);
    assert (blocks - 1) * capacity == capacity * (blocks - 1);
    if n <= capacity { Grow(capacity, n, blocks - 1); }
  }

  function Joined(pieces: seq<Bytes>): (r: Bytes) {
    if pieces == [] then [] else Joined(pieces[..|pieces| - 1]) + pieces[|pieces| - 1]
  }

  lemma {:induction false} JoinedFirst(first: Bytes, pieces: seq<Bytes>)
    ensures Joined([first] + pieces) == first + Joined(pieces)
    decreases |pieces|
  {
    var all := [first] + pieces;
    if pieces == [] {
      assert all[..0] == [];
      assert Joined(all) == [] + first;
    } else {
      assert all[..|all| - 1] == [first] + pieces[..|pieces| - 1];
      JoinedFirst(first, pieces[..|pieces| - 1]);
    }
  }

  /** The pieces are non-empty, fit a block, and put together give the encoding back. */
  lemma {:induction false} PiecesProper(encoded: Bytes, blocks: nat, capacity: nat)
    requires blocks <= |encoded| <= blocks * capacity
    ensures Joined(Pieces(encoded, blocks)) == encoded
    ensures forall i :: 0 <= i < blocks ==> 1 <= |Pieces(encoded, blocks)[i]| <= capacity
    decreases blocks
  {
    if blocks > 0 {
      var n := Chunk(|encoded|, blocks);
      ChunkFits(|encoded|, blocks);
      ChunkBounded(|encoded|, blocks, capacity);
      PiecesProper(encoded[n..], blocks - 1, capacity);
      JoinedFirst(encoded[..n], Pieces(encoded[n..], blocks - 1));
      assert encoded[..n] + encoded[n..] == encoded;
    }
  }

  /** The pieces are as equal as they can be, the longer ones first. */
  lemma {:induction false} PiecesEven(encoded: Bytes, blocks: nat, i: nat)
    requires i < blocks <= |encoded|
    ensures |Pieces(encoded, blocks)[i]| == |encoded| / blocks + if i < |encoded| % blocks then 1 else 0
    decreases blocks
  {
    hide Chunk;
    var q, r := |encoded| / blocks, |encoded| % blocks;
    ChunkFits(|encoded|, blocks);
    ChunkRest(|encoded|, blocks, q, r);
    if i > 0 {
      PiecesEven(encoded[Chunk(|encoded|, blocks)..], blocks - 1, i - 1);
    }
  }

  lemma ChunkRest(x: nat, blocks: nat, q: nat, r: nat)
    requires 0 < blocks <= x && q == x / blocks && r == x % blocks
    ensures Chunk(x, blocks) == q + if r > 0 then 1 else 0
    ensures blocks > 1 && Chunk(x, blocks) <= x ==>
      var rest := x - Chunk(x, blocks);
      rest / (blocks - 1) == q && rest % (blocks - 1) == if r > 0 then r - 1 else 0
  {
    hide Chunk;
    RestOf(x, blocks, q, r);
  }

  lemma RestOf(x: nat, blocks: nat, q: nat, r: nat)
    requires 0 < blocks && x == q * blocks + r && r < blocks
    ensures Chunk(x, blocks) == q + if r > 0 then 1 else 0
    ensures blocks > 1 && Chunk(x, blocks) <= x ==>
      var rest := x - Chunk(x, blocks);
      rest / (blocks - 1) == q && rest % (blocks - 1) == if r > 0 then r - 1 else 0
  {
    ChunkIs(q, r, blocks);
    hide Chunk;
    if blocks > 1 && Chunk(x, blocks) <= x {
      Divides(x - Chunk(x, blocks), blocks - 1, q, if r > 0 then r - 1 else 0);
    }
  }

  lemma ChunkIs(q: nat, r: nat, blocks: nat)
    requires r < blocks
    ensures Chunk(q * blocks + r, blocks) == q + if r > 0 then 1 else 0
  {
    var x := q * blocks + r + blocks - 1;
    if r > 0 {
      assert x == (q + 1) * blocks + (r - 1);
      Divides(x, blocks, q + 1, r - 1);
    } else {
      Divides(x, blocks, q, blocks - 1);
    }
  }

  lemma Divides(x: nat, b: nat, q: nat, r: nat)
    requires r < b && x == q * b + r
    ensures x / b == q && x % b == r
  {
    var d := x / b;
    assert x == d * b + x % b;
    if d < q {
      Grow(q, d + 1, b);
    } else if d > q {
      Grow(d, q + 1, b);
    }
  }

  // ---- chains -----------------------------------------------------------------------------------------

  /** From `last` back, the store holds the pieces at the addresses. */
  predicate Holds(store: Store, sum: BlockSum, last: Reference,
                  addresses: seq<nat>, pieces: seq<Bytes>, kind: Kind, snapshot: nat)
    decreases |pieces|
  {
    |addresses| == |pieces| &&
    if pieces == [] then last == NO_REFERENCE
    else
      var k := |pieces| - 1;
      && last.address == addresses[k] && last.address in store
      && var b := store[last.address];
         && sum(b) == last.checksum && b.body == pieces[k] && b.kind == kind && b.snapshot == snapshot
         && Holds(store, sum, b.previous, addresses[..k], pieces[..k], kind, snapshot)
  }

  /** Writing elsewhere leaves a chain alone. */
  lemma {:induction false} HoldsFrame(store: Store, other: Store, sum: BlockSum, last: Reference,
                                      addresses: seq<nat>, pieces: seq<Bytes>, kind: Kind, snapshot: nat)
    requires Holds(store, sum, last, addresses, pieces, kind, snapshot)
    requires forall i :: 0 <= i < |addresses| && addresses[i] in store ==>
               addresses[i] in other && other[addresses[i]] == store[addresses[i]]
    ensures Holds(other, sum, last, addresses, pieces, kind, snapshot)
    decreases |pieces|
  {
    if pieces != [] {
      var k := |pieces| - 1;
      assert addresses[k] in store;
      HoldsFrame(store, other, sum, store[last.address].previous, addresses[..k], pieces[..k], kind, snapshot);
    }
  }

  lemma HoldsNothing(store: Store, sum: BlockSum, kind: Kind, snapshot: nat)
    ensures Holds(store, sum, NO_REFERENCE, [], [], kind, snapshot)
  {
  }

  /** The piece at `index` is the next chunk, and what follows it are the pieces of the rest. */
  lemma PieceStep(encoded: Bytes, cursor: nat, pieces: seq<Bytes>, index: nat)
    requires index < |pieces| && cursor <= |encoded| && |pieces| - index <= |encoded| - cursor
    requires pieces[index..] == Pieces(encoded[cursor..], |pieces| - index)
    ensures var end := cursor + Chunk(|encoded| - cursor, |pieces| - index);
      && cursor < end <= |encoded| && |pieces| - index - 1 <= |encoded| - end && pieces[index] == encoded[cursor..end]
      && pieces[index + 1..] == Pieces(encoded[end..], |pieces| - index - 1)
  {
    var blocks, bytes := |pieces| - index, |encoded| - cursor;
    ChunkFits(bytes, blocks);
    var end := cursor + Chunk(bytes, blocks);
    assert encoded[cursor..][..end - cursor] == encoded[cursor..end];
    assert encoded[cursor..][end - cursor..] == encoded[end..];
    assert pieces[index] == pieces[index..][0];
    assert pieces[index + 1..] == pieces[index..][1..];
  }

  lemma WriteExtends(store: Store, sum: BlockSum, previous: Reference, addresses: seq<nat>, pieces: seq<Bytes>,
                     index: nat, block: Block, kind: Kind, snapshot: nat)
    requires index < |addresses| == |pieces| && addresses[index] !in addresses[..index]
    requires Holds(store, sum, previous, addresses[..index], pieces[..index], kind, snapshot)
    requires block == Block(previous, pieces[index], kind, snapshot)
    ensures Holds(store[addresses[index] := block], sum, Reference(addresses[index], sum(block)),
                  addresses[..index + 1], pieces[..index + 1], kind, snapshot)
  {
    var other := store[addresses[index] := block];
    HoldsFrame(store, other, sum, previous, addresses[..index], pieces[..index], kind, snapshot);
    assert addresses[..index + 1][..index] == addresses[..index] && pieces[..index + 1][..index] == pieces[..index];
  }

  // ---- reading back -----------------------------------------------------------------------------------------

  /** The trailer refers to a chain that holds `encoded` at the addresses. */
  predicate Refers(store: Store, sum: BlockSum, total: ByteSum, t: Trailer,
                   addresses: seq<nat>, pieces: seq<Bytes>, capacity: nat)
  {
    && (t.kind == FreeSet || t.kind == ClientSessions) && Holds(store, sum, t.last, addresses, pieces, t.kind, t.snapshot)
    && t.blockCount == |pieces| && t.encodedSize == |Joined(pieces)| && t.aggregate == total(Joined(pieces))
    && 0 < |pieces| <= |Joined(pieces)| <= |pieces| * capacity
    && t.last.address != 0 && t.last.checksum != 0
  }

  lemma JoinedLast(pieces: seq<Bytes>, k: nat)
    requires 0 < k <= |pieces|
    ensures Joined(pieces[..k]) == Joined(pieces[..k - 1]) + pieces[k - 1]
  {
    assert pieces[..k][..k - 1] == pieces[..k - 1];
  }

  /** `Read`: walks the chain back from the last block, filling the destination from its end. */
  method Read(store: Store, t: Trailer, capacity: nat, sum: BlockSum, total: ByteSum,
              ghost addresses: seq<nat>, ghost pieces: seq<Bytes>)
    returns (r: Option<Bytes>)
    requires capacity > 0
    ensures r.Some? ==> |r.value| == t.encodedSize && total(r.value) == t.aggregate
    ensures Refers(store, sum, total, t, addresses, pieces, capacity) ==> r == Some(Joined(pieces))
    ensures r.Some? ==> Stands(store, sum, total, t, r.value, capacity)
  {
    hide Holds, Stands, Leads;
    if t.last.address == 0 || t.last.checksum == 0 || t.encodedSize == 0 || t.blockCount == 0 || !ForTrailers(t.kind) {
      return None;
    }
    if t.blockCount < Chunk(t.encodedSize, capacity) || t.blockCount > t.encodedSize {
      MinimumFits(t, pieces, capacity);
      return None;
    }
    var destination: Bytes := [];
    var cursor, current := t.encodedSize, t.last;
    var remaining := t.blockCount;
    ghost var good := Refers(store, sum, total, t, addresses, pieces, capacity);
    ghost var whole := Joined(pieces);
    assert good ==> addresses[..remaining] == addresses && pieces[..remaining] == pieces by {
      HoldsSizes(store, sum, t, addresses, pieces);
    }
    assert good ==> |whole| == cursor && whole + [] == whole;
    assert Joined([]) == [];
    hide Refers, Joined, Chunk;
    ghost var at, ps: seq<Bytes> := [], [];
    LeadsHere(store, sum, t.last, t.kind, t.snapshot);
    while remaining > 0
      invariant 0 <= remaining <= t.blockCount && 0 <= cursor && cursor + |destination| == t.encodedSize
      invariant good ==>
        && remaining <= |pieces| == |addresses| && cursor == |Joined(pieces[..remaining])|
        && Holds(store, sum, current, addresses[..remaining], pieces[..remaining], t.kind, t.snapshot)
        && whole == Joined(pieces[..remaining]) + destination
      invariant |at| == |ps| == t.blockCount - remaining && destination == Joined(ps)
      invariant Leads(store, sum, t.last, current, at, ps, t.kind, t.snapshot)
      decreases remaining
    {
      if good {
        ChainStep(store, sum, current, addresses, pieces, remaining, t.kind, t.snapshot);
        JoinedLast(pieces, remaining);
      }
      if current.address !in store || sum(store[current.address]) != current.checksum
         || store[current.address].kind != t.kind {
        return None;
      }
      var block := store[current.address];
      if block.snapshot != t.snapshot || |block.body| > cursor {
        return None;
      }
      LeadsBack(store, sum, t.last, current, at, ps, t.kind, t.snapshot);
      JoinedFirst(block.body, ps);
      at, ps := [current.address] + at, [block.body] + ps;
      cursor := cursor - |block.body|;
      destination := block.body + destination;
      current := block.previous;
      remaining := remaining - 1;
    }
    if good {
      assert pieces[..0] == [] && addresses[..0] == [];
      assert [] + destination == destination;
      assert current == NO_REFERENCE by { HoldsNone(store, sum, current, t.kind, t.snapshot); }
    }
    if cursor != 0 || current.address != 0 || current.checksum != 0 || total(destination) != t.aggregate {
      return None;
    }
    LeadsOut(store, sum, total, t, at, ps, capacity);
    return Some(destination);
  }

  /** Some chain of blocks stands that the trailer refers to and that spells `encoded`. */
  ghost predicate Stands(store: Store, sum: BlockSum, total: ByteSum, t: Trailer, encoded: Bytes, capacity: nat) {
    exists addresses, pieces :: Refers(store, sum, total, t, addresses, pieces, capacity) && Joined(pieces) == encoded
  }

  /** Whatever chain ends at `current`, the blocks `at` continue it up to `last`. */
  ghost predicate Leads(store: Store, sum: BlockSum, last: Reference, current: Reference,
                        at: seq<nat>, ps: seq<Bytes>, kind: Kind, snapshot: nat)
  {
    forall addresses, pieces :: Holds(store, sum, current, addresses, pieces, kind, snapshot) ==>
      Holds(store, sum, last, addresses + at, pieces + ps, kind, snapshot)
  }

  lemma LeadsHere(store: Store, sum: BlockSum, last: Reference, kind: Kind, snapshot: nat)
    ensures Leads(store, sum, last, last, [], [], kind, snapshot)
  {
    hide Holds;
    forall addresses, pieces: seq<Bytes> | Holds(store, sum, last, addresses, pieces, kind, snapshot)
      ensures Holds(store, sum, last, addresses + [], pieces + [], kind, snapshot)
    {
      assert addresses + [] == addresses && pieces + [] == pieces;
    }
  }

  lemma HoldsNext(store: Store, sum: BlockSum, current: Reference, addresses: seq<nat>, pieces: seq<Bytes>,
                  kind: Kind, snapshot: nat)
    requires current.address in store && sum(store[current.address]) == current.checksum
    requires store[current.address].kind == kind && store[current.address].snapshot == snapshot
    requires Holds(store, sum, store[current.address].previous, addresses, pieces, kind, snapshot)
    ensures Holds(store, sum, current, addresses + [current.address], pieces + [store[current.address].body], kind, snapshot)
  {
    var a, p := addresses + [current.address], pieces + [store[current.address].body];
    assert a[..|p| - 1] == addresses && p[..|p| - 1] == pieces;
  }

  lemma LeadsBack(store: Store, sum: BlockSum, last: Reference, current: Reference,
                  at: seq<nat>, ps: seq<Bytes>, kind: Kind, snapshot: nat)
    requires Leads(store, sum, last, current, at, ps, kind, snapshot)
    requires current.address in store && sum(store[current.address]) == current.checksum
    requires store[current.address].kind == kind && store[current.address].snapshot == snapshot
    ensures var b := store[current.address];
      Leads(store, sum, last, b.previous, [current.address] + at, [b.body] + ps, kind, snapshot)
  {
    hide Holds;
    var b := store[current.address];
    forall addresses, pieces: seq<Bytes> | Holds(store, sum, b.previous, addresses, pieces, kind, snapshot)
      ensures Holds(store, sum, last, addresses + ([current.address] + at), pieces + ([b.body] + ps), kind, snapshot)
    {
      HoldsNext(store, sum, current, addresses, pieces, kind, snapshot);
      assert addresses + [current.address] + at == addresses + ([current.address] + at);
      assert pieces + [b.body] + ps == pieces + ([b.body] + ps);
    }
  }

  lemma LeadsOut(store: Store, sum: BlockSum, total: ByteSum, t: Trailer, at: seq<nat>, ps: seq<Bytes>, capacity: nat)
    requires Leads(store, sum, t.last, NO_REFERENCE, at, ps, t.kind, t.snapshot) && ForTrailers(t.kind) && capacity > 0
    requires |ps| == t.blockCount && |Joined(ps)| == t.encodedSize && total(Joined(ps)) == t.aggregate
    requires t.last.address != 0 && t.last.checksum != 0 && 0 < t.blockCount <= t.encodedSize
    requires Chunk(t.encodedSize, capacity) <= t.blockCount
    ensures Stands(store, sum, total, t, Joined(ps), capacity)
  {
    assert Holds(store, sum, NO_REFERENCE, [], [], t.kind, t.snapshot);
    assert [] + at == at && [] + ps == ps;
    ChunkProduct(t.encodedSize, capacity);
    Grow(t.blockCount, Chunk(t.encodedSize, capacity), capacity);
    assert Refers(store, sum, total, t, at, ps, capacity);
  }

  lemma HoldsSizes(store: Store, sum: BlockSum, t: Trailer, addresses: seq<nat>, pieces: seq<Bytes>)
    ensures Holds(store, sum, t.last, addresses, pieces, t.kind, t.snapshot) ==> |addresses| == |pieces|
  {
  }

  lemma HoldsNone(store: Store, sum: BlockSum, current: Reference, kind: Kind, snapshot: nat)
    requires Holds(store, sum, current, [], [], kind, snapshot)
    ensures current == NO_REFERENCE
  {
  }

  lemma ChainStep(store: Store, sum: BlockSum, current: Reference, addresses: seq<nat>, pieces: seq<Bytes>,
                  k: nat, kind: Kind, snapshot: nat)
    requires 0 < k <= |addresses| == |pieces| && Holds(store, sum, current, addresses[..k], pieces[..k], kind, snapshot)
    ensures current.address in store
    ensures var b := store[current.address];
      && sum(b) == current.checksum && b.body == pieces[k - 1] && b.kind == kind && b.snapshot == snapshot
      && Holds(store, sum, b.previous, addresses[..k - 1], pieces[..k - 1], kind, snapshot)
  {
    assert addresses[..k][..k - 1] == addresses[..k - 1] && pieces[..k][..k - 1] == pieces[..k - 1];
  }

  lemma MinimumFits(t: Trailer, pieces: seq<Bytes>, capacity: nat)
    requires capacity > 0
    ensures 0 < |pieces| && |Joined(pieces)| <= |pieces| * capacity ==> Chunk(|Joined(pieces)|, capacity) <= |pieces|
  {
    if 0 < |pieces| && |Joined(pieces)| <= |pieces| * capacity {
      ChunkProduct(|Joined(pieces)|, capacity);
      var n := Chunk(|Joined(pieces)|, capacity);
      assert (|pieces| + 1) * capacity == |pieces| * capacity + capacity;
      if n >= |pieces| + 1 { Grow(n, |pieces| + 1, capacity); }
    }
  }

  // ---- words and bytes -----------------------------------------------------------------------------------------

  function Pow256(n: nat): (r: nat)
    ensures r > 0
  {
    if n == 0 then 1 else 256 * Pow256(n - 1)
  }

  /** The low `n` bytes of a number, least first. */
  function Digits(w: nat, n: nat): (b: Bytes)
    ensures |b| == n
  {
    if n == 0 then [] else [w % 256] + Digits(w / 256, n - 1)
  }

  /** Byte `k` is the one with weight 256 to the `k`. */
  lemma {:induction false} DigitAt(w: nat, n: nat, k: nat)
    requires k < n
    ensures Digits(w, n)[k] == w / Pow256(k) % 256
    decreases n
  {
    if k > 0 {
      DigitAt(w / 256, n - 1, k - 1);
      QuotientTwice(w, Pow256(k - 1));
    }
  }

  lemma QuotientTwice(w: nat, p: nat)
    requires p > 0
    ensures w / 256 / p == w / (256 * p)
  {
    var q, r := w / (256 * p), w % (256 * p);
    assert w == q * (256 * p) + r;
    var a, b := w / 256, w % 256;
    assert 256 * a + b == w;
    var c, d := a / p, a % p;
    assert a == c * p + d;
    assert w == c * (256 * p) + (256 * d + b);
    assert 256 * d + b < 256 * p;
    Divides(w, 256 * p, c, 256 * d + b);
  }

  function Number(b: Bytes): (w: nat) {
    if b == [] then 0 else b[0] + 256 * Number(b[1..])
  }

  lemma {:induction false} NumberOfDigits(w: nat, n: nat)
    requires w < Pow256(n)
    ensures Number(Digits(w, n)) == w
  {
    if n > 0 {
      NumberOfDigits(w / 256, n - 1);
      assert Digits(w, n)[1..] == Digits(w / 256, n - 1);
    }
  }

  lemma WordSize()
    ensures Pow256(8) == WORD
  {
    assert Pow256(2) == 0x1_0000;
    assert Pow256(4) == 0x1_0000_0000;
    assert Pow256(6) == 0x1_0000_0000_0000;
  }

  function ToBytes(words: Words): (b: Bytes)
    ensures |b| == 8 * |words|
  {
    if words == [] then [] else Digits(words[0], 8) + ToBytes(words[1..])
  }

  function FromBytes(b: Bytes): (words: Words)
    decreases |b|
  {
    if |b| < 8 then [] else [Number(b[..8])] + FromBytes(b[8..])
  }

  lemma {:induction false} BytesRoundTrip(words: Words)
    requires Valid(words)
    ensures FromBytes(ToBytes(words)) == words
  {
    hide Number, Digits;
    if words != [] {
      WordSize();
      NumberOfDigits(words[0], 8);
      BytesRoundTrip(words[1..]);
      assert ToBytes(words)[..8] == Digits(words[0], 8) && ToBytes(words)[8..] == ToBytes(words[1..]);
    }
  }
}
