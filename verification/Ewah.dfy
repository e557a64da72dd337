/**
  Run-length coding of bit sets (replication/ewah.go).  A set is a sequence of
  64-bit words; the coding alternates a marker word, which counts words that
  are all zeros or all ones and words that follow literally, and those words.
 */
module Ewah {
  import opened Chains
  import opened Powers

  const ONES := 0xffff_ffff_ffff_ffff
  const WORD := 0x1_0000_0000_0000_0000
  const HALF := 0x1_0000_0000
  const FILL_MAX := 0x7fff_ffff
  const LITERAL_MAX := 0xffff_ffff

  type Words = seq<nat>

  predicate IsFill(w: nat) { w == 0 || w == ONES }

  predicate Valid(words: Words) {
    forall i :: 0 <= i < |words| ==> words[i] < WORD
  }

  // ---- the coding ------------------------------------------------------------------------------

  /** Leading words equal to `w`, no more than a marker can count. */
  function FillRun(words: Words, w: nat, most: nat): (n: nat)
    ensures n <= |words| && n <= most && forall i :: 0 <= i < n ==> words[i] == w
    ensures n < |words| && n < most ==> words[n] != w
    decreases |words|
  {
    if words == [] || words[0] != w || most == 0 then 0 else 1 + FillRun(words[1..], w, most - 1)
  }

  /** Leading words that have to be spelled out. */
  function LiteralRun(words: Words, most: nat): (n: nat)
    ensures n <= |words| && n <= most && forall i :: 0 <= i < n ==> !IsFill(words[i])
    ensures n < |words| && n < most ==> IsFill(words[n])
    decreases |words|
  {
    if words == [] || IsFill(words[0]) || most == 0 then 0 else 1 + LiteralRun(words[1..], most - 1)
  }

  function Marker(ones: bool, fill: nat, literals: nat): (m: nat) {
    literals * HALF + fill * 2 + if ones then 1 else 0
  }

  /** The run of fills and the run of literals that the next marker describes. */
  datatype Segment = Segment(ones: bool, fill: nat, literals: nat)

  function Next(words: Words): (s: Segment)
    requires words != []
    ensures s.fill <= FILL_MAX && s.literals <= LITERAL_MAX && 0 < s.fill + s.literals <= |words|
    ensures forall i :: 0 <= i < s.fill ==> words[i] == if s.ones then ONES else 0
    ensures forall i :: s.fill <= i < s.fill + s.literals ==> !IsFill(words[i])
    ensures s.fill == 0 <==> !IsFill(words[0])
    ensures s.fill + s.literals < |words| && s.literals < LITERAL_MAX ==> IsFill(words[s.fill + s.literals])
  {
    var fill := if IsFill(words[0]) then FillRun(words, words[0], FILL_MAX) else 0;
    var literals := LiteralRun(words[fill..], LITERAL_MAX);
    Segment(IsFill(words[0]) && words[0] == ONES, fill, literals)
  }

  function Encode(words: Words): (r: seq<nat>)
    decreases |words|
  {
    if words == [] then []
    else
      var s := Next(words);
      [Marker(s.ones, s.fill, s.literals)] + words[s.fill..s.fill + s.literals] + Encode(words[s.fill + s.literals..])
  }

  function Repeat(w: nat, n: nat): (r: Words) {
    seq(n, _ => w)
  }

  predicate AllLiteral(words: Words) {
    forall i :: 0 <= i < |words| ==> !IsFill(words[i])
  }

  function MarkerFill(m: nat): (n: nat) { (m / 2) % (FILL_MAX + 1) }
  function MarkerLiterals(m: nat): (n: nat) { m / HALF }
  function MarkerWord(m: nat): (w: nat) { if m % 2 == 1 then ONES else 0 }

  /** What decoding `encoded` into exactly `n` words gives. */
  function Decode(encoded: seq<nat>, n: nat): (r: Option<Words>)
    decreases |encoded|
  {
    if encoded == [] then (if n == 0 then Some([]) else None)
    else
      var fill, literals := MarkerFill(encoded[0]), MarkerLiterals(encoded[0]);
      if (fill == 0 && literals == 0) || literals > |encoded| - 1 || fill > n || literals > n - fill
         || !AllLiteral(encoded[1..1 + literals]) then None
      else
        match Decode(encoded[1 + literals..], n - fill - literals)
        case None => None
        case Some(rest) => Some(Repeat(MarkerWord(encoded[0]), fill) + encoded[1..1 + literals] + rest)
  }

  // ---- decoding undoes encoding ---------------------------------------------------------------------

  lemma MarkerFields(ones: bool, fill: nat, literals: nat)
    requires fill <= FILL_MAX && literals <= LITERAL_MAX
    ensures var m := Marker(ones, fill, literals);
      MarkerFill(m) == fill && MarkerLiterals(m) == literals && MarkerWord(m) == (if ones then ONES else 0) && m < WORD
  {
    var m := Marker(ones, fill, literals);
    var low := fill * 2 + if ones then 1 else 0;
    assert low < HALF;
    assert m / 2 == literals * (FILL_MAX + 1) + fill;
  }

  /** One segment of a coding, decoded. */
  lemma DecodeSegment(marker: nat, literals: Words, tail: seq<nat>, rest: Words, n: nat)
    requires MarkerLiterals(marker) == |literals| && MarkerFill(marker) + |literals| > 0 && AllLiteral(literals)
    requires n == MarkerFill(marker) + |literals| + |rest| && Decode(tail, |rest|) == Some(rest)
    ensures Decode([marker] + literals + tail, n) == Some(Repeat(MarkerWord(marker), MarkerFill(marker)) + literals + rest)
  {
    hide MarkerFill, MarkerLiterals, MarkerWord;
    var encoded := [marker] + literals + tail;
    assert encoded[1..1 + |literals|] == literals;
    assert encoded[1 + |literals|..] == tail;
  }

  /** The first marker is of `fill` equal words and `literals` words that follow it, none of them all zeros or all ones. */
  predicate Segments(encoded: seq<nat>, words: Words, ones: bool, fill: nat, literals: nat)
    requires encoded != []
  {
    && encoded[0] == literals * 0x1_0000_0000 + 2 * fill + (if ones then 1 else 0) && fill < 0x8000_0000 && fill + literals > 0
    && literals < |encoded| && fill + literals <= |words|
    && (forall i :: 0 <= i < fill ==> words[i] == if ones then 0xffff_ffff_ffff_ffff else 0)
    && words[fill..fill + literals] == encoded[1..1 + literals]
    && forall i :: 0 < i <= literals ==> encoded[i] != 0 && encoded[i] != 0xffff_ffff_ffff_ffff
  }

  /** `encoded` spells `words`, one marker after the other. */
  ghost predicate Codes(encoded: seq<nat>, words: Words)
    decreases |encoded|
  {
    if encoded == [] then words == []
    else exists ones, fill: nat, literals: nat ::
      Segments(encoded, words, ones, fill, literals) && Codes(encoded[1 + literals..], words[fill + literals..])
  }

  /** Decoding accepts exactly what spells some words, and gives those words. */
  lemma {:induction false} DecodeIff(encoded: seq<nat>, words: Words)
    requires Valid(encoded)
    ensures Decode(encoded, |words|) == Some(words) <==> Codes(encoded, words)
    decreases |encoded|
  {
    hide Decode;
    if encoded == [] {
      DecodeNothing(words);
    } else {
      if Decode(encoded, |words|) == Some(words) {
        var ones, fill, literals := FirstSegment(encoded, words);
        DecodeIff(encoded[1 + literals..], words[fill + literals..]);
      }
      if Codes(encoded, words) {
        var ones, fill: nat, literals: nat :|
          Segments(encoded, words, ones, fill, literals) && Codes(encoded[1 + literals..], words[fill + literals..]);
        DecodeIff(encoded[1 + literals..], words[fill + literals..]);
        SegmentDecodes(encoded, words, ones, fill, literals);
      }
    }
  }

  lemma MarkerSplits(m: nat)
    requires m < WORD
    ensures m == MarkerLiterals(m) * HALF + 2 * MarkerFill(m) + m % 2 && MarkerFill(m) <= FILL_MAX
  {
    var l := m / HALF;
    var low := m % HALF;
    assert m == l * HALF + low;
    assert m / 2 == l * (FILL_MAX + 1) + low / 2;
  }

  /** What decodes to some words starts with a segment of them. */
  lemma FirstSegment(encoded: seq<nat>, words: Words) returns (ones: bool, fill: nat, literals: nat)
    requires Valid(encoded) && encoded != [] && Decode(encoded, |words|) == Some(words)
    ensures Segments(encoded, words, ones, fill, literals) && Valid(encoded[1 + literals..])
    ensures Decode(encoded[1 + literals..], |words[fill + literals..]|) == Some(words[fill + literals..])
  {
    var m := encoded[0];
    ones, fill, literals := m % 2 == 1, MarkerFill(m), MarkerLiterals(m);
    MarkerSplits(m);
    var rest := Decode(encoded[1 + literals..], |words| - fill - literals).value;
    assert words == Repeat(MarkerWord(m), fill) + encoded[1..1 + literals] + rest;
    assert AllLiteral(encoded[1..1 + literals]);
    hide MarkerFill, MarkerLiterals, Decode;
    assert words[fill + literals..] == rest && words[fill..fill + literals] == encoded[1..1 + literals];
    forall i | 0 < i <= literals
      ensures encoded[i] != 0 && encoded[i] != ONES
    {
      assert encoded[1..1 + literals][i - 1] == encoded[i];
    }
  }

  lemma SegmentDecodes(encoded: seq<nat>, words: Words, ones: bool, fill: nat, literals: nat)
    requires Valid(encoded) && encoded != [] && Segments(encoded, words, ones, fill, literals)
    requires Decode(encoded[1 + literals..], |words[fill + literals..]|) == Some(words[fill + literals..])
    ensures Decode(encoded, |words|) == Some(words)
  {
    hide Decode;
    var m := encoded[0];
    assert literals <= LITERAL_MAX;
    assert m == Marker(ones, fill, literals);
    MarkerFields(ones, fill, literals);
    hide Marker, MarkerFill, MarkerLiterals, MarkerWord;
    var spelt, tail, rest := encoded[1..1 + literals], encoded[1 + literals..], words[fill + literals..];
    assert encoded == [m] + spelt + tail;
    DecodeSegment(m, spelt, tail, rest, |words|);
    assert words == Repeat(if ones then ONES else 0, fill) + spelt + rest;
  }

  lemma {:induction false} DecodeEncode(words: Words)
    ensures Decode(Encode(words), |words|) == Some(words)
    decreases |words|
  {
    hide MarkerFill, MarkerLiterals, MarkerWord, Marker, Decode, Next;
    if words == [] {
      DecodeNothing(words);
    } else {
      var s := Next(words);
      var k := s.fill + s.literals;
      DecodeEncode(words[k..]);
      MarkerFields(s.ones, s.fill, s.literals);
      DecodeSegment(Marker(s.ones, s.fill, s.literals), words[s.fill..k], Encode(words[k..]), words[k..], |words|);
      assert words == Repeat(if s.ones then ONES else 0, s.fill) + words[s.fill..k] + words[k..];
    }
  }

  lemma DecodeNothing(words: Words)
    ensures Decode([], |words|) == Some(words) <==> words == []
  {
  }

  // ---- the coding is short -------------------------------------------------------------------------------

  lemma {:induction false} EncodeFill(words: Words)
    requires |words| <= LITERAL_MAX
    ensures |Encode(words)| <= |words| + if words != [] && !IsFill(words[0]) then 1 else 0
    decreases |words|
  {
    hide Marker, Next;
    if words != [] {
      var s := Next(words);
      var rest := words[s.fill + s.literals..];
      EncodeFill(rest);
      EncodeSize(words);
      if rest != [] {
        assert rest[0] == words[s.fill + s.literals];
      }
    }
  }

  lemma EncodeSize(words: Words)
    requires words != []
    ensures var s := Next(words);
      |Encode(words)| == 1 + s.literals + |Encode(words[s.fill + s.literals..])|
  {
    hide Marker, Next;
  }

  /** Below 2^32 words the coding is at most one word longer than the set, and empty only for the empty set. */
  lemma EncodeShort(words: Words)
    requires |words| <= LITERAL_MAX
    ensures |Encode(words)| <= |words| + 1 && (Encode(words) == [] <==> words == [])
  {
    EncodeFill(words);
  }

  lemma {:induction false} EncodeValid(words: Words)
    requires Valid(words)
    ensures Valid(Encode(words))
    decreases |words|
  {
    hide Marker, Next;
    if words != [] {
      var s := Next(words);
      var k := s.fill + s.literals;
      EncodeValid(words[k..]);
      MarkerFields(s.ones, s.fill, s.literals);
      ValidParts(Marker(s.ones, s.fill, s.literals), words[s.fill..k], Encode(words[k..]));
    }
  }

  lemma ValidParts(marker: nat, literals: Words, rest: Words)
    requires marker < WORD && Valid(literals) && Valid(rest)
    ensures Valid([marker] + literals + rest)
  {
  }

  // ---- the loops ---------------------------------------------------------------------------------------------

  /** `validTail`: no bit beyond the length is set. */
  predicate ValidTail(words: Words, length: nat) {
    length % 64 == 0 || words == [] || words[|words| - 1] < Pow2(length % 64)
  }

  /** Bit `k` of the set. */
  predicate Bit(words: Words, k: nat)
    requires k < 64 * |words|
  {
    words[k / 64] / Pow2(k % 64) % 2 == 1
  }

  /** A number is below a power of two exactly if all its bits from there on are zero. */
  lemma {:induction false} HighBits(w: nat, m: nat, n: nat)
    requires m <= n && w < Pow2(n)
    ensures w < Pow2(m) <==> forall j :: m <= j < n ==> w / Pow2(j) % 2 == 0
  {
    if m < n {
      PowerGrows(m, n - 1);
      if w < Pow2(n - 1) {
        HighBits(w, m, n - 1);
        Below(w, Pow2(n - 1));
      } else {
        TopBit(w, Pow2(n - 1));
      }
    }
  }

  lemma {:induction false} PowerGrows(m: nat, n: nat)
    requires m <= n
    ensures Pow2(m) <= Pow2(n)
  {
    if m < n { PowerGrows(m, n - 1); }
  }

  lemma Below(w: nat, p: nat)
    requires w < p
    ensures w / p == 0
  {
  }

  lemma TopBit(w: nat, p: nat)
    requires p <= w < 2 * p
    ensures w / p == 1
  {
  }

  lemma BitAt(words: Words, last: nat, j: nat)
    requires last < |words| && j < 64
    ensures Bit(words, 64 * last + j) <==> words[last] / Pow2(j) % 2 == 1
  {
    assert (64 * last + j) / 64 == last && (64 * last + j) % 64 == j;
  }

  lemma LastWordIff(words: Words, last: nat, m: nat)
    requires Valid(words) && |words| == last + 1 && m < 64
    ensures words[last] < Pow2(m) <==> forall k :: 64 * last + m <= k < 64 * last + 64 ==> !Bit(words, k)
  {
    Pow2Of64();
    hide Pow2, Bit;
    HighBits(words[last], m, 64);
    forall k | 64 * last + m <= k < 64 * last + 64
      ensures Bit(words, k) <==> words[last] / Pow2(k - 64 * last) % 2 == 1
    {
      BitAt(words, last, k - 64 * last);
    }
    if j :| m <= j < 64 && words[last] / Pow2(j) % 2 != 0 {
      BitAt(words, last, j);
      assert Bit(words, 64 * last + j);
    }
  }

  /** The tail is valid exactly if no bit from the length on is set. */
  lemma TailIff(words: Words, length: nat)
    requires Valid(words) && |words| == (length + 63) / 64
    ensures ValidTail(words, length) <==> forall k :: length <= k < 64 * |words| ==> !Bit(words, k)
  {
    hide Bit, Pow2, Valid;
    if length % 64 != 0 {
      var last := length / 64;
      assert length == 64 * last + length % 64 && |words| == last + 1;
      LastWordIff(words, last, length % 64);
    }
  }

  lemma {:induction false} FillRunUnique(words: Words, w: nat, most: nat, n: nat)
    requires n <= |words| && n <= most && (forall i :: 0 <= i < n ==> words[i] == w)
    requires n < |words| && n < most ==> words[n] != w
    ensures n == FillRun(words, w, most)
    decreases |words|
  {
    if n > 0 { FillRunUnique(words[1..], w, most - 1, n - 1); }
  }

  lemma {:induction false} LiteralRunUnique(words: Words, most: nat, n: nat)
    requires n <= |words| && n <= most && (forall i :: 0 <= i < n ==> !IsFill(words[i]))
    requires n < |words| && n < most ==> IsFill(words[n])
    ensures n == LiteralRun(words, most)
    decreases |words|
  {
    if n > 0 { LiteralRunUnique(words[1..], most - 1, n - 1); }
  }

  method ScanLiterals(words: Words, start: nat) returns (literals: nat)
    requires start <= |words|
    ensures literals == LiteralRun(words[start..], LITERAL_MAX)
  {
    literals := 0;
    ghost var tail := words[start..];
    while start + literals < |words| && literals < LITERAL_MAX && !IsFill(words[start + literals])
      invariant start + literals <= |words| && literals <= LITERAL_MAX
      invariant forall i :: 0 <= i < literals ==> !IsFill(tail[i])
    {
      literals := literals + 1;
    }
    LiteralRunUnique(tail, LITERAL_MAX, literals);
  }

  /** The two scans of `EncodeEWAH` for the next marker. */
  method Scan(words: Words, start: nat) returns (s: Segment)
    requires start < |words|
    ensures s == Next(words[start..])
  {
    var rest := words[start..];
    var cursor := start;
    var fill, ones := 0, false;
    if words[cursor] == 0 || words[cursor] == ONES {
      var w := words[cursor];
      ones := w == ONES;
      while cursor < |words| && words[cursor] == w && fill < FILL_MAX
        invariant cursor == start + fill <= |words| && fill <= FILL_MAX
        invariant forall i :: 0 <= i < fill ==> rest[i] == w
      {
        fill, cursor := fill + 1, cursor + 1;
      }
      FillRunUnique(rest, w, FILL_MAX, fill);
    }
    var literals := ScanLiterals(words, cursor);
    assert rest[fill..] == words[cursor..];
    return Segment(ones, fill, literals);
  }

  /** `EncodeEWAH`: writes the coding, unless the tail is dirty or the destination too short. */
  method EncodeEWAH(words: Words, length: nat, destination: array<nat>) returns (written: nat, ok: bool)
    modifies destination
    ensures ok <==> ValidTail(words, length) && |Encode(words)| <= destination.Length
    ensures ok ==> written == |Encode(words)| <= destination.Length && destination[..written] == Encode(words)
  {
    hide Encode, Marker, Next, ValidTail;
    written := 0;
    if !ValidTail(words, length) {
      return written, false;
    }
    var cursor := 0;
    assert words[0..] == words;
    while cursor < |words|
      invariant cursor <= |words| && written <= destination.Length
      invariant Encode(words) == destination[..written] + Encode(words[cursor..])
      decreases |words| - cursor
    {
      var s := Scan(words, cursor);
      EncodeFrom(words, cursor);
      var literals := words[cursor + s.fill..cursor + s.fill + s.literals];
      if written >= destination.Length || s.literals > destination.Length - written - 1 {
        return written, false;
      }
      ghost var rest := Encode(words[cursor + s.fill + s.literals..]);
      Regroup(destination[..written], Marker(s.ones, s.fill, s.literals), literals, rest);
      WriteSegment(destination, written, Marker(s.ones, s.fill, s.literals), literals);
      written := written + 1 + s.literals;
      cursor := cursor + s.fill + s.literals;
    }
    EncodeEnd(words);
    return written, true;
  }

  lemma EncodeFrom(words: Words, cursor: nat)
    requires cursor < |words|
    ensures var s := Next(words[cursor..]);
      var end := cursor + s.fill + s.literals;
      && cursor < end <= |words|
      && Encode(words[cursor..]) == [Marker(s.ones, s.fill, s.literals)] + words[cursor + s.fill..end] + Encode(words[end..])
  {
    hide Marker, Next;
    var rest := words[cursor..];
    var s := Next(rest);
    assert rest[s.fill + s.literals..] == words[cursor + s.fill + s.literals..];
    assert rest[s.fill..s.fill + s.literals] == words[cursor + s.fill..cursor + s.fill + s.literals];
  }

  lemma Regroup(done: seq<nat>, marker: nat, literals: seq<nat>, rest: seq<nat>)
    ensures done + ([marker] + literals + rest) == (done + [marker] + literals) + rest
  {
  }

  lemma EncodeEnd(words: Words)
    ensures Encode(words[|words|..]) == []
  {
  }

  method WriteSegment(a: array<nat>, at: nat, marker: nat, literals: seq<nat>)
    requires at + 1 + |literals| <= a.Length
    modifies a
    ensures a[..at + 1 + |literals|] == old(a[..at]) + [marker] + literals
  {
    a[at] := marker;
    CopyInto(a, at + 1, literals);
    assert a[..at + 1 + |literals|] == a[..at] + [a[at]] + a[at + 1..at + 1 + |literals|];
  }

  method CopyInto(a: array<nat>, at: nat, source: seq<nat>)
    requires at + |source| <= a.Length
    modifies a
    ensures forall i :: 0 <= i < a.Length && !(at <= i < at + |source|) ==> a[i] == old(a[i])
    ensures a[at..at + |source|] == source
  {
    for k := 0 to |source|
      invariant forall i :: 0 <= i < a.Length && !(at <= i < at + k) ==> a[i] == old(a[i])
      invariant a[at..at + k] == source[..k]
    {
      a[at + k] := source[k];
      assert a[at..at + k + 1] == a[at..at + k] + [source[k]];
    }
    assert source[..|source|] == source;
  }

  /** What remains of a decoding when `done` has been written. */
  predicate Remains(whole: Option<Words>, done: Words, rest: Option<Words>) {
    whole == match rest case None => None case Some(r) => Some(done + r)
  }

  /** The checks `DecodeEWAH` makes on one marker. */
  predicate Readable(encoded: seq<nat>, offset: nat, room: nat) {
    offset < |encoded| &&
    var fill, literals := MarkerFill(encoded[offset]), MarkerLiterals(encoded[offset]);
    && !(fill == 0 && literals == 0) && literals <= |encoded| - offset - 1 && fill <= room && literals <= room - fill
    && AllLiteral(encoded[offset + 1..offset + 1 + literals])
  }

  lemma DecodeFrom(encoded: seq<nat>, offset: nat, room: nat)
    requires offset < |encoded|
    ensures Decode(encoded[offset..], room).Some? ==> Readable(encoded, offset, room)
    ensures Readable(encoded, offset, room) ==>
      var fill, literals := MarkerFill(encoded[offset]), MarkerLiterals(encoded[offset]);
      Remains(Decode(encoded[offset..], room),
              Repeat(MarkerWord(encoded[offset]), fill) + encoded[offset + 1..offset + 1 + literals],
              Decode(encoded[offset + 1 + literals..], room - fill - literals))
  {
    hide MarkerFill, MarkerLiterals, MarkerWord;
    var rest := encoded[offset..];
    var literals := MarkerLiterals(encoded[offset]);
    if literals <= |rest| - 1 {
      assert rest[1..1 + literals] == encoded[offset + 1..offset + 1 + literals];
      assert rest[1 + literals..] == encoded[offset + 1 + literals..];
    }
  }

  lemma RemainsNext(whole: Option<Words>, done: Words, mid: Option<Words>, more: Words, rest: Option<Words>)
    requires Remains(whole, done, mid) && Remains(mid, more, rest)
    ensures Remains(whole, done + more, rest)
  {
    if rest.Some? { assert done + (more + rest.value) == (done + more) + rest.value; }
  }

  /** `DecodeEWAH`: fills the words, or refuses a coding that does not describe exactly them. */
  method DecodeEWAH(encoded: seq<nat>, length: nat, a: array<nat>) returns (ok: bool)
    modifies a
    ensures ok <==> Decode(encoded, a.Length).Some? && ValidTail(Decode(encoded, a.Length).value, length)
    ensures ok ==> Decode(encoded, a.Length) == Some(a[..])
  {
    hide Decode, MarkerFill, MarkerLiterals, MarkerWord, ValidTail, AllLiteral, Repeat;
    var cursor, offset := 0, 0;
    ghost var whole := Decode(encoded, a.Length);
    assert encoded[0..] == encoded && (whole.Some? ==> [] + whole.value == whole.value);
    while offset < |encoded|
      invariant 0 <= offset <= |encoded| && 0 <= cursor <= a.Length
      invariant Remains(whole, a[..cursor], Decode(encoded[offset..], a.Length - cursor))
      decreases |encoded| - offset
    {
      ghost var done, room := a[..cursor], a.Length - cursor;
      DecodeFrom(encoded, offset, room);
      var fill, literals := MarkerFill(encoded[offset]), MarkerLiterals(encoded[offset]);
      if (fill == 0 && literals == 0) || literals > |encoded| - offset - 1 || fill > a.Length - cursor
         || literals > a.Length - cursor - fill {
        return false;
      }
      var spelled := encoded[offset + 1..offset + 1 + literals];
      var clean := CheckLiterals(spelled);
      if !clean {
        return false;
      }
      WriteDecoded(a, cursor, MarkerWord(encoded[offset]), fill, spelled);
      RemainsNext(whole, done, Decode(encoded[offset..], room), Repeat(MarkerWord(encoded[offset]), fill) + spelled,
                  Decode(encoded[offset + 1 + literals..], room - fill - literals));
      cursor := cursor + fill + literals;
      offset := offset + 1 + literals;
    }
    DecodeEnd(a.Length - cursor);
    assert encoded[offset..] == [];
    if cursor != a.Length {
      return false;
    }
    assert a[..cursor] == a[..] && a[..] + [] == a[..];
    ok := ValidTail(a[..], length);
  }

  /** The fill words and the literals of one marker. */
  method WriteDecoded(a: array<nat>, at: nat, w: nat, fill: nat, literals: seq<nat>)
    requires at + fill + |literals| <= a.Length
    modifies a
    ensures a[..at + fill + |literals|] == old(a[..at]) + (Repeat(w, fill) + literals)
  {
    CopyInto(a, at, Repeat(w, fill));
    assert a[..at + fill] == old(a[..at]) + Repeat(w, fill);
    ghost var filled := a[..at + fill];
    CopyInto(a, at + fill, literals);
    assert a[..at + fill] == filled;
    assert a[..at + fill + |literals|] == a[..at + fill] + a[at + fill..at + fill + |literals|];
  }

  lemma DecodeEnd(n: nat)
    ensures Decode([], n) == if n == 0 then Some([]) else None
  {
  }

  method CheckLiterals(words: Words) returns (ok: bool)
    ensures ok <==> AllLiteral(words)
  {
    for i := 0 to |words|
      invariant forall j :: 0 <= j < i ==> !IsFill(words[j])
    {
      if words[i] == 0 || words[i] == ONES {
        return false;
      }
    }
    return true;
  }
}
