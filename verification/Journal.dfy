/** The journal as bytes (src/journal.cpp): records framed, checked and chained, the scan that stops at
    the first unsound one, and the object that appends, reopens and compacts. */
module Journal {
  import opened Model
  import opened Numbers
  import opened Crc
  import opened Seal

  const FILE_HEADER: nat := 32
  const RECORD_HEADER: nat := 28
  const RECORD_MAGIC: nat := 0x52464943
  const MAX_RECORD: nat := 0x10_0000
  const MAX_JOURNAL: nat := 0x400_0000
  const MAX_RECORDS: nat := 0x10_0000
  const MAX_SCAN: nat := MAX_JOURNAL + MAX_RECORD + 4096
  const FILE_MAGIC: seq<byte> := [0x43, 0x49, 0x46, 0x4A, 0x4E, 0x4C, 0x30, 0x31]
  const SNAPSHOT: nat := 1

  /** A record's kind and its encoded payload; its sequence number is its place in the log. */
  datatype Record = Record(kind: nat, payload: seq<byte>)

  /** Whether a payload decodes, to its last byte, as a record of its kind. */
  type Decodes = (nat, seq<byte>) -> bool

  /** What `append` takes: it looks at a payload's length and not into it. */
  predicate Framed(r: Record) { 1 <= r.kind <= 25 && |r.payload| <= MAX_RECORD }

  predicate Writable(r: Record, ok: Decodes) { Framed(r) && ok(r.kind, r.payload) }

  predicate AllWritable(rs: seq<Record>, ok: Decodes)
  {
    forall i :: 0 <= i < |rs| ==> Writable(rs[i], ok)
  }

  predicate AllFramed(rs: seq<Record>)
  {
    forall i :: 0 <= i < |rs| ==> Framed(rs[i])
  }

  /** How many records come before the first whose payload does not decode. */
  function Decodable(rs: seq<Record>, ok: Decodes): (n: nat)
    ensures n <= |rs| && (forall i :: 0 <= i < n ==> ok(rs[i].kind, rs[i].payload))
    ensures n < |rs| ==> !ok(rs[n].kind, rs[n].payload)
  {
    if rs == [] || !ok(rs[0].kind, rs[0].payload) then 0 else 1 + Decodable(rs[1..], ok)
  }

  lemma DecodableUpTo(rs: seq<Record>, n: nat, ok: Decodes)
    requires n <= |rs| && (forall i :: 0 <= i < n ==> ok(rs[i].kind, rs[i].payload))
    requires n < |rs| ==> !ok(rs[n].kind, rs[n].payload)
    ensures Decodable(rs, ok) == n
  {}

  // ----- writing -----

  /** Each record's chain value covers its payload and the chain before it. */
  function Chained(chain: nat, payload: seq<byte>): nat { Crc32c(Little(chain, 4) + payload) }

  function Header(r: Record, sequence: nat, chain: nat): (h: seq<byte>)
    ensures |h| == 24
  {
    Little(RECORD_MAGIC, 4) + Little(1, 2) + Little(r.kind, 2) + Little(sequence, 8)
    + Little(|r.payload|, 4) + Little(Chained(chain, r.payload), 4)
  }

  /** `write_record`. */
  function Encoded(r: Record, sequence: nat, chain: nat): (s: seq<byte>)
    ensures |s| == RECORD_HEADER + |r.payload| + 4
  {
    Sealed(Header(r, sequence, chain)) + Sealed(r.payload)
  }

  function ChainAfter(rs: seq<Record>, chain: nat): nat
    decreases |rs|
  {
    if rs == [] then chain else ChainAfter(rs[1..], Chained(chain, rs[0].payload))
  }

  /** A list of records, written one after another. */
  function Written(rs: seq<Record>, sequence: nat, chain: nat): (s: seq<byte>)
    ensures |s| == Size(rs)
    decreases |rs|
  {
    if rs == [] then [] else
      Encoded(rs[0], sequence, chain) + Written(rs[1..], sequence + 1, Chained(chain, rs[0].payload))
  }

  function Size(rs: seq<Record>): nat
  {
    if rs == [] then 0 else RECORD_HEADER + |rs[0].payload| + 4 + Size(rs[1..])
  }

  lemma {:induction false} WrittenAppend(a: seq<Record>, b: seq<Record>, sequence: nat, chain: nat)
    ensures Written(a + b, sequence, chain)
            == Written(a, sequence, chain) + Written(b, sequence + |a|, ChainAfter(a, chain))
    ensures ChainAfter(a + b, chain) == ChainAfter(b, ChainAfter(a, chain))
    ensures Size(a + b) == Size(a) + Size(b)
    decreases |a|
  {
    hide Encoded, Chained, Size, Written;
    if a == [] {
      assert a + b == b;
      WrittenFirst(a, sequence, chain);
    } else {
      var next := Chained(chain, a[0].payload);
      WrittenAppend(a[1..], b, sequence + 1, next);
      WrittenOn(a, b, sequence, chain);
      Rejoin(Encoded(a[0], sequence, chain), Written(a[1..], sequence + 1, next),
             Written(b, sequence + |a|, ChainAfter(a, chain)));
    }
  }

  lemma WrittenFirst(rs: seq<Record>, sequence: nat, chain: nat)
    ensures Size(rs) == if rs == [] then 0 else RECORD_HEADER + |rs[0].payload| + 4 + Size(rs[1..])
    ensures Written(rs, sequence, chain)
            == if rs == [] then [] else
               Encoded(rs[0], sequence, chain) + Written(rs[1..], sequence + 1, Chained(chain, rs[0].payload))
  {
    hide Encoded, Chained;
  }

  lemma WrittenOn(a: seq<Record>, b: seq<Record>, sequence: nat, chain: nat)
    requires a != []
    ensures var next := Chained(chain, a[0].payload);
            && Written(a, sequence, chain) == Encoded(a[0], sequence, chain) + Written(a[1..], sequence + 1, next)
            && Written(a + b, sequence, chain) == Encoded(a[0], sequence, chain) + Written(a[1..] + b, sequence + 1, next)
            && ChainAfter(a + b, chain) == ChainAfter(a[1..] + b, next)
            && Size(a) == RECORD_HEADER + |a[0].payload| + 4 + Size(a[1..])
            && Size(a + b) == RECORD_HEADER + |a[0].payload| + 4 + Size(a[1..] + b)
  {
    hide Encoded, Chained, Size, Written;
    assert (a + b)[0] == a[0] && (a + b)[1..] == a[1..] + b;
    WrittenFirst(a, sequence, chain);
    WrittenFirst(a + b, sequence, chain);
  }

  // ----- reading one record -----

  datatype Stop =
    | ShortHeader | BadHeader | BadVersion | BadKind | TooLong | Unfinished
    | BadPayload | BadChain | BadSequence | Undecodable

  datatype Parsed = Took(record: Record, total: nat, chain: nat) | Stopped(stop: Stop)

  function Field(bytes: seq<byte>, at: nat, width: nat): nat
    requires at + width <= |bytes|
  {
    FromLittle(bytes[at..at + width])
  }

  /** One turn of the scan loop, on the bytes from the current offset on. */
  function Parse(bytes: seq<byte>, sequence: nat, chain: nat, ok: Decodes): Parsed
  {
    if |bytes| < RECORD_HEADER then Stopped(ShortHeader)
    else if Field(bytes, 0, 4) != RECORD_MAGIC || Field(bytes, 24, 4) != Crc32c(bytes[..24]) then Stopped(BadHeader)
    else if Field(bytes, 4, 2) != 1 then Stopped(BadVersion)
    else if !(1 <= Field(bytes, 6, 2) <= 25) then Stopped(BadKind)
    else if Field(bytes, 16, 4) > MAX_RECORD then Stopped(TooLong)
    else
      var n := Field(bytes, 16, 4);
      var total := RECORD_HEADER + n + 4;
      if |bytes| < total then Stopped(Unfinished)
      else
        var payload := bytes[RECORD_HEADER..RECORD_HEADER + n];
        if Field(bytes, RECORD_HEADER + n, 4) != Crc32c(payload) then Stopped(BadPayload)
        else if Field(bytes, 20, 4) != Chained(chain, payload) then Stopped(BadChain)
        else if Field(bytes, 8, 8) != sequence then Stopped(BadSequence)
        else if !ok(Field(bytes, 6, 2), payload) then Stopped(Undecodable)
        else Took(Record(Field(bytes, 6, 2), payload), total, Chained(chain, payload))
  }

  /** All records up to the first stop. */
  function Scan(bytes: seq<byte>, sequence: nat, chain: nat, ok: Decodes): (r: seq<Record>)
    decreases |bytes|
  {
    if bytes == [] then [] else
      match Parse(bytes, sequence, chain, ok)
      case Stopped(_) => []
      case Took(record, total, next) => [record] + Scan(bytes[total..], sequence + 1, next, ok)
  }

  lemma ParsedShape(bytes: seq<byte>, sequence: nat, chain: nat, ok: Decodes)
    requires Parse(bytes, sequence, chain, ok).Took?
    ensures var p := Parse(bytes, sequence, chain, ok);
            0 < p.total <= |bytes| && Writable(p.record, ok) && p.chain == Chained(chain, p.record.payload)
            && p.total == RECORD_HEADER + |p.record.payload| + 4
  {}

  // ----- reading what was written -----

  lemma HeaderFields(r: Record, sequence: nat, chain: nat)
    requires Framed(r) && sequence < U64_LIMIT
    ensures var h := Header(r, sequence, chain);
            Field(h, 0, 4) == RECORD_MAGIC && Field(h, 4, 2) == 1 && Field(h, 6, 2) == r.kind
            && Field(h, 8, 8) == sequence && Field(h, 16, 4) == |r.payload|
            && Field(h, 20, 4) == Chained(chain, r.payload)
  {
    hide Little, FromLittle, Base, Crc32c;
    var h := Header(r, sequence, chain);
    BaseValues();
    CrcBound(Little(chain, 4) + r.payload);
    LittleBack(RECORD_MAGIC, 4);
    LittleBack(1, 2);
    LittleBack(r.kind, 2);
    LittleBack(sequence, 8);
    LittleBack(|r.payload|, 4);
    LittleBack(Chained(chain, r.payload), 4);
    assert h[0..4] == Little(RECORD_MAGIC, 4) && h[4..6] == Little(1, 2) && h[6..8] == Little(r.kind, 2);
    assert h[8..16] == Little(sequence, 8) && h[16..20] == Little(|r.payload|, 4);
    assert h[20..24] == Little(Chained(chain, r.payload), 4);
  }

  /** A field only depends on its own bytes. */
  lemma FieldWithin(a: seq<byte>, b: seq<byte>, at: nat, width: nat)
    requires at + width <= |a|
    ensures Field(a + b, at, width) == Field(a, at, width)
  {
    assert (a + b)[at..at + width] == a[at..at + width];
  }

  /** The header of a written record, read from a longer string, says what was written. */
  lemma HeaderRead(r: Record, sequence: nat, chain: nat, rest: seq<byte>)
    requires Framed(r) && sequence < U64_LIMIT
    ensures var bytes := Sealed(Header(r, sequence, chain)) + rest;
            && |bytes| >= RECORD_HEADER
            && Field(bytes, 0, 4) == RECORD_MAGIC && Field(bytes, 24, 4) == Crc32c(bytes[..24])
            && Field(bytes, 4, 2) == 1 && Field(bytes, 6, 2) == r.kind && Field(bytes, 8, 8) == sequence
            && Field(bytes, 16, 4) == |r.payload| && Field(bytes, 20, 4) == Chained(chain, r.payload)
  {
    hide Little, FromLittle, Crc32c, Header, Chained;
    var h := Header(r, sequence, chain);
    var tail := Little(Crc32c(h), 4) + rest;
    var bytes := Sealed(h) + rest;
    assert bytes == h + tail;
    HeaderFields(r, sequence, chain);
    FieldWithin(h, tail, 0, 4);
    FieldWithin(h, tail, 4, 2);
    FieldWithin(h, tail, 6, 2);
    FieldWithin(h, tail, 8, 8);
    FieldWithin(h, tail, 16, 4);
    FieldWithin(h, tail, 20, 4);
    CrcBack(h);
    assert bytes[24..28] == Little(Crc32c(h), 4) && bytes[..24] == h;
  }

  /** A written record is read back, whatever follows it. */
  lemma ParseEncoded(r: Record, sequence: nat, chain: nat, rest: seq<byte>, ok: Decodes)
    requires Writable(r, ok) && sequence < U64_LIMIT
    ensures Parse(Encoded(r, sequence, chain) + rest, sequence, chain, ok)
            == Took(r, |Encoded(r, sequence, chain)|, Chained(chain, r.payload))
  {
    hide Little, FromLittle, Crc32c, Header;
    var bytes := Encoded(r, sequence, chain) + rest;
    var tail := Sealed(r.payload) + rest;
    assert bytes == Sealed(Header(r, sequence, chain)) + tail;
    HeaderRead(r, sequence, chain, tail);
    var n := |r.payload|;
    CrcBack(r.payload);
    assert bytes[RECORD_HEADER..RECORD_HEADER + n] == r.payload;
    assert bytes[RECORD_HEADER + n..RECORD_HEADER + n + 4] == Little(Crc32c(r.payload), 4);
  }

  /** The scan takes a written record and goes on behind it. */
  lemma ScanOn(r: Record, sequence: nat, chain: nat, rest: seq<byte>, ok: Decodes)
    requires Writable(r, ok) && sequence < U64_LIMIT
    ensures Scan(Encoded(r, sequence, chain) + rest, sequence, chain, ok)
            == [r] + Scan(rest, sequence + 1, Chained(chain, r.payload), ok)
  {
    hide Parse, Chained, Encoded;
    var first := Encoded(r, sequence, chain);
    ParseEncoded(r, sequence, chain, rest, ok);
    ParsedShape(first + rest, sequence, chain, ok);
    assert (first + rest)[|first|..] == rest;
  }

  /** A record whose payload does not decode is not read, though it was written. */
  lemma ParseRefuses(r: Record, sequence: nat, chain: nat, rest: seq<byte>, ok: Decodes)
    requires Framed(r) && !ok(r.kind, r.payload) && sequence < U64_LIMIT
    ensures Parse(Encoded(r, sequence, chain) + rest, sequence, chain, ok) == Stopped(Undecodable)
  {
    hide Little, FromLittle, Crc32c, Header;
    var bytes := Encoded(r, sequence, chain) + rest;
    var tail := Sealed(r.payload) + rest;
    assert bytes == Sealed(Header(r, sequence, chain)) + tail;
    HeaderRead(r, sequence, chain, tail);
    var n := |r.payload|;
    CrcBack(r.payload);
    assert bytes[RECORD_HEADER..RECORD_HEADER + n] == r.payload;
    assert bytes[RECORD_HEADER + n..RECORD_HEADER + n + 4] == Little(Crc32c(r.payload), 4);
  }

  /** The scan ends at the first such record, whatever was written after it. */
  lemma {:induction false} ScanRefuses(rs: seq<Record>, rest: seq<byte>, sequence: nat, chain: nat, ok: Decodes)
    requires AllFramed(rs) && Decodable(rs, ok) < |rs| && sequence + |rs| <= U64_LIMIT
    ensures Scan(Written(rs, sequence, chain) + rest, sequence, chain, ok) == rs[..Decodable(rs, ok)]
    decreases |rs|
  {
    hide Encoded, Parse, Chained;
    var first, next := Encoded(rs[0], sequence, chain), Chained(chain, rs[0].payload);
    var more := Written(rs[1..], sequence + 1, next) + rest;
    Rejoin(first, Written(rs[1..], sequence + 1, next), rest);
    if ok(rs[0].kind, rs[0].payload) {
      ParseEncoded(rs[0], sequence, chain, more, ok);
      ScanRefuses(rs[1..], rest, sequence + 1, next, ok);
      TakeMore(rs, Decodable(rs, ok));
    } else {
      ParseRefuses(rs[0], sequence, chain, more, ok);
    }
  }

  lemma Rejoin(a: seq<byte>, b: seq<byte>, c: seq<byte>)
    ensures (a + b) + c == a + (b + c) && (a + (b + c))[|a|..] == b + c
  {}

  /** A record cut short is never read. */
  lemma ParseCut(r: Record, sequence: nat, chain: nat, cut: nat, ok: Decodes)
    requires Framed(r) && sequence < U64_LIMIT && cut < |Encoded(r, sequence, chain)|
    ensures Parse(Encoded(r, sequence, chain)[..cut], sequence, chain, ok).Stopped?
  {
    hide Little, FromLittle, Crc32c, Header;
    var bytes := Encoded(r, sequence, chain)[..cut];
    if cut >= RECORD_HEADER {
      var h := Sealed(Header(r, sequence, chain));
      assert bytes == h + bytes[RECORD_HEADER..];
      HeaderRead(r, sequence, chain, bytes[RECORD_HEADER..]);
    }
  }

  // ----- torn tails -----

  /** How many whole records the first `cut` bytes of a log hold. */
  function WholeRecords(rs: seq<Record>, cut: nat): (n: nat)
    ensures n <= |rs| && Size(rs[..n]) <= cut
    ensures n < |rs| ==> Size(rs[..n + 1]) > cut
  {
    if rs == [] || RECORD_HEADER + |rs[0].payload| + 4 > cut then
      assert rs != [] ==> rs[..1][1..] == [];
      0
    else
      var n := WholeRecords(rs[1..], cut - (RECORD_HEADER + |rs[0].payload| + 4));
      assert rs[..n + 1][1..] == rs[1..][..n];
      assert n + 1 < |rs| ==> rs[..n + 2][1..] == rs[1..][..n + 1];
      n + 1
  }

  lemma TakeMore<T>(s: seq<T>, n: nat)
    requires 0 < n <= |s|
    ensures s[..n] == [s[0]] + s[1..][..n - 1]
  {}

  lemma CutFits(first: seq<byte>, rest: seq<byte>, cut: nat)
    requires |first| <= cut <= |first| + |rest|
    ensures (first + rest)[..cut] == first + rest[..cut - |first|]
    ensures (first + rest)[..cut][|first|..] == rest[..cut - |first|]
  {}

  lemma {:induction false} CutScan(rs: seq<Record>, sequence: nat, chain: nat, cut: nat, ok: Decodes)
    requires AllFramed(rs) && sequence + |rs| <= U64_LIMIT && cut <= Size(rs)
    ensures Scan(Written(rs, sequence, chain)[..cut], sequence, chain, ok) == rs[..Min(WholeRecords(rs, cut), Decodable(rs, ok))]
    decreases |rs|
  {
    hide Encoded, Parse, Chained, Scan, WholeRecords, Decodable;
    CutCounts(rs, cut, ok);
    if rs == [] || cut == 0 {
      ScanEnds([], sequence, chain, ok);
    } else {
      var first := Encoded(rs[0], sequence, chain);
      var next := Chained(chain, rs[0].payload);
      var rest := Written(rs[1..], sequence + 1, next);
      var bytes := (first + rest)[..cut];
      if cut < |first| {
        assert bytes == first[..cut];
        ParseCut(rs[0], sequence, chain, cut, ok);
        ScanEnds(bytes, sequence, chain, ok);
      } else {
        CutFits(first, rest, cut);
        if ok(rs[0].kind, rs[0].payload) {
          ScanOn(rs[0], sequence, chain, rest[..cut - |first|], ok);
          CutScan(rs[1..], sequence + 1, next, cut - |first|, ok);
          TakeMore(rs, Min(WholeRecords(rs, cut), Decodable(rs, ok)));
        } else {
          ParseRefuses(rs[0], sequence, chain, rest[..cut - |first|], ok);
          ScanEnds(bytes, sequence, chain, ok);
        }
      }
    }
  }

  lemma ScanEnds(bytes: seq<byte>, sequence: nat, chain: nat, ok: Decodes)
    requires bytes == [] || Parse(bytes, sequence, chain, ok).Stopped?
    ensures Scan(bytes, sequence, chain, ok) == []
  {
    hide Parse;
  }

  /** Both counts, by the first record. */
  lemma CutCounts(rs: seq<Record>, cut: nat, ok: Decodes)
    ensures rs == [] || cut < Size(rs[..1]) ==> WholeRecords(rs, cut) == 0
    ensures rs != [] && cut >= Size(rs[..1]) ==> WholeRecords(rs, cut) == 1 + WholeRecords(rs[1..], cut - Size(rs[..1]))
    ensures rs != [] ==> Size(rs[..1]) == RECORD_HEADER + |rs[0].payload| + 4
    ensures rs != [] ==> Decodable(rs, ok) == if ok(rs[0].kind, rs[0].payload) then 1 + Decodable(rs[1..], ok) else 0
  {
    if rs != [] { assert rs[..1] == [rs[0]] && rs[..1][1..] == [] && Size([rs[0]]) == RECORD_HEADER + |rs[0].payload| + 4; }
  }

  /** A whole log scans completely. */
  lemma {:induction false} ScanWritten(rs: seq<Record>, sequence: nat, chain: nat, ok: Decodes)
    requires AllWritable(rs, ok) && sequence + |rs| <= U64_LIMIT
    ensures Scan(Written(rs, sequence, chain), sequence, chain, ok) == rs
    decreases |rs|
  {
    hide Encoded, Parse, Chained;
    if rs != [] {
      var first, next := Encoded(rs[0], sequence, chain), Chained(chain, rs[0].payload);
      var rest := Written(rs[1..], sequence + 1, next);
      ScanOn(rs[0], sequence, chain, rest, ok);
      ScanWritten(rs[1..], sequence + 1, next, ok);
    }
  }

  /** A log cut anywhere, truncated to what its scan vouches for and continued from there with the
      scan's chain and sequence number, scans completely. */
  lemma ReopenScans(rs: seq<Record>, more: seq<Record>, sequence: nat, chain: nat, cut: nat, ok: Decodes)
    requires AllWritable(rs, ok) && AllWritable(more, ok) && cut <= Size(rs)
    requires sequence + |rs| + |more| <= U64_LIMIT
    ensures var kept := rs[..WholeRecords(rs, cut)];
            && Scan(Written(rs, sequence, chain)[..cut], sequence, chain, ok) == kept
            && Written(rs, sequence, chain)[..Size(kept)] == Written(kept, sequence, chain)
            && Scan(Written(kept, sequence, chain) + Written(more, sequence + |kept|, ChainAfter(kept, chain)),
                    sequence, chain, ok) == kept + more
  {
    hide Scan, Encoded, Written, Size, ChainAfter;
    CutScan(rs, sequence, chain, cut, ok);
    DecodableUpTo(rs, |rs|, ok);
    var n := WholeRecords(rs, cut);
    assert rs == rs[..n] + rs[n..];
    WrittenAppend(rs[..n], rs[n..], sequence, chain);
    WrittenAppend(rs[..n], more, sequence, chain);
    ScanWritten(rs[..n] + more, sequence, chain, ok);
  }

  // ----- damage -----

  /** The record a byte of the log belongs to. */
  function RecordAt(rs: seq<Record>, i: nat): (j: nat)
    requires i < Size(rs)
    ensures j < |rs|
  {
    var n := RECORD_HEADER + |rs[0].payload| + 4;
    if i < n then 0 else 1 + RecordAt(rs[1..], i - n)
  }

  /** A record with one byte changed is never read. */
  lemma DamagedStops(r: Record, sequence: nat, chain: nat, rest: seq<byte>, i: nat, b: byte, ok: Decodes)
    requires Framed(r) && sequence < U64_LIMIT && i < |Encoded(r, sequence, chain)|
    requires Encoded(r, sequence, chain)[i] != b
    ensures Parse(Encoded(r, sequence, chain)[i := b] + rest, sequence, chain, ok).Stopped?
  {
    hide Little, FromLittle, Crc32c, Header;
    var h, p := Sealed(Header(r, sequence, chain)), Sealed(r.payload);
    var bytes := Encoded(r, sequence, chain)[i := b] + rest;
    if i < RECORD_HEADER {
      SealedIntact(Header(r, sequence, chain));
      OneByteBreaks(h, i, b);
      assert bytes[..24] == h[i := b][..24] && bytes[24..28] == h[i := b][24..];
    } else {
      SealedIntact(r.payload);
      OneByteBreaks(p, i - RECORD_HEADER, b);
      var q := p[i - RECORD_HEADER := b];
      assert bytes == h + (q + rest);
      HeaderRead(r, sequence, chain, q + rest);
      var n := |r.payload|;
      assert bytes[RECORD_HEADER..RECORD_HEADER + n] == q[..n];
      assert bytes[RECORD_HEADER + n..RECORD_HEADER + n + 4] == q[n..];
    }
  }

  /** One byte of a log changed: the scan returns exactly the records before the damaged one. */
  lemma {:induction false} DamageScan(rs: seq<Record>, sequence: nat, chain: nat, i: nat, b: byte, ok: Decodes)
    requires AllFramed(rs) && sequence + |rs| <= U64_LIMIT && i < Size(rs)
    requires Written(rs, sequence, chain)[i] != b
    ensures Scan(Written(rs, sequence, chain)[i := b], sequence, chain, ok) == rs[..Min(RecordAt(rs, i), Decodable(rs, ok))]
    decreases |rs|
  {
    hide Encoded, Parse, Chained;
    var first := Encoded(rs[0], sequence, chain);
    var next := Chained(chain, rs[0].payload);
    var rest := Written(rs[1..], sequence + 1, next);
    var bytes := (first + rest)[i := b];
    if i < |first| {
      assert bytes == first[i := b] + rest;
      DamagedStops(rs[0], sequence, chain, rest, i, b, ok);
    } else {
      var bad := rest[i - |first| := b];
      assert bytes == first + bad;
      if ok(rs[0].kind, rs[0].payload) {
        ParseEncoded(rs[0], sequence, chain, bad, ok);
        assert bytes[|first|..] == bad;
        DamageScan(rs[1..], sequence + 1, next, i - |first|, b, ok);
        TakeMore(rs, Min(RecordAt(rs, i), Decodable(rs, ok)));
      } else {
        ParseRefuses(rs[0], sequence, chain, bad, ok);
      }
    }
  }

  // ----- splices -----

  /** Whole records drawn from one log, in any order, any number of times. */
  function Pieces(rs: seq<Record>, picks: seq<nat>, chain: nat): seq<byte>
    requires forall i :: 0 <= i < |picks| ==> picks[i] < |rs|
  {
    if picks == [] then [] else
      var j := picks[0];
      Encoded(rs[j], j, ChainAfter(rs[..j], chain)) + Pieces(rs, picks[1..], chain)
  }

  /** How far a list of picks keeps to the original order. */
  function InOrder(picks: seq<nat>, from: nat): (n: nat)
    ensures n <= |picks| && forall i :: 0 <= i < n ==> picks[i] == from + i
    ensures n < |picks| ==> picks[n] != from + n
  {
    if picks == [] || picks[0] != from then 0 else 1 + InOrder(picks[1..], from + 1)
  }

  /** A record out of its place is refused, by its chain value or by its number. */
  lemma OtherStops(r: Record, sequence: nat, chain: nat, rest: seq<byte>, expected: nat, at: nat, ok: Decodes)
    requires Writable(r, ok) && sequence < U64_LIMIT && sequence != expected
    ensures Parse(Encoded(r, sequence, chain) + rest, expected, at, ok).Stopped?
  {
    hide Little, FromLittle, Crc32c, Header;
    assert Encoded(r, sequence, chain) + rest == Sealed(Header(r, sequence, chain)) + (Sealed(r.payload) + rest);
    HeaderRead(r, sequence, chain, Sealed(r.payload) + rest);
  }

  lemma NextRecord(rs: seq<Record>, from: nat, more: nat, first: seq<byte>, rest: seq<byte>)
    requires from < |rs|
    ensures rs[..from + 1] == rs[..from] + [rs[from]] && (first + rest)[|first|..] == rest
    ensures from + 1 + more <= |rs| ==> rs[from..from + 1 + more] == [rs[from]] + rs[from + 1..from + 1 + more]
  {}

  /** Removal, repetition and reordering are detected: a log made of whole records of one log scans to
      the longest prefix that is in the original order. */
  lemma {:induction false} SpliceScan(rs: seq<Record>, picks: seq<nat>, from: nat, chain: nat, ok: Decodes)
    requires AllWritable(rs, ok) && |rs| <= U64_LIMIT && from <= |rs|
    requires forall i :: 0 <= i < |picks| ==> picks[i] < |rs|
    ensures from + InOrder(picks, from) <= |rs|
    ensures Scan(Pieces(rs, picks, chain), from, ChainAfter(rs[..from], chain), ok)
            == rs[from..from + InOrder(picks, from)]
    decreases |picks|
  {
    hide Encoded, Parse, Chained, ChainAfter, Size;
    if picks != [] {
      var j := picks[0];
      var first := Encoded(rs[j], j, ChainAfter(rs[..j], chain));
      var rest := Pieces(rs, picks[1..], chain);
      if j == from {
        ParseEncoded(rs[j], j, ChainAfter(rs[..j], chain), rest, ok);
        NextRecord(rs, from, InOrder(picks[1..], from + 1), first, rest);
        ChainMore(rs[..from], rs[from], chain);
        SpliceScan(rs, picks[1..], from + 1, chain, ok);
      } else {
        OtherStops(rs[j], j, ChainAfter(rs[..j], chain), rest, from, ChainAfter(rs[..from], chain), ok);
      }
    }
  }

  // ----- nothing else is accepted -----

  lemma FieldThere(bytes: seq<byte>, at: nat, width: nat)
    requires at + width <= |bytes|
    ensures Little(Field(bytes, at, width), width) == bytes[at..at + width]
  {
    LittleThere(bytes[at..at + width]);
  }

  /** What the scan takes is, byte for byte, what `write_record` writes. */
  lemma TookIsEncoded(bytes: seq<byte>, sequence: nat, chain: nat, ok: Decodes)
    requires Parse(bytes, sequence, chain, ok).Took?
    ensures var p := Parse(bytes, sequence, chain, ok);
            p.total <= |bytes| && bytes[..p.total] == Encoded(p.record, sequence, chain)
  {
    hide Little, FromLittle, Crc32c;
    var p := Parse(bytes, sequence, chain, ok);
    ParsedShape(bytes, sequence, chain, ok);
    var n := |p.record.payload|;
    FieldThere(bytes, 0, 4);
    FieldThere(bytes, 4, 2);
    FieldThere(bytes, 6, 2);
    FieldThere(bytes, 8, 8);
    FieldThere(bytes, 16, 4);
    FieldThere(bytes, 20, 4);
    FieldThere(bytes, 24, 4);
    FieldThere(bytes, RECORD_HEADER + n, 4);
    HeaderOf(bytes, p.record, sequence, chain);
    assert bytes[..p.total] == bytes[..24] + bytes[24..28] + (bytes[28..28 + n] + bytes[28 + n..p.total]);
  }

  lemma HeaderOf(bytes: seq<byte>, r: Record, sequence: nat, chain: nat)
    requires |bytes| >= 24
    requires bytes[0..4] == Little(RECORD_MAGIC, 4) && bytes[4..6] == Little(1, 2) && bytes[6..8] == Little(r.kind, 2)
    requires bytes[8..16] == Little(sequence, 8) && bytes[16..20] == Little(|r.payload|, 4)
    requires bytes[20..24] == Little(Chained(chain, r.payload), 4)
    ensures bytes[..24] == Header(r, sequence, chain)
  {
    hide Little, Chained;
    assert bytes[..6] == bytes[0..4] + bytes[4..6];
    assert bytes[..8] == bytes[..6] + bytes[6..8];
    assert bytes[..16] == bytes[..8] + bytes[8..16];
    assert bytes[..20] == bytes[..16] + bytes[16..20];
    assert bytes[..24] == bytes[..20] + bytes[20..24];
  }

  lemma TakeSum(s: seq<byte>, m: nat, n: nat)
    requires m + n <= |s|
    ensures s[..m + n] == s[..m] + s[m..][..n]
  {}

  lemma {:induction false} ScannedIsWritten(bytes: seq<byte>, sequence: nat, chain: nat, ok: Decodes)
    ensures var rs := Scan(bytes, sequence, chain, ok);
            AllWritable(rs, ok) && Size(rs) <= |bytes| && bytes[..Size(rs)] == Written(rs, sequence, chain)
    decreases |bytes|
  {
    hide Encoded, Parse;
    if bytes != [] {
      var p := Parse(bytes, sequence, chain, ok);
      if p.Took? {
        ParsedShape(bytes, sequence, chain, ok);
        TookIsEncoded(bytes, sequence, chain, ok);
        ScannedIsWritten(bytes[p.total..], sequence + 1, p.chain, ok);
        var rs := Scan(bytes[p.total..], sequence + 1, p.chain, ok);
        var all := Scan(bytes, sequence, chain, ok);
        assert all == [p.record] + rs && all[1..] == rs;
        TakeSum(bytes, p.total, Size(rs));
      }
    }
  }

  // ----- the file -----

  function FileHeader(): (h: seq<byte>)
    ensures |h| == FILE_HEADER
  {
    Sealed(FILE_MAGIC + Little(1, 4) + Little(0, 4) + Little(0, 8)) + Little(0, 4)
  }

  /** What is checked of a file's first 32 bytes; the last four of them are not. */
  function HeaderStatus(file: seq<byte>): StatusCode
  {
    if |file| < FILE_HEADER || file[..8] != FILE_MAGIC then Corruption
    else if Field(file, 24, 4) != Crc32c(file[..24]) then IntegrityFailure
    else if Field(file, 8, 4) != 1 then VersionMismatch
    else Ok
  }

  lemma FreshHeaderGood(rest: seq<byte>)
    ensures HeaderStatus(FileHeader() + rest) == Ok
  {
    hide Little, FromLittle, Crc32c;
    var h := FILE_MAGIC + Little(1, 4) + Little(0, 4) + Little(0, 8);
    var file := FileHeader() + rest;
    CrcBack(h);
    BaseValues();
    hide Base;
    LittleBack(1, 4);
    assert file[..24] == h && file[24..28] == Little(Crc32c(h), 4) && file[8..12] == Little(1, 4);
    assert file[..8] == FILE_MAGIC;
  }

  /** One byte of a sound header changed is noticed exactly when it is among the first 28: the last four are
      written and never looked at. */
  lemma HeaderDamage(file: seq<byte>, i: nat, b: byte)
    requires HeaderStatus(file) == Ok && i < FILE_HEADER && file[i] != b
    ensures HeaderStatus(file[i := b]) == Ok <==> i >= 28
  {
    hide Crc32c, FromLittle;
    var bad := file[i := b];
    assert file[..28][..24] == file[..24] && file[..28][24..] == file[24..28];
    if i < 28 {
      OneByteBreaks(file[..28], i, b);
      assert bad[..28] == file[..28][i := b];
      assert bad[..28][..24] == bad[..24] && bad[..28][24..] == bad[24..28];
    } else {
      assert bad[..28] == file[..28] && bad[..8] == file[..8] && bad[8..12] == file[8..12];
      assert bad[..24] == file[..24] && bad[24..28] == file[24..28];
    }
  }

  datatype Report = Report(absent: bool, records: seq<Record>, next: nat, chain: nat, valid: nat)

  /** `Journal::scan`. */
  function ScanFile(file: seq<byte>, ok: Decodes): Result<Report>
  {
    if file == [] then Success(Report(true, [], 0, 0, 0))
    else if |file| > MAX_SCAN then Failure(LimitExceeded)
    else if HeaderStatus(file) != Ok then Failure(HeaderStatus(file))
    else
      var rs := Scan(file[FILE_HEADER..], 0, 0, ok);
      Success(Report(false, rs, |rs|, ChainAfter(rs, 0), FILE_HEADER + Size(rs)))
  }

  lemma ChainMore(rs: seq<Record>, r: Record, chain: nat)
    ensures ChainAfter(rs + [r], chain) == Chained(ChainAfter(rs, chain), r.payload)
    ensures Size(rs + [r]) == Size(rs) + RECORD_HEADER + |r.payload| + 4
  {
    WrittenAppend(rs, [r], 0, chain);
    assert [r][1..] == [];
  }

  method ReadFile(file: seq<byte>, ok: Decodes) returns (out: Result<Report>)
    ensures out == ScanFile(file, ok)
  {
    if file == [] { return Success(Report(true, [], 0, 0, 0)); }
    if |file| > MAX_SCAN { return Failure(LimitExceeded); }
    if HeaderStatus(file) != Ok { return Failure(HeaderStatus(file)); }
    var records, chain := ReadRecords(file, ok);
    return Success(Report(false, records, |records|, chain, FILE_HEADER + Size(records)));
  }

  /** The loop of `scan`. */
  method ReadRecords(file: seq<byte>, ok: Decodes) returns (records: seq<Record>, chain: nat)
    requires |file| >= FILE_HEADER
    ensures records == Scan(file[FILE_HEADER..], 0, 0, ok) && chain == ChainAfter(records, 0)
  {
    hide Parse, Chained, ChainAfter, Size;
    var offset, expected := FILE_HEADER, 0;
    records, chain := [], 0;
    ChainNone();
    while offset < |file|
      invariant FILE_HEADER <= offset <= |file| && expected == |records|
      invariant chain == ChainAfter(records, 0)
      invariant records + Scan(file[offset..], expected, chain, ok) == Scan(file[FILE_HEADER..], 0, 0, ok)
      decreases |file| - offset
    {
      var p := Parse(file[offset..], expected, chain, ok);
      if p.Stopped? { return; }
      ParsedShape(file[offset..], expected, chain, ok);
      ChainMore(records, p.record, 0);
      assert file[offset..][p.total..] == file[offset + p.total..];
      KeepOrder(records, p.record, Scan(file[offset + p.total..], expected + 1, p.chain, ok));
      records := records + [p.record];
      chain := p.chain;
      expected := expected + 1;
      offset := offset + p.total;
    }
  }

  lemma KeepOrder<T>(a: seq<T>, x: T, b: seq<T>)
    ensures a + ([x] + b) == (a + [x]) + b
  {}

  lemma HeaderLength(file: seq<byte>)
    requires HeaderStatus(file) == Ok
    ensures |file| >= FILE_HEADER
  {}

  lemma ChainNone()
    ensures ChainAfter([], 0) == 0
  {}

  /** The file is a sound header and these records, written in order, whatever their payloads are. */
  ghost predicate HoldsRecords(file: seq<byte>, rs: seq<Record>)
  {
    && |file| >= FILE_HEADER && HeaderStatus(file) == Ok
    && AllFramed(rs) && file[FILE_HEADER..] == Written(rs, 0, 0)
  }

  /** Every payload decodes too. */
  ghost predicate HoldsLog(file: seq<byte>, rs: seq<Record>, ok: Decodes)
  {
    HoldsRecords(file, rs) && AllWritable(rs, ok)
  }

  lemma FreshHolds()
    ensures HoldsRecords(FileHeader(), [])
  {
    FreshHeaderGood([]);
    hide FileHeader, HeaderStatus;
    assert FileHeader() + [] == FileHeader();
  }

  lemma MoreHolds(file: seq<byte>, rs: seq<Record>, r: Record)
    requires HoldsRecords(file, rs) && Framed(r)
    ensures HoldsRecords(file + Encoded(r, |rs|, ChainAfter(rs, 0)), rs + [r])
    ensures ChainAfter(rs + [r], 0) == Chained(ChainAfter(rs, 0), r.payload)
  {
    hide HeaderStatus, Encoded, Chained, Written, ChainAfter, Size;
    var more := Encoded(r, |rs|, ChainAfter(rs, 0));
    HeaderKept(file, more);
    WrittenAppend(rs, [r], 0, 0);
    ChainMore(rs, r, 0);
    OneWritten(r, |rs|, ChainAfter(rs, 0));
    assert (file + more)[FILE_HEADER..] == file[FILE_HEADER..] + more;
  }

  class JournalFile {
    /** The bytes on disk; empty stands for absent. */
    var file: seq<byte>
    var isOpen: bool
    var byteCount: nat
    var recordCount: nat
    var lastSequence: nat
    var chain: nat
    const ok: Decodes
    /** The records written to the file. */
    ghost var log: seq<Record>

    /** An open journal knows its length, its next sequence number and its chain; its file is never larger than what
        a scan will read. Whether the payloads written decode is nothing it knows: see `RecordsScan`. */
    ghost predicate Valid()
      reads this
    {
      |file| <= MAX_SCAN
      && (isOpen ==> HoldsRecords(file, log) && byteCount == |file| && lastSequence == |log| && chain == ChainAfter(log, 0))
    }

    constructor (contents: seq<byte>, decodes: Decodes)
      requires |contents| <= MAX_SCAN
      ensures Valid() && !isOpen && file == contents && ok == decodes
    {
      file, isOpen, byteCount, recordCount, lastSequence, chain := contents, false, 0, 0, 0, 0;
      ok, log := decodes, [];
    }

    method WriteHeader()
      modifies this
      ensures Valid() && isOpen && log == [] && recordCount == 0 && file == FileHeader()
    {
      hide HoldsRecords, FileHeader;
      FreshHolds();
      file, isOpen, log := FileHeader(), true, [];
      byteCount, recordCount, lastSequence, chain := FILE_HEADER, 0, 0, 0;
    }

    /** `open`. To continue a log the caller passes what its scan reported. */
    method Open(truncateTo: nat, reset: bool, initialChain: nat, next: nat)
      requires Valid()
      requires !reset && file != [] ==>
                 var r := ScanFile(file, ok);
                 r.Success? && truncateTo == r.value.valid && initialChain == r.value.chain && next == r.value.next
      modifies this
      ensures Valid() && isOpen && recordCount == 0
      ensures log == if reset || old(file) == [] then [] else ScanFile(old(file), ok).value.records
    {
      hide HoldsRecords, HeaderStatus, Scan, ChainAfter, Size, FileHeader;
      if reset || file == [] {
        WriteHeader();
        return;
      }
      TruncatedHolds(file, ok);
      log := ScanFile(file, ok).value.records;
      file := file[..truncateTo];
      isOpen := true;
      byteCount, recordCount, lastSequence, chain := |file|, 0, next, initialChain;
    }

    function ShouldCompact(): bool
      reads this
    {
      byteCount >= MAX_JOURNAL || recordCount >= MAX_RECORDS
    }

    /** `write_record`, for any of the 25 kinds and the invalid one. */
    method WriteRecord(r: Record) returns (st: StatusCode)
      requires Valid() && r.kind <= 25 && byteCount < MAX_JOURNAL
      modifies this
      ensures Valid() && isOpen == old(isOpen)
      ensures st == if !old(isOpen) then Closed else if r.kind == 0 then InvalidArgument
                    else if |r.payload| > MAX_RECORD then LimitExceeded else Ok
      ensures log == if st == Ok then old(log) + [r] else old(log)
      ensures st == Ok ==> file == old(file) + Encoded(r, old(lastSequence), old(chain))
                           && recordCount == old(recordCount) + 1
      ensures st != Ok ==> file == old(file)
    {
      hide HoldsRecords, Chained, ChainAfter, Encoded, Sealed, Little, Crc32c;
      if !isOpen { return Closed; }
      if r.kind == 0 { return InvalidArgument; }
      if |r.payload| > MAX_RECORD { return LimitExceeded; }
      MoreHolds(file, log, r);
      EncodedParts(r, lastSequence, chain);
      var header := Sealed(Header(r, lastSequence, chain));
      var trailer := Little(Crc32c(r.payload), 4);
      file := file + (header + r.payload + trailer);
      log := log + [r];
      byteCount, recordCount := byteCount + |header| + |r.payload| + |trailer|, recordCount + 1;
      lastSequence, chain := lastSequence + 1, Chained(chain, r.payload);
      return Ok;
    }

    /** `append`: refused once either bound is reached, so the file outgrows the bound by one record at
        the most. */
    method Append(r: Record) returns (st: StatusCode)
      requires Valid() && r.kind <= 25
      modifies this
      ensures Valid() && isOpen == old(isOpen)
      ensures old(ShouldCompact()) ==> st == CapacityExhaustedStatus && file == old(file)
      ensures st == Ok ==> file == old(file) + Encoded(r, old(lastSequence), old(chain))
      ensures log == if st == Ok then old(log) + [r] else old(log)
      ensures st != Ok ==> file == old(file)
    {
      if ShouldCompact() { return CapacityExhaustedStatus; }
      st := WriteRecord(r);
    }

    /** `compact`: a new log of one snapshot takes the old one's place, or the old one stays on disk and
        the journal is left closed. */
    method CompactTo(snapshot: Record) returns (st: StatusCode)
      requires Valid()
      modifies this
      ensures Valid()
      ensures st == if snapshot.kind != SNAPSHOT then InvalidArgument
                    else if |snapshot.payload| > MAX_RECORD then LimitExceeded else Ok
      ensures st == Ok ==> isOpen && log == [snapshot] && file == FileHeader() + Encoded(snapshot, 0, 0)
      ensures st != Ok ==> file == old(file) && (isOpen ==> st == InvalidArgument && old(isOpen) && log == old(log))
    {
      hide HoldsRecords, Encoded, FileHeader, ChainAfter;
      if snapshot.kind != SNAPSHOT { return InvalidArgument; }
      isOpen := false;
      ChainNone();
      var temporary := new JournalFile([], ok);
      temporary.WriteHeader();
      var written := temporary.WriteRecord(snapshot);
      if written != Ok { return written; }
      file, isOpen, log := temporary.file, true, temporary.log;
      byteCount, recordCount := temporary.byteCount, temporary.recordCount;
      lastSequence, chain := temporary.lastSequence, temporary.chain;
      return Ok;
    }
  }

  lemma EncodedParts(r: Record, sequence: nat, chain: nat)
    ensures Sealed(Header(r, sequence, chain)) + r.payload + Little(Crc32c(r.payload), 4) == Encoded(r, sequence, chain)
    ensures |Sealed(Header(r, sequence, chain))| == RECORD_HEADER
  {}

  lemma OneWritten(r: Record, sequence: nat, chain: nat)
    ensures Written([r], sequence, chain) == Encoded(r, sequence, chain)
  {
    assert [r][1..] == [];
    assert Written([r], sequence, chain) == Encoded(r, sequence, chain) + [];
  }

  lemma HeaderKept(file: seq<byte>, more: seq<byte>)
    requires |file| >= FILE_HEADER
    ensures HeaderStatus(file + more) == HeaderStatus(file)
  {
    hide Crc32c, FromLittle;
    assert (file + more)[..8] == file[..8] && (file + more)[..24] == file[..24];
    assert (file + more)[24..28] == file[24..28] && (file + more)[8..12] == file[8..12];
  }

  /** What is left after truncation holds exactly what the scan vouched for. */
  lemma TruncatedHolds(file: seq<byte>, ok: Decodes)
    requires file != [] && ScanFile(file, ok).Success?
    ensures var r := ScanFile(file, ok).value;
            FILE_HEADER <= r.valid <= |file| && r.valid == FILE_HEADER + Size(r.records)
            && HoldsLog(file[..r.valid], r.records, ok)
  {
    hide Scan, Written, Size, HeaderStatus, ChainAfter;
    HeaderLength(file);
    var rs := Scan(file[FILE_HEADER..], 0, 0, ok);
    ScannedIsWritten(file[FILE_HEADER..], 0, 0, ok);
    var kept := file[..FILE_HEADER + Size(rs)];
    assert file == kept + file[FILE_HEADER + Size(rs)..];
    HeaderKept(kept, file[FILE_HEADER + Size(rs)..]);
    assert kept[FILE_HEADER..] == file[FILE_HEADER..][..Size(rs)];
  }

  /** What a valid journal leaves is read back up to the first record whose payload does not decode: the scan reports
      the records before it, and where to go on. */
  lemma RecordsScan(file: seq<byte>, rs: seq<Record>, ok: Decodes)
    requires HoldsRecords(file, rs) && |file| <= MAX_SCAN
    ensures var kept := rs[..Decodable(rs, ok)];
            ScanFile(file, ok) == Success(Report(false, kept, |kept|, ChainAfter(kept, 0), FILE_HEADER + Size(kept)))
  {
    hide Scan, Written, HeaderStatus, ChainAfter, Size, Framed;
    CountWithinSize(rs);
    var n := Decodable(rs, ok);
    if n == |rs| {
      assert rs[..n] == rs;
      ScanWritten(rs, 0, 0, ok);
    } else {
      assert Written(rs, 0, 0) + [] == Written(rs, 0, 0);
      ScanRefuses(rs, [], 0, 0, ok);
    }
  }

  lemma {:induction false} CountWithinSize(rs: seq<Record>)
    ensures |rs| <= Size(rs)
  {
    if rs != [] { CountWithinSize(rs[1..]); }
  }

  /** Cut anywhere after its header, it is read back up to the last whole record, or the first that does not decode. */
  lemma FileCut(file: seq<byte>, rs: seq<Record>, cut: nat, ok: Decodes)
    requires HoldsRecords(file, rs) && FILE_HEADER <= cut <= |file| <= MAX_SCAN
    ensures var r := ScanFile(file[..cut], ok);
            r.Success? && r.value.records == rs[..Min(WholeRecords(rs, cut - FILE_HEADER), Decodable(rs, ok))]
  {
    hide Written, HeaderStatus, Scan, Size, Framed;
    CountWithinSize(rs);
    CutScan(rs, 0, 0, cut - FILE_HEADER, ok);
    assert file[..cut][FILE_HEADER..] == Written(rs, 0, 0)[..cut - FILE_HEADER];
    assert file[..cut] + file[cut..] == file;
    HeaderKept(file[..cut], file[cut..]);
  }

  /** Any byte of it changed from the first record on: its scan returns the records before the damage, or before the
      first that does not decode, and nothing else. */
  lemma FileDamage(file: seq<byte>, rs: seq<Record>, i: nat, b: byte, ok: Decodes)
    requires HoldsRecords(file, rs) && FILE_HEADER <= i < |file| <= MAX_SCAN && file[i] != b
    ensures var r := ScanFile(file[i := b], ok);
            r.Success? && r.value.records == rs[..Min(RecordAt(rs, i - FILE_HEADER), Decodable(rs, ok))]
  {
    hide Scan, Written, HeaderStatus, ChainAfter, RecordAt, Size;
    CountWithinSize(rs);
    var bad := file[i := b];
    assert file == file[..FILE_HEADER] + file[FILE_HEADER..] && bad == file[..FILE_HEADER] + bad[FILE_HEADER..];
    HeaderKept(file[..FILE_HEADER], file[FILE_HEADER..]);
    HeaderKept(file[..FILE_HEADER], bad[FILE_HEADER..]);
    assert bad[FILE_HEADER..] == file[FILE_HEADER..][i - FILE_HEADER := b];
    DamageScan(rs, 0, 0, i - FILE_HEADER, b, ok);
  }
}
