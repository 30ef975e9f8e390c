/** SHA-256 (src/hash.cpp): the hash of a padded message (sections 5.1.1 and 6.2 of FIPS 180-4), the
    streaming object that computes it from any chunking, and the domain-separated framing over it. */
module Sha {
  import opened Model
  import opened Numbers
  import Bits

  const BLOCK: nat := 64

  /** In rows of eight. */
  const K: seq<bv32> :=
    [0x428a2f98, 0x71374491, 0xb5c0fbcf, 0xe9b5dba5, 0x3956c25b, 0x59f111f1, 0x923f82a4, 0xab1c5ed5]
    + [0xd807aa98, 0x12835b01, 0x243185be, 0x550c7dc3, 0x72be5d74, 0x80deb1fe, 0x9bdc06a7, 0xc19bf174]
    + [0xe49b69c1, 0xefbe4786, 0x0fc19dc6, 0x240ca1cc, 0x2de92c6f, 0x4a7484aa, 0x5cb0a9dc, 0x76f988da]
    + [0x983e5152, 0xa831c66d, 0xb00327c8, 0xbf597fc7, 0xc6e00bf3, 0xd5a79147, 0x06ca6351, 0x14292967]
    + [0x27b70a85, 0x2e1b2138, 0x4d2c6dfc, 0x53380d13, 0x650a7354, 0x766a0abb, 0x81c2c92e, 0x92722c85]
    + [0xa2bfe8a1, 0xa81a664b, 0xc24b8b70, 0xc76c51a3, 0xd192e819, 0xd6990624, 0xf40e3585, 0x106aa070]
    + [0x19a4c116, 0x1e376c08, 0x2748774c, 0x34b0bcb5, 0x391c0cb3, 0x4ed8aa4a, 0x5b9cca4f, 0x682e6ff3]
    + [0x748f82ee, 0x78a5636f, 0x84c87814, 0x8cc70208, 0x90befffa, 0xa4506ceb, 0xbef9a3f7, 0xc67178f2]

  datatype Registers = Registers(a: bv32, b: bv32, c: bv32, d: bv32, e: bv32, f: bv32, g: bv32, h: bv32)

  const INITIAL := Registers(0x6a09e667, 0xbb67ae85, 0x3c6ef372, 0xa54ff53a,
                             0x510e527f, 0x9b05688c, 0x1f83d9ab, 0x5be0cd19)

  // ----- the compression function -----

  function RoundConstant(t: nat): bv32
    requires t < 64
  {
    K[t]
  }

  /** Addition modulo 2^32. */
  function Plus(x: bv32, y: bv32): bv32 { x + y }

  function Rotr(x: bv32, n: bv32): bv32
    requires n < 32
  {
    (x >> n) | (x << (32 - n))
  }

  function SmallSigma0(x: bv32): bv32 { Rotr(x, 7) ^ Rotr(x, 18) ^ (x >> 3) }
  function SmallSigma1(x: bv32): bv32 { Rotr(x, 17) ^ Rotr(x, 19) ^ (x >> 10) }
  function BigSigma0(x: bv32): bv32 { Rotr(x, 2) ^ Rotr(x, 13) ^ Rotr(x, 22) }
  function BigSigma1(x: bv32): bv32 { Rotr(x, 6) ^ Rotr(x, 11) ^ Rotr(x, 25) }
  function Choose(x: bv32, y: bv32, z: bv32): bv32 { (x & y) ^ ((!x) & z) }
  function Majority(x: bv32, y: bv32, z: bv32): bv32 { (x & y) ^ (x & z) ^ (y & z) }

  function BigEndian(b: seq<byte>): bv32
    requires |b| == 4
  {
    (Bits.WordOf(b[0] as nat) << 24) | (Bits.WordOf(b[1] as nat) << 16)
    | (Bits.WordOf(b[2] as nat) << 8) | Bits.WordOf(b[3] as nat)
  }

  function Stored(x: bv32): (s: seq<byte>)
    ensures |s| == 4
  {
    [Bits.LowByte(x >> 24) as byte, Bits.LowByte(x >> 16) as byte, Bits.LowByte(x >> 8) as byte, Bits.LowByte(x) as byte]
  }

  /** The message schedule of one block. */
  function Schedule(block: seq<byte>, t: nat): bv32
    requires |block| == BLOCK && t < 64
  {
    if t < 16 then BigEndian(block[4 * t..4 * t + 4])
    else Plus(Plus(Schedule(block, t - 16), SmallSigma0(Schedule(block, t - 15))),
              Plus(Schedule(block, t - 7), SmallSigma1(Schedule(block, t - 2))))
  }

  function Round(r: Registers, k: bv32, w: bv32): Registers
  {
    var t1 := Plus(Plus(Plus(r.h, BigSigma1(r.e)), Choose(r.e, r.f, r.g)), Plus(k, w));
    var t2 := Plus(BigSigma0(r.a), Majority(r.a, r.b, r.c));
    Registers(Plus(t1, t2), r.a, r.b, r.c, Plus(r.d, t1), r.e, r.f, r.g)
  }

  function Rounds(r: Registers, block: seq<byte>, t: nat): Registers
    requires |block| == BLOCK && t <= 64
  {
    if t == 0 then r else Round(Rounds(r, block, t - 1), RoundConstant(t - 1), Schedule(block, t - 1))
  }

  function Add(x: Registers, y: Registers): Registers
  {
    Registers(Plus(x.a, y.a), Plus(x.b, y.b), Plus(x.c, y.c), Plus(x.d, y.d),
              Plus(x.e, y.e), Plus(x.f, y.f), Plus(x.g, y.g), Plus(x.h, y.h))
  }

  function Compress(r: Registers, block: seq<byte>): Registers
    requires |block| == BLOCK
  {
    Add(r, Rounds(r, block, 64))
  }

  // ----- the hash of a message -----

  /** Whole blocks absorbed in order. */
  function Absorb(data: seq<byte>): Registers
    requires |data| % BLOCK == 0
  {
    if data == [] then INITIAL
    else Compress(Absorb(data[..|data| - BLOCK]), data[|data| - BLOCK..])
  }

  function ZeroBytes(n: nat): (s: seq<byte>)
    ensures |s| == n
  {
    if n == 0 then [] else ZeroBytes(n - 1) + [0]
  }

  /** How many zero bytes bring a message, its mark and its length to a whole number of blocks. */
  function ZeroCount(n: nat): nat { (55 - n) % BLOCK }

  /** Padding: the mark, zeros, and the length in bits as 64 bits. */
  function Pad(m: seq<byte>): (p: seq<byte>)
    ensures |p| % BLOCK == 0
  {
    PadLength(|m|);
    m + [0x80] + ZeroBytes(ZeroCount(|m|)) + Big(8 * |m|, 8)
  }

  lemma PadLength(n: nat)
    ensures (n + 1 + ZeroCount(n) + 8) % BLOCK == 0
  {}

  function Output(r: Registers): (d: Digest)
    ensures |d| == 32
  {
    Stored(r.a) + Stored(r.b) + Stored(r.c) + Stored(r.d) + Stored(r.e) + Stored(r.f) + Stored(r.g) + Stored(r.h)
  }

  function Sha256(m: seq<byte>): Digest { Output(Absorb(Pad(m))) }

  lemma AbsorbMore(data: seq<byte>, block: seq<byte>)
    requires |data| % BLOCK == 0 && |block| == BLOCK
    ensures Absorb(data + block) == Compress(Absorb(data), block)
  {
    var all := data + block;
    assert all[..|all| - BLOCK] == data && all[|all| - BLOCK..] == block;
  }

  /** Different messages are padded differently, as far as the length field can count. */
  lemma PadInjective(a: seq<byte>, b: seq<byte>)
    requires Pad(a) == Pad(b) && 8 * |a| < U64_LIMIT && 8 * |b| < U64_LIMIT
    ensures a == b
  {
    var p, q := Pad(a), Pad(b);
    assert p[|p| - 8..] == Big(8 * |a|, 8) && q[|q| - 8..] == Big(8 * |b|, 8);
    BaseValues();
    BigTells(8 * |a|, 8 * |b|, 8);
    assert a == p[..|a|] && b == q[..|b|];
  }

  // ----- the streaming object -----

  /** A whole number of blocks. */
  predicate Whole(n: int) { n % BLOCK == 0 }

  /** 64-bit arithmetic. */
  function Wrap64(n: nat): nat { n % U64_LIMIT }

  method ExpandSchedule(block: seq<byte>) returns (w: array<bv32>)
    requires |block| == BLOCK
    ensures fresh(w) && w.Length == 64 && forall i :: 0 <= i < 64 ==> w[i] == Schedule(block, i)
  {
    hide SmallSigma0, SmallSigma1, BigEndian, Plus;
    w := new bv32[64];
    for i := 0 to 16
      invariant forall j :: 0 <= j < i ==> w[j] == Schedule(block, j)
    {
      w[i] := BigEndian(block[4 * i..4 * i + 4]);
    }
    for i := 16 to 64
      invariant forall j :: 0 <= j < i ==> w[j] == Schedule(block, j)
    {
      w[i] := Plus(Plus(w[i - 16], SmallSigma0(w[i - 15])), Plus(w[i - 7], SmallSigma1(w[i - 2])));
    }
  }

  method CopyOut(d: Digest, out: array<byte>)
    requires |d| == out.Length
    modifies out
    ensures out[..] == d
  {
    for i := 0 to |d|
      invariant out[..i] == d[..i]
    {
      out[i] := d[i];
    }
  }

  method RunRounds(start: Registers, block: seq<byte>, w: array<bv32>) returns (r: Registers)
    requires |block| == BLOCK && w.Length == 64
    requires forall i :: 0 <= i < 64 ==> w[i] == Schedule(block, i)
    ensures r == Rounds(start, block, 64)
  {
    hide BigSigma0, BigSigma1, Choose, Majority, Schedule, Plus, RoundConstant;
    var a, b, c, d, e, f, g, h := start.a, start.b, start.c, start.d, start.e, start.f, start.g, start.h;
    for i := 0 to 64
      invariant Registers(a, b, c, d, e, f, g, h) == Rounds(start, block, i)
    {
      var t1 := Plus(Plus(Plus(h, BigSigma1(e)), Choose(e, f, g)), Plus(RoundConstant(i), w[i]));
      var t2 := Plus(BigSigma0(a), Majority(a, b, c));
      h := g;
      g := f;
      f := e;
      e := Plus(d, t1);
      d := c;
      c := b;
      b := a;
      a := Plus(t1, t2);
    }
    return Registers(a, b, c, d, e, f, g, h);
  }

  class Stream {
    var state: Registers
    const buffer: array<byte>
    var used: nat
    var total: nat
    var finalised: bool
    /** Everything fed so far, padding included. */
    ghost var fed: seq<byte>

    /** The state has absorbed whole blocks, the buffer holds exactly the rest. */
    ghost predicate Partial()
      reads this, buffer
    {
      && buffer.Length == BLOCK && used <= BLOCK && used <= |fed|
      && Whole(|fed| - used)
      && state == Absorb(fed[..|fed| - used]) && buffer[..used] == fed[|fed| - used..]
    }

    ghost predicate Valid()
      reads this, buffer
    {
      Partial() && used < BLOCK && total == Wrap64(|fed|)
    }

    constructor ()
      ensures Valid() && fresh(buffer) && fed == [] && !finalised
    {
      state := INITIAL;
      buffer := new byte[BLOCK](i => 0);
      used, total, finalised, fed := 0, 0, false, [];
    }

    /** `compress`: the schedule in an array, the registers in eight variables. */
    method CompressBlock(block: seq<byte>)
      requires |block| == BLOCK
      modifies `state
      ensures state == Compress(old(state), block)
    {
      hide Rounds, Schedule, Add;
      var w := ExpandSchedule(block);
      var r := RunRounds(state, block, w);
      state := Add(state, r);
    }

    /** One byte into the buffer. */
    method Push(b: byte)
      requires Partial() && used < BLOCK
      modifies `used, `fed, buffer
      ensures Partial() && used == old(used) + 1 && fed == old(fed) + [b]
    {
      hide Absorb;
      ghost var settled := fed[..|fed| - used];
      buffer[used] := b;
      used := used + 1;
      fed := fed + [b];
      assert fed[..|fed| - used] == settled;
    }

    /** A full buffer is absorbed. */
    method Flush()
      requires Partial()
      modifies `used, `state
      ensures Partial() && used == if old(used) == BLOCK then 0 else old(used)
    {
      hide Absorb, Compress;
      if used == BLOCK {
        ghost var settled := fed[..|fed| - used];
        ghost var block := buffer[..];
        assert fed == settled + block;
        AbsorbMore(settled, block);
        CompressBlock(buffer[..]);
        used := 0;
        assert fed[..|fed|] == fed && fed[|fed|..] == [];
      }
    }

    /** A whole block straight from the input. */
    method TakeBlock(block: seq<byte>)
      requires Partial() && used == 0 && |block| == BLOCK
      modifies `state, `fed
      ensures Partial() && fed == old(fed) + block
    {
      hide Absorb, Compress;
      assert fed[..|fed|] == fed;
      AbsorbMore(fed, block);
      CompressBlock(block);
      fed := fed + block;
      assert fed[..|fed|] == fed;
    }

    method CountBytes(n: nat)
      requires Partial()
      modifies `total
      ensures Partial() && total == Wrap64(old(total) + n)
    {
      hide Absorb;
      total := Wrap64(total + n);
    }

    /** First loop of `update`: fill a buffer that already holds something. */
    method TopUp(data: seq<byte>) returns (offset: nat)
      requires Partial() && used < BLOCK
      modifies `used, `state, `fed, buffer
      ensures offset <= |data| && Partial() && used < BLOCK && (used > 0 ==> offset == |data|)
      ensures fed + data[offset..] == old(fed) + data
    {
      hide Partial;
      offset := 0;
      if used > 0 {
        while offset < |data| && used < BLOCK
          invariant offset <= |data| && used <= BLOCK && Partial()
          invariant fed + data[offset..] == old(fed) + data
        {
          Shift(fed, data, offset, offset + 1);
          Push(data[offset]);
          offset := offset + 1;
        }
        Flush();
      }
    }

    /** Second loop: whole blocks straight from the input. */
    method TakeBlocks(data: seq<byte>, from: nat) returns (offset: nat)
      requires from <= |data| && Partial() && used < BLOCK && (used > 0 ==> from == |data|)
      modifies `state, `fed
      ensures offset <= |data| && Partial() && used + |data| - offset < BLOCK
      ensures fed + data[offset..] == old(fed) + data[from..]
    {
      hide Partial;
      offset := from;
      while |data| - offset >= BLOCK
        invariant offset <= |data| && (used > 0 ==> offset == |data|) && Partial()
        invariant fed + data[offset..] == old(fed) + data[from..]
      {
        Shift(fed, data, offset, offset + BLOCK);
        TakeBlock(data[offset..offset + BLOCK]);
        offset := offset + BLOCK;
      }
    }

    /** Third loop: the rest into the buffer. */
    method KeepRest(data: seq<byte>, from: nat)
      requires from <= |data| && Partial() && used + |data| - from < BLOCK
      modifies `used, `fed, buffer
      ensures Partial() && used < BLOCK && fed == old(fed) + data[from..]
    {
      hide Partial;
      var offset := from;
      while offset < |data|
        invariant offset <= |data| && used + |data| - offset < BLOCK && Partial()
        invariant fed + data[offset..] == old(fed) + data[from..]
      {
        Shift(fed, data, offset, offset + 1);
        Push(data[offset]);
        offset := offset + 1;
      }
    }

    /** `update`: top up the buffer, absorb whole blocks straight from the input, keep the rest. Once
        the hash is final the input is ignored. */
    method Update(data: seq<byte>)
      requires Valid()
      modifies this, buffer
      ensures Valid() && finalised == old(finalised)
      ensures fed == if old(finalised) then old(fed) else old(fed) + data
    {
      if finalised || data == [] {
        assert fed + [] == fed;
        return;
      }
      Feed(data);
    }

    method Feed(data: seq<byte>)
      requires Valid()
      modifies this, buffer
      ensures Valid() && finalised == old(finalised) && fed == old(fed) + data
    {
      hide Partial, Wrap64;
      WrapSum(|fed|, |data|);
      CountBytes(|data|);
      var offset := TopUp(data);
      var next := TakeBlocks(data, offset);
      KeepRest(data, next);
    }

    method WriteTail(tail: seq<byte>)
      requires buffer.Length == BLOCK && |tail| == 8
      modifies buffer
      ensures buffer[..] == old(buffer[..56]) + tail
    {
      for i := 0 to 8
        invariant forall j :: 0 <= j < 56 ==> buffer[j] == old(buffer[j])
        invariant forall j :: 0 <= j < i ==> buffer[56 + j] == tail[j]
      {
        buffer[56 + i] := tail[i];
      }
    }

    /** The length goes into the last eight bytes of the buffer, and the last block is absorbed. */
    method WriteLength(length: seq<byte>)
      requires Valid() && used == 56 && |length| == 8
      modifies this, buffer
      ensures |old(fed) + length| % BLOCK == 0 && state == Absorb(old(fed) + length)
      ensures finalised == old(finalised)
    {
      hide Absorb, Compress, Wrap64;
      ghost var settled := fed[..|fed| - 56];
      assert fed == settled + buffer[..56];
      WriteTail(length);
      assert old(fed) + length == settled + buffer[..];
      AbsorbMore(settled, buffer[..]);
      CompressBlock(buffer[..]);
      used := 0;
    }

    lemma PartialWhole()
      requires Partial()
      ensures Whole(|fed| - used)
    {}

    /** Zeros until eight bytes are left in the block. */
    method PadZeros(ghost n: nat)
      requires Valid() && !finalised && |fed| == n + 1
      modifies this, buffer
      ensures Valid() && !finalised && used == 56 && fed == old(fed) + ZeroBytes(ZeroCount(n))
    {
      hide Partial, Wrap64, Whole, ZeroCount;
      ghost var zeros: nat := 0;
      while used != 56
        invariant Valid() && !finalised && zeros <= ZeroCount(n)
        invariant fed == old(fed) + ZeroBytes(zeros)
        decreases ZeroCount(n) - zeros
      {
        PartialWhole();
        CountZeros(n, zeros, used);
        Update([0x00]);
        zeros := zeros + 1;
      }
      PartialWhole();
      CountZeros(n, zeros, used);
    }

    /** `finalise`. A second call leaves the output untouched. */
    method Finalise(out: array<byte>)
      requires Valid() && out.Length == 32 && out != buffer
      modifies this, buffer, out
      ensures finalised
      ensures if old(finalised) then out[..] == old(out[..]) else out[..] == Sha256(old(fed))
    {
      if finalised { return; }
      hide Partial, Absorb, Pad, Output;
      PadMessage();
      CopyOut(Output(state), out);
      finalised := true;
    }

    method PadMessage()
      requires Valid() && !finalised
      modifies this, buffer
      ensures state == Absorb(Pad(old(fed)))
    {
      hide Partial, Absorb, Big, ZeroBytes, Wrap64;
      ghost var m := fed;
      LengthField(|m|);
      var bits := Wrap64(total * 8);
      Update([0x80]);
      PadZeros(|m|);
      WriteLength(Big(bits, 8));
    }
  }

  /** The next piece of the input moves over. */
  lemma Shift(fed: seq<byte>, data: seq<byte>, i: nat, j: nat)
    requires i <= j <= |data|
    ensures fed + data[i..] == (fed + data[i..j]) + data[j..]
    ensures j == i + 1 ==> data[i..j] == [data[i]]
  {
    assert data[i..] == data[i..j] + data[j..];
  }

  /** While the padding grows, the buffer is at 56 exactly when there are zeros enough. */
  lemma CountZeros(n: nat, zeros: nat, used: nat)
    requires zeros <= ZeroCount(n) && used < BLOCK
    requires Whole(n + 1 + zeros - used)
    ensures used == 56 <==> zeros == ZeroCount(n)
  {}

  lemma LengthField(n: nat)
    ensures Big(Wrap64(Wrap64(n) * 8), 8) == Big(8 * n, 8)
  {
    WrapEight(n);
    BaseValues();
    BigLow(8 * n, 8);
  }

  lemma WrapSum(m: nat, n: nat)
    ensures Wrap64(Wrap64(m) + n) == Wrap64(m + n)
  {}

  lemma WrapEight(n: nat)
    ensures Wrap64(Wrap64(n) * 8) == Wrap64(8 * n)
  {
    var q, r := DivMod(n, U64_LIMIT);
    WrapShift(8 * r, 8 * q);
  }

  lemma WrapShift(m: nat, q: nat)
    ensures Wrap64(m + q * U64_LIMIT) == Wrap64(m)
  {}

  function Flatten(chunks: seq<seq<byte>>): seq<byte>
  {
    if chunks == [] then [] else Flatten(chunks[..|chunks| - 1]) + chunks[|chunks| - 1]
  }

  method FinishHash(s: Stream) returns (d: Digest)
    requires s.Valid() && !s.finalised
    modifies s, s.buffer
    ensures d == Sha256(old(s.fed))
  {
    hide Sha256, Stream.Partial;
    var out := new byte[32](i => 0);
    s.Finalise(out);
    return out[..];
  }

  /** However a message is cut into chunks, feeding them one by one gives the one-shot hash of it. */
  method HashChunks(chunks: seq<seq<byte>>) returns (d: Digest)
    ensures d == Sha256(Flatten(chunks))
  {
    hide Sha256, Stream.Partial;
    var s := new Stream();
    for i := 0 to |chunks|
      invariant s.Valid() && !s.finalised && fresh(s) && fresh(s.buffer)
      invariant s.fed == Flatten(chunks[..i])
    {
      assert chunks[..i + 1][..i] == chunks[..i];
      s.Update(chunks[i]);
    }
    assert chunks[..|chunks|] == chunks;
    d := FinishHash(s);
  }

  // ----- domain separation -----

  /** `DomainHasher`: every part is preceded by its length, the domain's name first. */
  function Framed(parts: seq<seq<byte>>): seq<byte>
  {
    if parts == [] then [] else Little(|parts[0]|, 8) + parts[0] + Framed(parts[1..])
  }

  ghost predicate Countable(parts: seq<seq<byte>>)
  {
    forall i :: 0 <= i < |parts| ==> |parts[i]| < U64_LIMIT
  }

  /** Lengths make concatenation unambiguous: two lists of parts are hashed as one string only if they
      are one list. */
  lemma {:induction false} FramingInjective(a: seq<seq<byte>>, b: seq<seq<byte>>)
    requires Framed(a) == Framed(b) && Countable(a) && Countable(b)
    ensures a == b
    decreases |a|
  {
    if a != [] && b != [] {
      var s, t := Framed(a), Framed(b);
      assert s[..8] == Little(|a[0]|, 8) && t[..8] == Little(|b[0]|, 8);
      BaseValues();
      LittleBack(|a[0]|, 8);
      LittleBack(|b[0]|, 8);
      assert s[8..8 + |a[0]|] == a[0] && t[8..8 + |b[0]|] == b[0];
      assert s[8 + |a[0]|..] == Framed(a[1..]) && t[8 + |b[0]|..] == Framed(b[1..]);
      FramingInjective(a[1..], b[1..]);
      assert a == [a[0]] + a[1..] && b == [b[0]] + b[1..];
    }
  }

  lemma {:induction false} FramedMore(parts: seq<seq<byte>>, part: seq<byte>)
    ensures Framed(parts + [part]) == Framed(parts) + (Little(|part|, 8) + part)
  {
    if parts == [] {
      assert (parts + [part])[1..] == [] && Framed([]) == [];
    } else {
      assert (parts + [part])[1..] == parts[1..] + [part];
      FramedMore(parts[1..], part);
    }
  }

  /** `add`. */
  method FeedPart(s: Stream, part: seq<byte>)
    requires s.Valid() && !s.finalised
    modifies s, s.buffer
    ensures s.Valid() && !s.finalised && s.fed == old(s.fed) + (Little(|part|, 8) + part)
  {
    hide Little, Stream.Partial, Wrap64;
    var length := Little(|part|, 8);
    ghost var before := s.fed;
    assert (before + length) + part == before + (length + part);
    s.Update(length);
    s.Update(part);
  }

  /** A domain-separated digest, fed part by part. */
  method HashParts(parts: seq<seq<byte>>) returns (d: Digest)
    ensures d == Sha256(Framed(parts))
  {
    hide Sha256, Little;
    var s := new Stream();
    for i := 0 to |parts|
      invariant s.Valid() && !s.finalised && fresh(s) && fresh(s.buffer)
      invariant s.fed == Framed(parts[..i])
    {
      assert parts[..i + 1] == parts[..i] + [parts[i]];
      FramedMore(parts[..i], parts[i]);
      FeedPart(s, parts[i]);
    }
    assert parts[..|parts|] == parts;
    d := FinishHash(s);
  }
}
