/** CRC-32C (src/hash.cpp): the table-driven loop, the bitwise division it stands for (section 12.1 of
    RFC 3720, reflected), and what a single damaged byte does to it. */
module Crc {
  import opened Model
  import Bits

  const POLY: bv32 := 0x82F63B78
  const ONES: bv32 := 0xFFFF_FFFF

  // Words, one name per operation: the laws below are the only ones the proofs use.

  function Xor(a: bv32, b: bv32): bv32 { a ^ b }
  function Half(x: bv32): bv32 { x >> 1 }
  function High(x: bv32): bv32 { x >> 8 }
  function Low(x: bv32): bv32 { x & 0xFF }
  predicate Odd(x: bv32) { x & 1 != 0 }
  function AsBits(b: byte): bv32 { Bits.WordOf(b as nat) }
  function Number(x: bv32): nat { x as nat }

  lemma XorUndone(x: bv32, a: bv32)
    ensures Xor(Xor(x, a), a) == x && Xor(x, a) == Xor(a, x)
  {}

  lemma XorCancels(x: bv32, y: bv32, a: bv32)
    requires Xor(x, a) == Xor(y, a)
    ensures x == y
  {
    XorUndone(x, a);
    XorUndone(y, a);
  }

  lemma NumberBack(x: bv32)
    ensures Number(x) as bv32 == x && Number(x) < U32_LIMIT
  {
    Bits.NumberBack(x);
  }

  // ----- the division -----

  /** One bit of the reflected division. */
  function BitStep(x: bv32): bv32
  {
    if x & 1 != 0 then (x >> 1) ^ POLY else x >> 1
  }

  function BitSteps(x: bv32, n: nat): bv32
  {
    if n == 0 then x else BitStep(BitSteps(x, n - 1))
  }

  /** One byte: eight bits of division. */
  function ByteStep(crc: bv32, b: byte): bv32 { BitSteps(Xor(crc, AsBits(b)), 8) }

  function Register(data: seq<byte>): bv32
  {
    if data == [] then ONES else ByteStep(Register(data[..|data| - 1]), data[|data| - 1])
  }

  /** The checksum of a byte string, as a 32-bit number. */
  function Crc32c(data: seq<byte>): nat { Number(Xor(Register(data), ONES)) }

  lemma CrcBound(data: seq<byte>)
    ensures Crc32c(data) < U32_LIMIT
  {
    hide Register;
    NumberBack(Xor(Register(data), ONES));
  }

  // ----- the table -----

  lemma RawSplit(lo: bv32, hi: bv32)
    requires hi & 1 == 0
    ensures BitStep(lo ^ hi) == BitStep(lo) ^ (hi >> 1)
  {}

  lemma BitStepSplit(lo: bv32, hi: bv32)
    requires !Odd(hi)
    ensures BitStep(Xor(lo, hi)) == Xor(BitStep(lo), Half(hi))
  {
    hide BitStep;
    RawSplit(lo, hi);
  }

  lemma StepSplit(x: bv32, lo: bv32, hi: bv32, n: nat)
    requires BitSteps(x, n) == Xor(BitSteps(lo, n), hi) && !Odd(hi)
    ensures BitSteps(x, n + 1) == Xor(BitSteps(lo, n + 1), Half(hi))
  {
    hide BitStep, Xor, Half, Odd;
    BitStepSplit(BitSteps(lo, n), hi);
  }

  function Halves(x: bv32, n: nat): bv32
  {
    if n == 0 then x else Half(Halves(x, n - 1))
  }

  lemma EightShifts(h: bv32)
    requires h & 0xFF == 0
    ensures h & 1 == 0 && (h >> 1) & 1 == 0 && (h >> 1 >> 1) & 1 == 0 && (h >> 1 >> 1 >> 1) & 1 == 0
    ensures (h >> 1 >> 1 >> 1 >> 1) & 1 == 0 && (h >> 1 >> 1 >> 1 >> 1 >> 1) & 1 == 0
    ensures (h >> 1 >> 1 >> 1 >> 1 >> 1 >> 1) & 1 == 0 && (h >> 1 >> 1 >> 1 >> 1 >> 1 >> 1 >> 1) & 1 == 0
    ensures (h >> 1 >> 1 >> 1 >> 1 >> 1 >> 1 >> 1 >> 1) == h >> 8
  {}

  /** Eight steps of a word whose low byte is clear only shift it. */
  lemma EightHalves(h: bv32)
    requires Low(h) == 0
    ensures !Odd(h) && !Odd(Half(h)) && !Odd(Half(Half(h))) && !Odd(Half(Half(Half(h))))
    ensures !Odd(Half(Half(Half(Half(h))))) && !Odd(Half(Half(Half(Half(Half(h))))))
    ensures !Odd(Half(Half(Half(Half(Half(Half(h))))))) && !Odd(Half(Half(Half(Half(Half(Half(Half(h))))))))
    ensures Half(Half(Half(Half(Half(Half(Half(Half(h)))))))) == High(h)
  {
    EightShifts(h);
  }

  lemma MaskSplits(x: bv32)
    ensures Xor(Low(x), Xor(x, Low(x))) == x
    ensures Low(Xor(x, Low(x))) == 0 && High(Xor(x, Low(x))) == High(x)
  {}

  /** The top 24 bits only shift through eight steps; the low byte alone decides what is added. */
  lemma ByteSplits(x: bv32)
    ensures BitSteps(x, 8) == Xor(BitSteps(Low(x), 8), High(x))
  {
    hide BitStep, Xor, Half, Odd, Low, High;
    var lo, h := Low(x), Xor(x, Low(x));
    MaskSplits(x);
    EightHalves(h);
    StepSplit(x, lo, h, 0);
    StepSplit(x, lo, Half(h), 1);
    StepSplit(x, lo, Half(Half(h)), 2);
    StepSplit(x, lo, Half(Half(Half(h))), 3);
    StepSplit(x, lo, Half(Half(Half(Half(h)))), 4);
    StepSplit(x, lo, Half(Half(Half(Half(Half(h))))), 5);
    StepSplit(x, lo, Half(Half(Half(Half(Half(Half(h)))))), 6);
    StepSplit(x, lo, Half(Half(Half(Half(Half(Half(Half(h))))))), 7);
  }

  function Entry(i: nat): bv32
    requires i < 256
  {
    BitSteps(Bits.WordOf(i), 8)
  }

  /** `Crc32cTable`. */
  method BuildTable() returns (table: array<bv32>)
    ensures fresh(table) && table.Length == 256
    ensures forall i :: 0 <= i < 256 ==> table[i] == Entry(i)
  {
    hide Bits.WordOf;
    table := new bv32[256];
    for i := 0 to 256
      invariant forall j :: 0 <= j < i ==> table[j] == Entry(j)
    {
      var crc: bv32 := Bits.WordOf(i);
      for bit := 0 to 8
        invariant crc == BitSteps(Bits.WordOf(i), bit)
        invariant forall j :: 0 <= j < i ==> table[j] == Entry(j)
      {
        crc := if crc & 1 != 0 then (crc >> 1) ^ POLY else crc >> 1;
      }
      table[i] := crc;
    }
  }

  lemma HighBits(x: bv32, b: byte)
    ensures High(Xor(x, AsBits(b))) == High(x)
  {
    Bits.LowByteOfWord(b as nat);
    ShiftedAway(x, AsBits(b));
  }

  lemma ShiftedAway(x: bv32, y: bv32)
    requires y >> 8 == 0
    ensures High(Xor(x, y)) == High(x)
  {}

  lemma LowIsWord(x: bv32)
    ensures Bits.WordOf(Bits.LowByte(x)) == Low(x)
  {
    Bits.WordOfLowByte(x);
  }

  /** One lookup is eight bits of division. */
  lemma LookupIsByteStep(x: bv32, b: byte)
    ensures ByteStep(x, b) == Xor(Entry(Bits.LowByte(Xor(x, AsBits(b)))), High(x))
  {
    hide AsBits, BitSteps, Xor, High, Low, Bits.WordOf, Bits.LowByte;
    var y := Xor(x, AsBits(b));
    LowIsWord(y);
    HighBits(x, b);
    ByteSplits(y);
  }

  /** `crc32c`: the table-driven loop computes the bitwise division. */
  method Checksum(data: seq<byte>) returns (crc: nat)
    ensures crc == Crc32c(data)
  {
    hide ByteStep, Entry, AsBits, Xor, High, Bits.LowByte, Number;
    var table := BuildTable();
    var x: bv32 := ONES;
    for i := 0 to |data|
      invariant forall j :: 0 <= j < 256 ==> table[j] == Entry(j)
      invariant x == Register(data[..i])
    {
      assert data[..i + 1][..i] == data[..i];
      LookupIsByteStep(x, data[i]);
      x := Xor(table[Bits.LowByte(Xor(x, AsBits(data[i])))], High(x));
    }
    assert data[..|data|] == data;
    return Number(Xor(x, ONES));
  }

  // ----- injectivity -----

  lemma BitStepInjective(x: bv32, y: bv32)
    requires BitStep(x) == BitStep(y)
    ensures x == y
  {}

  lemma {:induction false} BitStepsInjective(x: bv32, y: bv32, n: nat)
    requires BitSteps(x, n) == BitSteps(y, n)
    ensures x == y
  {
    hide BitStep;
    if n > 0 {
      BitStepInjective(BitSteps(x, n - 1), BitSteps(y, n - 1));
      BitStepsInjective(x, y, n - 1);
    }
  }

  /** A step forgets neither the register nor the byte. */
  lemma ByteStepInjective(x: bv32, y: bv32, a: byte, b: byte)
    requires ByteStep(x, a) == ByteStep(y, b)
    ensures a == b <==> x == y
  {
    hide BitSteps, Xor, Bits.WordOf, Bits.LowByte;
    BitStepsInjective(Xor(x, AsBits(a)), Xor(y, AsBits(b)), 8);
    if a == b { XorCancels(x, y, AsBits(a)); }
    if x == y {
      XorUndone(x, AsBits(a));
      XorUndone(x, AsBits(b));
      XorCancels(AsBits(a), AsBits(b), x);
      Bits.LowByteOfWord(a as nat);
      Bits.LowByteOfWord(b as nat);
    }
  }

  /** Two strings with one tail are told apart by their registers before it. */
  lemma {:induction false} TailInjective(a: seq<byte>, b: seq<byte>, tail: seq<byte>)
    requires Register(a + tail) == Register(b + tail)
    ensures Register(a) == Register(b)
  {
    hide ByteStep;
    if tail == [] {
      assert a + tail == a && b + tail == b;
    } else {
      var n := |tail| - 1;
      assert (a + tail)[..|a + tail| - 1] == a + tail[..n];
      assert (b + tail)[..|b + tail| - 1] == b + tail[..n];
      ByteStepInjective(Register(a + tail[..n]), Register(b + tail[..n]), tail[n], tail[n]);
      TailInjective(a, b, tail[..n]);
    }
  }

  /** The number tells the register. */
  lemma CrcTellsRegister(a: seq<byte>, b: seq<byte>)
    requires Crc32c(a) == Crc32c(b)
    ensures Register(a) == Register(b)
  {
    hide Register, Xor, Number;
    NumberBack(Xor(Register(a), ONES));
    NumberBack(Xor(Register(b), ONES));
    XorCancels(Register(a), Register(b), ONES);
  }

  /** Any single byte changed changes the checksum. */
  lemma OneByteDetected(data: seq<byte>, i: nat, b: byte)
    requires i < |data| && data[i] != b
    ensures Crc32c(data[i := b]) != Crc32c(data)
  {
    hide ByteStep, Crc32c;
    var bad := data[i := b];
    if Crc32c(bad) == Crc32c(data) {
      CrcTellsRegister(bad, data);
      assert data == data[..i + 1] + data[i + 1..] && bad == bad[..i + 1] + data[i + 1..];
      TailInjective(bad[..i + 1], data[..i + 1], data[i + 1..]);
      assert bad[..i + 1][..i] == data[..i] && data[..i + 1][..i] == data[..i];
      ByteStepInjective(Register(data[..i]), Register(data[..i]), b, data[i]);
      assert false;
    }
  }
}
