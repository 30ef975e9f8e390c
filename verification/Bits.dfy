/** Bytes, words and the bits between them. */
module Bits {
  /** A byte as its eight bits, lowest first: how it travels between numbers and words. */
  datatype Octet = Octet(a: bool, b: bool, c: bool, d: bool, e: bool, f: bool, g: bool, h: bool)

  predicate Odd(n: nat) { n % 2 == 1 }
  function Half(n: nat): nat { n / 2 }
  function Join(low: bool, high: nat): nat { (if low then 1 else 0) + 2 * high }

  lemma HalfJoin(low: bool, high: nat)
    ensures Half(Join(low, high)) == high && Odd(Join(low, high)) == low
  {}

  lemma JoinHalf(n: nat)
    ensures Join(Odd(n), Half(n)) == n
  {}

  function BitsOf(n: nat): Octet
  {
    var n1 := Half(n);
    var n2 := Half(n1);
    var n3 := Half(n2);
    var n4 := Half(n3);
    var n5 := Half(n4);
    var n6 := Half(n5);
    var n7 := Half(n6);
    Octet(Odd(n), Odd(n1), Odd(n2), Odd(n3), Odd(n4), Odd(n5), Odd(n6), Odd(n7))
  }

  function NumberOf(o: Octet): (n: nat)
    ensures n < 256
  {
    Join(o.a, Join(o.b, Join(o.c, Join(o.d, Join(o.e, Join(o.f, Join(o.g, Join(o.h, 0))))))))
  }

  lemma Halved(n: nat)
    requires n < 256
    ensures Half(Half(Half(Half(Half(Half(Half(Half(n)))))))) == 0
  {}

  lemma BitsBack(n: nat)
    requires n < 256
    ensures NumberOf(BitsOf(n)) == n
  {
    Halved(n);
    hide Half, Join, Odd;
    JoinHalf(n);
    JoinHalf(Half(n));
    JoinHalf(Half(Half(n)));
    JoinHalf(Half(Half(Half(n))));
    JoinHalf(Half(Half(Half(Half(n)))));
    JoinHalf(Half(Half(Half(Half(Half(n))))));
    JoinHalf(Half(Half(Half(Half(Half(Half(n)))))));
    JoinHalf(Half(Half(Half(Half(Half(Half(Half(n))))))));
  }

  lemma BitsThere(o: Octet)
    ensures BitsOf(NumberOf(o)) == o
  {
    hide Half, Join, Odd;
    var n7 := Join(o.h, 0);
    var n6 := Join(o.g, n7);
    var n5 := Join(o.f, n6);
    var n4 := Join(o.e, n5);
    var n3 := Join(o.d, n4);
    var n2 := Join(o.c, n3);
    var n1 := Join(o.b, n2);
    HalfJoin(o.h, 0);
    HalfJoin(o.g, n7);
    HalfJoin(o.f, n6);
    HalfJoin(o.e, n5);
    HalfJoin(o.d, n4);
    HalfJoin(o.c, n3);
    HalfJoin(o.b, n2);
    HalfJoin(o.a, n1);
  }

  function Mark(b: bool, x: bv32): bv32 { if b then x else 0 }

  function Pack(o: Octet): bv32
  {
    Mark(o.a, 1) | Mark(o.b, 2) | Mark(o.c, 4) | Mark(o.d, 8)
    | Mark(o.e, 16) | Mark(o.f, 32) | Mark(o.g, 64) | Mark(o.h, 128)
  }

  function Unpack(x: bv32): Octet
  {
    Octet(x & 1 != 0, x & 2 != 0, x & 4 != 0, x & 8 != 0, x & 16 != 0, x & 32 != 0, x & 64 != 0, x & 128 != 0)
  }

  lemma UnpackPack(o: Octet)
    ensures Unpack(Pack(o)) == o
  {}

  lemma PackIsLow(o: Octet)
    ensures Pack(o) >> 8 == 0
  {}

  lemma PackUnpack(x: bv32)
    ensures Pack(Unpack(x)) == x & 0xFF
  {}

  lemma NumberBack(x: bv32)
    ensures (x as int) as bv32 == x && 0 <= x as int < 0x1_0000_0000
  {}

  function WordOf(n: nat): bv32 { Pack(BitsOf(n)) }

  /** The low byte of a word, as a number. */
  function LowByte(x: bv32): (n: nat)
    ensures n < 256
  {
    NumberOf(Unpack(x))
  }

  lemma LowByteOfWord(n: nat)
    requires n < 256
    ensures LowByte(WordOf(n)) == n && WordOf(n) >> 8 == 0
  {
    hide Pack, Unpack, BitsOf, NumberOf;
    UnpackPack(BitsOf(n));
    PackIsLow(BitsOf(n));
    BitsBack(n);
  }

  lemma WordOfLowByte(x: bv32)
    ensures WordOf(LowByte(x)) == x & 0xFF
  {
    hide Pack, Unpack, BitsOf, NumberOf;
    BitsThere(Unpack(x));
    PackUnpack(x);
  }
}
