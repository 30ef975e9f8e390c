/** The answers the test-suite expects of the two hashes, computed step by step (tests/test_core.cpp): whatever their
    constants, rotations, padding and byte order are, they are the ones that give these. */
module KnownAnswers {
  import opened Model
  import opened Numbers
  import Bits
  import Crc
  import opened Sha

  // ----- CRC-32C of "123456789" -----

  function TwoBits(x: bv32): bv32 { Crc.BitStep(Crc.BitStep(x)) }

  function EightBits(x: bv32): bv32 { TwoBits(TwoBits(TwoBits(TwoBits(x)))) }

  lemma TwoMore(x: bv32, n: nat)
    ensures Crc.BitSteps(x, n + 2) == TwoBits(Crc.BitSteps(x, n))
  {
    hide Crc.BitStep;
    assert Crc.BitSteps(x, n + 1) == Crc.BitStep(Crc.BitSteps(x, n));
  }

  lemma EightMore(x: bv32)
    ensures Crc.BitSteps(x, 8) == EightBits(x)
  {
    hide Crc.BitStep, TwoBits;
    TwoMore(x, 0);
    TwoMore(x, 2);
    TwoMore(x, 4);
    TwoMore(x, 6);
  }

  /** A byte as a word, from the word. */
  lemma ByteWord(x: bv32, n: nat)
    requires n < 256 && x & 0xFF == x && Bits.LowByte(x) == n
    ensures Bits.WordOf(n) == x
  {
    hide Bits.WordOf, Bits.LowByte;
    Bits.WordOfLowByte(x);
  }

  lemma Digits()
    ensures Bits.LowByte(0x31) == 0x31 && Bits.LowByte(0x32) == 0x32 && Bits.LowByte(0x33) == 0x33
    ensures Bits.LowByte(0x34) == 0x34 && Bits.LowByte(0x35) == 0x35 && Bits.LowByte(0x36) == 0x36
    ensures Bits.LowByte(0x37) == 0x37 && Bits.LowByte(0x38) == 0x38 && Bits.LowByte(0x39) == 0x39
  {}

  /** One byte more of a message, the register before it and after it known. */
  lemma NextByte(data: seq<byte>, b: byte, x: bv32, before: bv32, after: bv32)
    requires x & 0xFF == x && Bits.LowByte(x) == b as nat
    requires Crc.Register(data) == before && EightBits(Crc.Xor(before, x)) == after
    ensures Crc.Register(data + [b]) == after
  {
    hide Bits.WordOf, Bits.LowByte, EightBits, Crc.BitStep;
    ByteWord(x, b as nat);
    EightMore(Crc.Xor(before, x));
    assert (data + [b])[..|data + [b]| - 1] == data;
  }

  /** The check value of CRC-32C. */
  lemma CrcCheckValue(data: seq<byte>)
    requires data == [] + [0x31] + [0x32] + [0x33] + [0x34] + [0x35] + [0x36] + [0x37] + [0x38] + [0x39]
    ensures Crc.Crc32c(data) == 0xE3069283
  {
    hide Bits.LowByte, Crc.Register;
    Digits();
    EmptyRegister();
    NextByte([], 0x31, 0x31, 0xffffffff, 0x6f0a661c);
    NextByte([] + [0x31], 0x32, 0x32, 0x6f0a661c, 0x8caa3b9f);
    NextByte([] + [0x31] + [0x32], 0x33, 0x33, 0x8caa3b9f, 0xef84d04d);
    NextByte([] + [0x31] + [0x32] + [0x33], 0x34, 0x34, 0xef84d04d, 0x09c50b11);
    NextByte([] + [0x31] + [0x32] + [0x33] + [0x34], 0x35, 0x35, 0x09c50b11, 0xe72edcca);
    NextByte([] + [0x31] + [0x32] + [0x33] + [0x34] + [0x35], 0x36, 0x36, 0xe72edcca, 0xbeca8e79);
    NextByte([] + [0x31] + [0x32] + [0x33] + [0x34] + [0x35] + [0x36], 0x37, 0x37, 0xbeca8e79, 0xedbd6815);
    NextByte([] + [0x31] + [0x32] + [0x33] + [0x34] + [0x35] + [0x36] + [0x37], 0x38, 0x38, 0xedbd6815, 0x9f787f65);
    NextByte([] + [0x31] + [0x32] + [0x33] + [0x34] + [0x35] + [0x36] + [0x37] + [0x38], 0x39, 0x39, 0x9f787f65, 0x1cf96d7c);
  }

  lemma EmptyRegister()
    ensures Crc.Register([]) == 0xffffffff
  {}

  // ----- SHA-256 of "abc": the schedule -----

  function NewWord(a: bv32, b: bv32, c: bv32, d: bv32): bv32 { Plus(Plus(a, SmallSigma0(b)), Plus(c, SmallSigma1(d))) }

  /** Eight words of a block's schedule, from the t-th on. */
  predicate Words(block: seq<byte>, t: nat,
                  w0: bv32, w1: bv32, w2: bv32, w3: bv32, w4: bv32, w5: bv32, w6: bv32, w7: bv32)
    requires |block| == BLOCK && t <= 56
  {
    && Schedule(block, t) == w0 && Schedule(block, t + 1) == w1
    && Schedule(block, t + 2) == w2 && Schedule(block, t + 3) == w3
    && Schedule(block, t + 4) == w4 && Schedule(block, t + 5) == w5
    && Schedule(block, t + 6) == w6 && Schedule(block, t + 7) == w7
  }

  lemma NextWord(block: seq<byte>, t: nat, a: bv32, b: bv32, c: bv32, d: bv32, w: bv32)
    requires |block| == BLOCK && 16 <= t < 64
    requires Schedule(block, t - 16) == a && Schedule(block, t - 15) == b
    requires Schedule(block, t - 7) == c && Schedule(block, t - 2) == d
    requires NewWord(a, b, c, d) == w
    ensures Schedule(block, t) == w
  {
    hide SmallSigma0, SmallSigma1, Plus;
  }

  lemma Words16(block: seq<byte>)
    requires |block| == BLOCK
    requires Words(block, 0,
                   0x61626380, 0x00000000, 0x00000000, 0x00000000, 0x00000000, 0x00000000, 0x00000000, 0x00000000)
    requires Words(block, 8,
                   0x00000000, 0x00000000, 0x00000000, 0x00000000, 0x00000000, 0x00000000, 0x00000000, 0x00000018)
    ensures Words(block, 16,
                  0x61626380, 0x000f0000, 0x7da86405, 0x600003c6, 0x3e9d7b78, 0x0183fc00, 0x12dcbfdb, 0xe2e2c38e)
  {
    hide Schedule;
    NextWord(block, 16, 0x61626380, 0x00000000, 0x00000000, 0x00000000, 0x61626380);
    NextWord(block, 17, 0x00000000, 0x00000000, 0x00000000, 0x00000018, 0x000f0000);
    NextWord(block, 18, 0x00000000, 0x00000000, 0x00000000, 0x61626380, 0x7da86405);
    NextWord(block, 19, 0x00000000, 0x00000000, 0x00000000, 0x000f0000, 0x600003c6);
    NextWord(block, 20, 0x00000000, 0x00000000, 0x00000000, 0x7da86405, 0x3e9d7b78);
    NextWord(block, 21, 0x00000000, 0x00000000, 0x00000000, 0x600003c6, 0x0183fc00);
    NextWord(block, 22, 0x00000000, 0x00000000, 0x00000018, 0x3e9d7b78, 0x12dcbfdb);
    NextWord(block, 23, 0x00000000, 0x00000000, 0x61626380, 0x0183fc00, 0xe2e2c38e);
  }

  lemma Words24(block: seq<byte>)
    requires |block| == BLOCK
    requires Words(block, 8,
                   0x00000000, 0x00000000, 0x00000000, 0x00000000, 0x00000000, 0x00000000, 0x00000000, 0x00000018)
    requires Words(block, 16,
                   0x61626380, 0x000f0000, 0x7da86405, 0x600003c6, 0x3e9d7b78, 0x0183fc00, 0x12dcbfdb, 0xe2e2c38e)
    ensures Words(block, 24,
                  0xc8215c1a, 0xb73679a2, 0xe5bc3909, 0x32663c5b, 0x9d209d67, 0xec8726cb, 0x702138a4, 0xd3b7973b)
  {
    hide Schedule;
    NextWord(block, 24, 0x00000000, 0x00000000, 0x000f0000, 0x12dcbfdb, 0xc8215c1a);
    NextWord(block, 25, 0x00000000, 0x00000000, 0x7da86405, 0xe2e2c38e, 0xb73679a2);
    NextWord(block, 26, 0x00000000, 0x00000000, 0x600003c6, 0xc8215c1a, 0xe5bc3909);
    NextWord(block, 27, 0x00000000, 0x00000000, 0x3e9d7b78, 0xb73679a2, 0x32663c5b);
    NextWord(block, 28, 0x00000000, 0x00000000, 0x0183fc00, 0xe5bc3909, 0x9d209d67);
    NextWord(block, 29, 0x00000000, 0x00000000, 0x12dcbfdb, 0x32663c5b, 0xec8726cb);
    NextWord(block, 30, 0x00000000, 0x00000018, 0xe2e2c38e, 0x9d209d67, 0x702138a4);
    NextWord(block, 31, 0x00000018, 0x61626380, 0xc8215c1a, 0xec8726cb, 0xd3b7973b);
  }

  lemma Words32(block: seq<byte>)
    requires |block| == BLOCK
    requires Words(block, 16,
                   0x61626380, 0x000f0000, 0x7da86405, 0x600003c6, 0x3e9d7b78, 0x0183fc00, 0x12dcbfdb, 0xe2e2c38e)
    requires Words(block, 24,
                   0xc8215c1a, 0xb73679a2, 0xe5bc3909, 0x32663c5b, 0x9d209d67, 0xec8726cb, 0x702138a4, 0xd3b7973b)
    ensures Words(block, 32,
                  0x93f5997f, 0x3b68ba73, 0xaff4ffc1, 0xf10a5c62, 0x0a8b3996, 0x72af830a, 0x9409e33e, 0x24641522)
  {
    hide Schedule;
    NextWord(block, 32, 0x61626380, 0x000f0000, 0xb73679a2, 0x702138a4, 0x93f5997f);
    NextWord(block, 33, 0x000f0000, 0x7da86405, 0xe5bc3909, 0xd3b7973b, 0x3b68ba73);
    NextWord(block, 34, 0x7da86405, 0x600003c6, 0x32663c5b, 0x93f5997f, 0xaff4ffc1);
    NextWord(block, 35, 0x600003c6, 0x3e9d7b78, 0x9d209d67, 0x3b68ba73, 0xf10a5c62);
    NextWord(block, 36, 0x3e9d7b78, 0x0183fc00, 0xec8726cb, 0xaff4ffc1, 0x0a8b3996);
    NextWord(block, 37, 0x0183fc00, 0x12dcbfdb, 0x702138a4, 0xf10a5c62, 0x72af830a);
    NextWord(block, 38, 0x12dcbfdb, 0xe2e2c38e, 0xd3b7973b, 0x0a8b3996, 0x9409e33e);
    NextWord(block, 39, 0xe2e2c38e, 0xc8215c1a, 0x93f5997f, 0x72af830a, 0x24641522);
  }

  lemma Words40(block: seq<byte>)
    requires |block| == BLOCK
    requires Words(block, 24,
                   0xc8215c1a, 0xb73679a2, 0xe5bc3909, 0x32663c5b, 0x9d209d67, 0xec8726cb, 0x702138a4, 0xd3b7973b)
    requires Words(block, 32,
                   0x93f5997f, 0x3b68ba73, 0xaff4ffc1, 0xf10a5c62, 0x0a8b3996, 0x72af830a, 0x9409e33e, 0x24641522)
    ensures Words(block, 40,
                  0x9f47bf94, 0xf0a64f5a, 0x3e246a79, 0x27333ba3, 0x0c4763f2, 0x840abf27, 0x7a290d5d, 0x065c43da)
  {
    hide Schedule;
    NextWord(block, 40, 0xc8215c1a, 0xb73679a2, 0x3b68ba73, 0x9409e33e, 0x9f47bf94);
    NextWord(block, 41, 0xb73679a2, 0xe5bc3909, 0xaff4ffc1, 0x24641522, 0xf0a64f5a);
    NextWord(block, 42, 0xe5bc3909, 0x32663c5b, 0xf10a5c62, 0x9f47bf94, 0x3e246a79);
    NextWord(block, 43, 0x32663c5b, 0x9d209d67, 0x0a8b3996, 0xf0a64f5a, 0x27333ba3);
    NextWord(block, 44, 0x9d209d67, 0xec8726cb, 0x72af830a, 0x3e246a79, 0x0c4763f2);
    NextWord(block, 45, 0xec8726cb, 0x702138a4, 0x9409e33e, 0x27333ba3, 0x840abf27);
    NextWord(block, 46, 0x702138a4, 0xd3b7973b, 0x24641522, 0x0c4763f2, 0x7a290d5d);
    NextWord(block, 47, 0xd3b7973b, 0x93f5997f, 0x9f47bf94, 0x840abf27, 0x065c43da);
  }

  lemma Words48(block: seq<byte>)
    requires |block| == BLOCK
    requires Words(block, 32,
                   0x93f5997f, 0x3b68ba73, 0xaff4ffc1, 0xf10a5c62, 0x0a8b3996, 0x72af830a, 0x9409e33e, 0x24641522)
    requires Words(block, 40,
                   0x9f47bf94, 0xf0a64f5a, 0x3e246a79, 0x27333ba3, 0x0c4763f2, 0x840abf27, 0x7a290d5d, 0x065c43da)
    ensures Words(block, 48,
                  0xfb3e89cb, 0xcc7617db, 0xb9e66c34, 0xa9993667, 0x84badedd, 0xc21462bc, 0x1487472c, 0xb20f7a99)
  {
    hide Schedule;
    NextWord(block, 48, 0x93f5997f, 0x3b68ba73, 0xf0a64f5a, 0x7a290d5d, 0xfb3e89cb);
    NextWord(block, 49, 0x3b68ba73, 0xaff4ffc1, 0x3e246a79, 0x065c43da, 0xcc7617db);
    NextWord(block, 50, 0xaff4ffc1, 0xf10a5c62, 0x27333ba3, 0xfb3e89cb, 0xb9e66c34);
    NextWord(block, 51, 0xf10a5c62, 0x0a8b3996, 0x0c4763f2, 0xcc7617db, 0xa9993667);
    NextWord(block, 52, 0x0a8b3996, 0x72af830a, 0x840abf27, 0xb9e66c34, 0x84badedd);
    NextWord(block, 53, 0x72af830a, 0x9409e33e, 0x7a290d5d, 0xa9993667, 0xc21462bc);
    NextWord(block, 54, 0x9409e33e, 0x24641522, 0x065c43da, 0x84badedd, 0x1487472c);
    NextWord(block, 55, 0x24641522, 0x9f47bf94, 0xfb3e89cb, 0xc21462bc, 0xb20f7a99);
  }

  lemma Words56(block: seq<byte>)
    requires |block| == BLOCK
    requires Words(block, 40,
                   0x9f47bf94, 0xf0a64f5a, 0x3e246a79, 0x27333ba3, 0x0c4763f2, 0x840abf27, 0x7a290d5d, 0x065c43da)
    requires Words(block, 48,
                   0xfb3e89cb, 0xcc7617db, 0xb9e66c34, 0xa9993667, 0x84badedd, 0xc21462bc, 0x1487472c, 0xb20f7a99)
    ensures Words(block, 56,
                  0xef57b9cd, 0xebe6b238, 0x9fe3095e, 0x78bc8d4b, 0xa43fcf15, 0x668b2ff8, 0xeeaba2cc, 0x12b1edeb)
  {
    hide Schedule;
    NextWord(block, 56, 0x9f47bf94, 0xf0a64f5a, 0xcc7617db, 0x1487472c, 0xef57b9cd);
    NextWord(block, 57, 0xf0a64f5a, 0x3e246a79, 0xb9e66c34, 0xb20f7a99, 0xebe6b238);
    NextWord(block, 58, 0x3e246a79, 0x27333ba3, 0xa9993667, 0xef57b9cd, 0x9fe3095e);
    NextWord(block, 59, 0x27333ba3, 0x0c4763f2, 0x84badedd, 0xebe6b238, 0x78bc8d4b);
    NextWord(block, 60, 0x0c4763f2, 0x840abf27, 0xc21462bc, 0x9fe3095e, 0xa43fcf15);
    NextWord(block, 61, 0x840abf27, 0x7a290d5d, 0x1487472c, 0x78bc8d4b, 0x668b2ff8);
    NextWord(block, 62, 0x7a290d5d, 0x065c43da, 0xb20f7a99, 0xa43fcf15, 0xeeaba2cc);
    NextWord(block, 63, 0x065c43da, 0xfb3e89cb, 0xef57b9cd, 0x668b2ff8, 0x12b1edeb);
  }

  // ----- the rounds -----

  /** Four round constants, from the t-th on. */
  predicate Constants(t: nat, k0: bv32, k1: bv32, k2: bv32, k3: bv32)
    requires t <= 60
  {
    RoundConstant(t) == k0 && RoundConstant(t + 1) == k1 && RoundConstant(t + 2) == k2 && RoundConstant(t + 3) == k3
  }

  /** The next round, from registers that are known: two words are new, the others move on. */
  lemma NextRound(block: seq<byte>, t: nat, k: bv32, w: bv32, a: bv32, b: bv32, c: bv32, d: bv32,
                  e: bv32, f: bv32, g: bv32, h: bv32, x: bv32, y: bv32)
    requires |block| == BLOCK && t < 64 && RoundConstant(t) == k && Schedule(block, t) == w
    requires Rounds(INITIAL, block, t) == Registers(a, b, c, d, e, f, g, h)
    requires Round(Registers(a, b, c, d, e, f, g, h), k, w) == Registers(x, a, b, c, y, e, f, g)
    ensures Rounds(INITIAL, block, t + 1) == Registers(x, a, b, c, y, e, f, g)
  {
    hide Round, RoundConstant, Schedule;
  }

  lemma Constants0()
    ensures Constants(0, 0x428a2f98, 0x71374491, 0xb5c0fbcf, 0xe9b5dba5)
    ensures Constants(4, 0x3956c25b, 0x59f111f1, 0x923f82a4, 0xab1c5ed5)
  {}

  lemma Constants8()
    ensures Constants(8, 0xd807aa98, 0x12835b01, 0x243185be, 0x550c7dc3)
    ensures Constants(12, 0x72be5d74, 0x80deb1fe, 0x9bdc06a7, 0xc19bf174)
  {}

  lemma Constants16()
    ensures Constants(16, 0xe49b69c1, 0xefbe4786, 0x0fc19dc6, 0x240ca1cc)
    ensures Constants(20, 0x2de92c6f, 0x4a7484aa, 0x5cb0a9dc, 0x76f988da)
  {}

  lemma Constants24()
    ensures Constants(24, 0x983e5152, 0xa831c66d, 0xb00327c8, 0xbf597fc7)
    ensures Constants(28, 0xc6e00bf3, 0xd5a79147, 0x06ca6351, 0x14292967)
  {}

  lemma Constants32()
    ensures Constants(32, 0x27b70a85, 0x2e1b2138, 0x4d2c6dfc, 0x53380d13)
    ensures Constants(36, 0x650a7354, 0x766a0abb, 0x81c2c92e, 0x92722c85)
  {}

  lemma Constants40()
    ensures Constants(40, 0xa2bfe8a1, 0xa81a664b, 0xc24b8b70, 0xc76c51a3)
    ensures Constants(44, 0xd192e819, 0xd6990624, 0xf40e3585, 0x106aa070)
  {}

  lemma Constants48()
    ensures Constants(48, 0x19a4c116, 0x1e376c08, 0x2748774c, 0x34b0bcb5)
    ensures Constants(52, 0x391c0cb3, 0x4ed8aa4a, 0x5b9cca4f, 0x682e6ff3)
  {}

  lemma Constants56()
    ensures Constants(56, 0x748f82ee, 0x78a5636f, 0x84c87814, 0x8cc70208)
    ensures Constants(60, 0x90befffa, 0xa4506ceb, 0xbef9a3f7, 0xc67178f2)
  {}

  lemma Rounds0(block: seq<byte>)
    requires |block| == BLOCK
    requires Rounds(INITIAL, block, 0)
             == Registers(0x6a09e667, 0xbb67ae85, 0x3c6ef372, 0xa54ff53a, 0x510e527f, 0x9b05688c, 0x1f83d9ab, 0x5be0cd19)
    requires Words(block, 0,
                   0x61626380, 0x00000000, 0x00000000, 0x00000000, 0x00000000, 0x00000000, 0x00000000, 0x00000000)
    ensures Rounds(INITIAL, block, 8)
            == Registers(0x85a07b5f, 0xe5030380, 0x2b4209f5, 0x04409a6a, 0x0c657a79, 0x9b27a401, 0x714260ad, 0x43ada245)
  {
    hide Rounds, RoundConstant, Schedule;
    Constants0();
    NextRound(block, 0, 0x428a2f98, 0x61626380, 0x6a09e667, 0xbb67ae85, 0x3c6ef372, 0xa54ff53a,
              0x510e527f, 0x9b05688c, 0x1f83d9ab, 0x5be0cd19, 0x5d6aebcd, 0xfa2a4622);
    NextRound(block, 1, 0x71374491, 0x00000000, 0x5d6aebcd, 0x6a09e667, 0xbb67ae85, 0x3c6ef372,
              0xfa2a4622, 0x510e527f, 0x9b05688c, 0x1f83d9ab, 0x5a6ad9ad, 0x78ce7989);
    NextRound(block, 2, 0xb5c0fbcf, 0x00000000, 0x5a6ad9ad, 0x5d6aebcd, 0x6a09e667, 0xbb67ae85,
              0x78ce7989, 0xfa2a4622, 0x510e527f, 0x9b05688c, 0xc8c347a7, 0xf92939eb);
    NextRound(block, 3, 0xe9b5dba5, 0x00000000, 0xc8c347a7, 0x5a6ad9ad, 0x5d6aebcd, 0x6a09e667,
              0xf92939eb, 0x78ce7989, 0xfa2a4622, 0x510e527f, 0xd550f666, 0x24e00850);
    NextRound(block, 4, 0x3956c25b, 0x00000000, 0xd550f666, 0xc8c347a7, 0x5a6ad9ad, 0x5d6aebcd,
              0x24e00850, 0xf92939eb, 0x78ce7989, 0xfa2a4622, 0x04409a6a, 0x43ada245);
    NextRound(block, 5, 0x59f111f1, 0x00000000, 0x04409a6a, 0xd550f666, 0xc8c347a7, 0x5a6ad9ad,
              0x43ada245, 0x24e00850, 0xf92939eb, 0x78ce7989, 0x2b4209f5, 0x714260ad);
    NextRound(block, 6, 0x923f82a4, 0x00000000, 0x2b4209f5, 0x04409a6a, 0xd550f666, 0xc8c347a7,
              0x714260ad, 0x43ada245, 0x24e00850, 0xf92939eb, 0xe5030380, 0x9b27a401);
    NextRound(block, 7, 0xab1c5ed5, 0x00000000, 0xe5030380, 0x2b4209f5, 0x04409a6a, 0xd550f666,
              0x9b27a401, 0x714260ad, 0x43ada245, 0x24e00850, 0x85a07b5f, 0x0c657a79);
  }

  lemma Rounds8(block: seq<byte>)
    requires |block| == BLOCK
    requires Rounds(INITIAL, block, 8)
             == Registers(0x85a07b5f, 0xe5030380, 0x2b4209f5, 0x04409a6a, 0x0c657a79, 0x9b27a401, 0x714260ad, 0x43ada245)
    requires Words(block, 8,
                   0x00000000, 0x00000000, 0x00000000, 0x00000000, 0x00000000, 0x00000000, 0x00000000, 0x00000018)
    ensures Rounds(INITIAL, block, 16)
            == Registers(0xb0fa238e, 0xc0645fde, 0xd932eb16, 0x87912990, 0x07590dcd, 0x0b92f20c, 0x745a48de, 0x1e578218)
  {
    hide Rounds, RoundConstant, Schedule;
    Constants8();
    NextRound(block, 8, 0xd807aa98, 0x00000000, 0x85a07b5f, 0xe5030380, 0x2b4209f5, 0x04409a6a,
              0x0c657a79, 0x9b27a401, 0x714260ad, 0x43ada245, 0x8e04ecb9, 0x32ca2d8c);
    NextRound(block, 9, 0x12835b01, 0x00000000, 0x8e04ecb9, 0x85a07b5f, 0xe5030380, 0x2b4209f5,
              0x32ca2d8c, 0x0c657a79, 0x9b27a401, 0x714260ad, 0x8c87346b, 0x1cc92596);
    NextRound(block, 10, 0x243185be, 0x00000000, 0x8c87346b, 0x8e04ecb9, 0x85a07b5f, 0xe5030380,
              0x1cc92596, 0x32ca2d8c, 0x0c657a79, 0x9b27a401, 0x4798a3f4, 0x436b23e8);
    NextRound(block, 11, 0x550c7dc3, 0x00000000, 0x4798a3f4, 0x8c87346b, 0x8e04ecb9, 0x85a07b5f,
              0x436b23e8, 0x1cc92596, 0x32ca2d8c, 0x0c657a79, 0xf71fc5a9, 0x816fd6e9);
    NextRound(block, 12, 0x72be5d74, 0x00000000, 0xf71fc5a9, 0x4798a3f4, 0x8c87346b, 0x8e04ecb9,
              0x816fd6e9, 0x436b23e8, 0x1cc92596, 0x32ca2d8c, 0x87912990, 0x1e578218);
    NextRound(block, 13, 0x80deb1fe, 0x00000000, 0x87912990, 0xf71fc5a9, 0x4798a3f4, 0x8c87346b,
              0x1e578218, 0x816fd6e9, 0x436b23e8, 0x1cc92596, 0xd932eb16, 0x745a48de);
    NextRound(block, 14, 0x9bdc06a7, 0x00000000, 0xd932eb16, 0x87912990, 0xf71fc5a9, 0x4798a3f4,
              0x745a48de, 0x1e578218, 0x816fd6e9, 0x436b23e8, 0xc0645fde, 0x0b92f20c);
    NextRound(block, 15, 0xc19bf174, 0x00000018, 0xc0645fde, 0xd932eb16, 0x87912990, 0xf71fc5a9,
              0x0b92f20c, 0x745a48de, 0x1e578218, 0x816fd6e9, 0xb0fa238e, 0x07590dcd);
  }

  lemma Rounds16(block: seq<byte>)
    requires |block| == BLOCK
    requires Rounds(INITIAL, block, 16)
             == Registers(0xb0fa238e, 0xc0645fde, 0xd932eb16, 0x87912990, 0x07590dcd, 0x0b92f20c, 0x745a48de, 0x1e578218)
    requires Words(block, 16,
                   0x61626380, 0x000f0000, 0x7da86405, 0x600003c6, 0x3e9d7b78, 0x0183fc00, 0x12dcbfdb, 0xe2e2c38e)
    ensures Rounds(INITIAL, block, 24)
            == Registers(0xc5d53d8d, 0xa7a3623f, 0xc2606d6d, 0x9dc68b63, 0xaa47c347, 0x49f5114a, 0xe1257970, 0x8ada8930)
  {
    hide Rounds, RoundConstant, Schedule;
    Constants16();
    NextRound(block, 16, 0xe49b69c1, 0x61626380, 0xb0fa238e, 0xc0645fde, 0xd932eb16, 0x87912990,
              0x07590dcd, 0x0b92f20c, 0x745a48de, 0x1e578218, 0x21da9a9b, 0x8034229c);
    NextRound(block, 17, 0xefbe4786, 0x000f0000, 0x21da9a9b, 0xb0fa238e, 0xc0645fde, 0xd932eb16,
              0x8034229c, 0x07590dcd, 0x0b92f20c, 0x745a48de, 0xc2fbd9d1, 0x846ee454);
    NextRound(block, 18, 0x0fc19dc6, 0x7da86405, 0xc2fbd9d1, 0x21da9a9b, 0xb0fa238e, 0xc0645fde,
              0x846ee454, 0x8034229c, 0x07590dcd, 0x0b92f20c, 0xfe777bbf, 0xcc899961);
    NextRound(block, 19, 0x240ca1cc, 0x600003c6, 0xfe777bbf, 0xc2fbd9d1, 0x21da9a9b, 0xb0fa238e,
              0xcc899961, 0x846ee454, 0x8034229c, 0x07590dcd, 0xe1f20c33, 0xb0638179);
    NextRound(block, 20, 0x2de92c6f, 0x3e9d7b78, 0xe1f20c33, 0xfe777bbf, 0xc2fbd9d1, 0x21da9a9b,
              0xb0638179, 0xcc899961, 0x846ee454, 0x8034229c, 0x9dc68b63, 0x8ada8930);
    NextRound(block, 21, 0x4a7484aa, 0x0183fc00, 0x9dc68b63, 0xe1f20c33, 0xfe777bbf, 0xc2fbd9d1,
              0x8ada8930, 0xb0638179, 0xcc899961, 0x846ee454, 0xc2606d6d, 0xe1257970);
    NextRound(block, 22, 0x5cb0a9dc, 0x12dcbfdb, 0xc2606d6d, 0x9dc68b63, 0xe1f20c33, 0xfe777bbf,
              0xe1257970, 0x8ada8930, 0xb0638179, 0xcc899961, 0xa7a3623f, 0x49f5114a);
    NextRound(block, 23, 0x76f988da, 0xe2e2c38e, 0xa7a3623f, 0xc2606d6d, 0x9dc68b63, 0xe1f20c33,
              0x49f5114a, 0xe1257970, 0x8ada8930, 0xb0638179, 0xc5d53d8d, 0xaa47c347);
  }

  lemma Rounds24(block: seq<byte>)
    requires |block| == BLOCK
    requires Rounds(INITIAL, block, 24)
             == Registers(0xc5d53d8d, 0xa7a3623f, 0xc2606d6d, 0x9dc68b63, 0xaa47c347, 0x49f5114a, 0xe1257970, 0x8ada8930)
    requires Words(block, 24,
                   0xc8215c1a, 0xb73679a2, 0xe5bc3909, 0x32663c5b, 0x9d209d67, 0xec8726cb, 0x702138a4, 0xd3b7973b)
    ensures Rounds(INITIAL, block, 32)
            == Registers(0x73b33bf5, 0xea992a22, 0xa0060b30, 0x363482c9, 0xba591112, 0x0109ab3a, 0xade79437, 0x6112a3b7)
  {
    hide Rounds, RoundConstant, Schedule;
    Constants24();
    NextRound(block, 24, 0x983e5152, 0xc8215c1a, 0xc5d53d8d, 0xa7a3623f, 0xc2606d6d, 0x9dc68b63,
              0xaa47c347, 0x49f5114a, 0xe1257970, 0x8ada8930, 0x1c2c2838, 0x2823ef91);
    NextRound(block, 25, 0xa831c66d, 0xb73679a2, 0x1c2c2838, 0xc5d53d8d, 0xa7a3623f, 0xc2606d6d,
              0x2823ef91, 0xaa47c347, 0x49f5114a, 0xe1257970, 0xcde8037d, 0x14383d8e);
    NextRound(block, 26, 0xb00327c8, 0xe5bc3909, 0xcde8037d, 0x1c2c2838, 0xc5d53d8d, 0xa7a3623f,
              0x14383d8e, 0x2823ef91, 0xaa47c347, 0x49f5114a, 0xb62ec4bc, 0xc74c6516);
    NextRound(block, 27, 0xbf597fc7, 0x32663c5b, 0xb62ec4bc, 0xcde8037d, 0x1c2c2838, 0xc5d53d8d,
              0xc74c6516, 0x14383d8e, 0x2823ef91, 0xaa47c347, 0x77d37528, 0xedffbff8);
    NextRound(block, 28, 0xc6e00bf3, 0x9d209d67, 0x77d37528, 0xb62ec4bc, 0xcde8037d, 0x1c2c2838,
              0xedffbff8, 0xc74c6516, 0x14383d8e, 0x2823ef91, 0x363482c9, 0x6112a3b7);
    NextRound(block, 29, 0xd5a79147, 0xec8726cb, 0x363482c9, 0x77d37528, 0xb62ec4bc, 0xcde8037d,
              0x6112a3b7, 0xedffbff8, 0xc74c6516, 0x14383d8e, 0xa0060b30, 0xade79437);
    NextRound(block, 30, 0x06ca6351, 0x702138a4, 0xa0060b30, 0x363482c9, 0x77d37528, 0xb62ec4bc,
              0xade79437, 0x6112a3b7, 0xedffbff8, 0xc74c6516, 0xea992a22, 0x0109ab3a);
    NextRound(block, 31, 0x14292967, 0xd3b7973b, 0xea992a22, 0xa0060b30, 0x363482c9, 0x77d37528,
              0x0109ab3a, 0xade79437, 0x6112a3b7, 0xedffbff8, 0x73b33bf5, 0xba591112);
  }

  lemma Rounds32(block: seq<byte>)
    requires |block| == BLOCK
    requires Rounds(INITIAL, block, 32)
             == Registers(0x73b33bf5, 0xea992a22, 0xa0060b30, 0x363482c9, 0xba591112, 0x0109ab3a, 0xade79437, 0x6112a3b7)
    requires Words(block, 32,
                   0x93f5997f, 0x3b68ba73, 0xaff4ffc1, 0xf10a5c62, 0x0a8b3996, 0x72af830a, 0x9409e33e, 0x24641522)
    ensures Rounds(INITIAL, block, 40)
            == Registers(0x79ea687a, 0x6dc57a8a, 0x34df1604, 0x41a65cb1, 0x1efbc0a0, 0xf0781bc8, 0xa507a53d, 0x0772a26b)
  {
    hide Rounds, RoundConstant, Schedule;
    Constants32();
    NextRound(block, 32, 0x27b70a85, 0x93f5997f, 0x73b33bf5, 0xea992a22, 0xa0060b30, 0x363482c9,
              0xba591112, 0x0109ab3a, 0xade79437, 0x6112a3b7, 0x98e12507, 0x9cd9f5f6);
    NextRound(block, 33, 0x2e1b2138, 0x3b68ba73, 0x98e12507, 0x73b33bf5, 0xea992a22, 0xa0060b30,
              0x9cd9f5f6, 0xba591112, 0x0109ab3a, 0xade79437, 0xfe604df5, 0x59249dd3);
    NextRound(block, 34, 0x4d2c6dfc, 0xaff4ffc1, 0xfe604df5, 0x98e12507, 0x73b33bf5, 0xea992a22,
              0x59249dd3, 0x9cd9f5f6, 0xba591112, 0x0109ab3a, 0xa9a7738c, 0x085f3833);
    NextRound(block, 35, 0x53380d13, 0xf10a5c62, 0xa9a7738c, 0xfe604df5, 0x98e12507, 0x73b33bf5,
              0x085f3833, 0x59249dd3, 0x9cd9f5f6, 0xba591112, 0x65a0cfe4, 0xf4b002d6);
    NextRound(block, 36, 0x650a7354, 0x0a8b3996, 0x65a0cfe4, 0xa9a7738c, 0xfe604df5, 0x98e12507,
              0xf4b002d6, 0x085f3833, 0x59249dd3, 0x9cd9f5f6, 0x41a65cb1, 0x0772a26b);
    NextRound(block, 37, 0x766a0abb, 0x72af830a, 0x41a65cb1, 0x65a0cfe4, 0xa9a7738c, 0xfe604df5,
              0x0772a26b, 0xf4b002d6, 0x085f3833, 0x59249dd3, 0x34df1604, 0xa507a53d);
    NextRound(block, 38, 0x81c2c92e, 0x9409e33e, 0x34df1604, 0x41a65cb1, 0x65a0cfe4, 0xa9a7738c,
              0xa507a53d, 0x0772a26b, 0xf4b002d6, 0x085f3833, 0x6dc57a8a, 0xf0781bc8);
    NextRound(block, 39, 0x92722c85, 0x24641522, 0x6dc57a8a, 0x34df1604, 0x41a65cb1, 0x65a0cfe4,
              0xf0781bc8, 0xa507a53d, 0x0772a26b, 0xf4b002d6, 0x79ea687a, 0x1efbc0a0);
  }

  lemma Rounds40(block: seq<byte>)
    requires |block| == BLOCK
    requires Rounds(INITIAL, block, 40)
             == Registers(0x79ea687a, 0x6dc57a8a, 0x34df1604, 0x41a65cb1, 0x1efbc0a0, 0xf0781bc8, 0xa507a53d, 0x0772a26b)
    requires Words(block, 40,
                   0x9f47bf94, 0xf0a64f5a, 0x3e246a79, 0x27333ba3, 0x0c4763f2, 0x840abf27, 0x7a290d5d, 0x065c43da)
    ensures Rounds(INITIAL, block, 48)
            == Registers(0x4172328d, 0xa14c14b0, 0x72ab4b91, 0x26628815, 0xfecf0bc6, 0xd57b94a9, 0xb7755da1, 0xa80f11f0)
  {
    hide Rounds, RoundConstant, Schedule;
    Constants40();
    NextRound(block, 40, 0xa2bfe8a1, 0x9f47bf94, 0x79ea687a, 0x6dc57a8a, 0x34df1604, 0x41a65cb1,
              0x1efbc0a0, 0xf0781bc8, 0xa507a53d, 0x0772a26b, 0xd6670766, 0x26352d63);
    NextRound(block, 41, 0xa81a664b, 0xf0a64f5a, 0xd6670766, 0x79ea687a, 0x6dc57a8a, 0x34df1604,
              0x26352d63, 0x1efbc0a0, 0xf0781bc8, 0xa507a53d, 0xdf46652f, 0x838b2711);
    NextRound(block, 42, 0xc24b8b70, 0x3e246a79, 0xdf46652f, 0xd6670766, 0x79ea687a, 0x6dc57a8a,
              0x838b2711, 0x26352d63, 0x1efbc0a0, 0xf0781bc8, 0x17aa0dfe, 0xdecd4715);
    NextRound(block, 43, 0xc76c51a3, 0x27333ba3, 0x17aa0dfe, 0xdf46652f, 0xd6670766, 0x79ea687a,
              0xdecd4715, 0x838b2711, 0x26352d63, 0x1efbc0a0, 0x9d4baf93, 0xfda24c2e);
    NextRound(block, 44, 0xd192e819, 0x0c4763f2, 0x9d4baf93, 0x17aa0dfe, 0xdf46652f, 0xd6670766,
              0xfda24c2e, 0xdecd4715, 0x838b2711, 0x26352d63, 0x26628815, 0xa80f11f0);
    NextRound(block, 45, 0xd6990624, 0x840abf27, 0x26628815, 0x9d4baf93, 0x17aa0dfe, 0xdf46652f,
              0xa80f11f0, 0xfda24c2e, 0xdecd4715, 0x838b2711, 0x72ab4b91, 0xb7755da1);
    NextRound(block, 46, 0xf40e3585, 0x7a290d5d, 0x72ab4b91, 0x26628815, 0x9d4baf93, 0x17aa0dfe,
              0xb7755da1, 0xa80f11f0, 0xfda24c2e, 0xdecd4715, 0xa14c14b0, 0xd57b94a9);
    NextRound(block, 47, 0x106aa070, 0x065c43da, 0xa14c14b0, 0x72ab4b91, 0x26628815, 0x9d4baf93,
              0xd57b94a9, 0xb7755da1, 0xa80f11f0, 0xfda24c2e, 0x4172328d, 0xfecf0bc6);
  }

  lemma Rounds48(block: seq<byte>)
    requires |block| == BLOCK
    requires Rounds(INITIAL, block, 48)
             == Registers(0x4172328d, 0xa14c14b0, 0x72ab4b91, 0x26628815, 0xfecf0bc6, 0xd57b94a9, 0xb7755da1, 0xa80f11f0)
    requires Words(block, 48,
                   0xfb3e89cb, 0xcc7617db, 0xb9e66c34, 0xa9993667, 0x84badedd, 0xc21462bc, 0x1487472c, 0xb20f7a99)
    ensures Rounds(INITIAL, block, 56)
            == Registers(0x38cc9913, 0x3ec45cdb, 0xf5702fdb, 0x101fd28f, 0x54cb266b, 0xe50e1b4f, 0x9f4787c3, 0x529e7d00)
  {
    hide Rounds, RoundConstant, Schedule;
    Constants48();
    NextRound(block, 48, 0x19a4c116, 0xfb3e89cb, 0x4172328d, 0xa14c14b0, 0x72ab4b91, 0x26628815,
              0xfecf0bc6, 0xd57b94a9, 0xb7755da1, 0xa80f11f0, 0x05757ceb, 0xbd714038);
    NextRound(block, 49, 0x1e376c08, 0xcc7617db, 0x05757ceb, 0x4172328d, 0xa14c14b0, 0x72ab4b91,
              0xbd714038, 0xfecf0bc6, 0xd57b94a9, 0xb7755da1, 0xf11bfaa8, 0x6e5c390c);
    NextRound(block, 50, 0x2748774c, 0xb9e66c34, 0xf11bfaa8, 0x05757ceb, 0x4172328d, 0xa14c14b0,
              0x6e5c390c, 0xbd714038, 0xfecf0bc6, 0xd57b94a9, 0x7a0508a1, 0x52f1ccf7);
    NextRound(block, 51, 0x34b0bcb5, 0xa9993667, 0x7a0508a1, 0xf11bfaa8, 0x05757ceb, 0x4172328d,
              0x52f1ccf7, 0x6e5c390c, 0xbd714038, 0xfecf0bc6, 0x886e7a22, 0x49231c1e);
    NextRound(block, 52, 0x391c0cb3, 0x84badedd, 0x886e7a22, 0x7a0508a1, 0xf11bfaa8, 0x05757ceb,
              0x49231c1e, 0x52f1ccf7, 0x6e5c390c, 0xbd714038, 0x101fd28f, 0x529e7d00);
    NextRound(block, 53, 0x4ed8aa4a, 0xc21462bc, 0x101fd28f, 0x886e7a22, 0x7a0508a1, 0xf11bfaa8,
              0x529e7d00, 0x49231c1e, 0x52f1ccf7, 0x6e5c390c, 0xf5702fdb, 0x9f4787c3);
    NextRound(block, 54, 0x5b9cca4f, 0x1487472c, 0xf5702fdb, 0x101fd28f, 0x886e7a22, 0x7a0508a1,
              0x9f4787c3, 0x529e7d00, 0x49231c1e, 0x52f1ccf7, 0x3ec45cdb, 0xe50e1b4f);
    NextRound(block, 55, 0x682e6ff3, 0xb20f7a99, 0x3ec45cdb, 0xf5702fdb, 0x101fd28f, 0x886e7a22,
              0xe50e1b4f, 0x9f4787c3, 0x529e7d00, 0x49231c1e, 0x38cc9913, 0x54cb266b);
  }

  lemma Rounds56(block: seq<byte>)
    requires |block| == BLOCK
    requires Rounds(INITIAL, block, 56)
             == Registers(0x38cc9913, 0x3ec45cdb, 0xf5702fdb, 0x101fd28f, 0x54cb266b, 0xe50e1b4f, 0x9f4787c3, 0x529e7d00)
    requires Words(block, 56,
                   0xef57b9cd, 0xebe6b238, 0x9fe3095e, 0x78bc8d4b, 0xa43fcf15, 0x668b2ff8, 0xeeaba2cc, 0x12b1edeb)
    ensures Rounds(INITIAL, block, 64)
            == Registers(0x506e3058, 0xd39a2165, 0x04d24d6c, 0xb85e2ce9, 0x5ef50f24, 0xfb121210, 0x948d25b6, 0x961f4894)
  {
    hide Rounds, RoundConstant, Schedule;
    Constants56();
    NextRound(block, 56, 0x748f82ee, 0xef57b9cd, 0x38cc9913, 0x3ec45cdb, 0xf5702fdb, 0x101fd28f,
              0x54cb266b, 0xe50e1b4f, 0x9f4787c3, 0x529e7d00, 0xfcd1887b, 0x9b5e906c);
    NextRound(block, 57, 0x78a5636f, 0xebe6b238, 0xfcd1887b, 0x38cc9913, 0x3ec45cdb, 0xf5702fdb,
              0x9b5e906c, 0x54cb266b, 0xe50e1b4f, 0x9f4787c3, 0xc062d46f, 0x7e44008e);
    NextRound(block, 58, 0x84c87814, 0x9fe3095e, 0xc062d46f, 0xfcd1887b, 0x38cc9913, 0x3ec45cdb,
              0x7e44008e, 0x9b5e906c, 0x54cb266b, 0xe50e1b4f, 0xffb70472, 0x6d83bfc6);
    NextRound(block, 59, 0x8cc70208, 0x78bc8d4b, 0xffb70472, 0xc062d46f, 0xfcd1887b, 0x38cc9913,
              0x6d83bfc6, 0x7e44008e, 0x9b5e906c, 0x54cb266b, 0xb6ae8fff, 0xb21bad3d);
    NextRound(block, 60, 0x90befffa, 0xa43fcf15, 0xb6ae8fff, 0xffb70472, 0xc062d46f, 0xfcd1887b,
              0xb21bad3d, 0x6d83bfc6, 0x7e44008e, 0x9b5e906c, 0xb85e2ce9, 0x961f4894);
    NextRound(block, 61, 0xa4506ceb, 0x668b2ff8, 0xb85e2ce9, 0xb6ae8fff, 0xffb70472, 0xc062d46f,
              0x961f4894, 0xb21bad3d, 0x6d83bfc6, 0x7e44008e, 0x04d24d6c, 0x948d25b6);
    NextRound(block, 62, 0xbef9a3f7, 0xeeaba2cc, 0x04d24d6c, 0xb85e2ce9, 0xb6ae8fff, 0xffb70472,
              0x948d25b6, 0x961f4894, 0xb21bad3d, 0x6d83bfc6, 0xd39a2165, 0xfb121210);
    NextRound(block, 63, 0xc67178f2, 0x12b1edeb, 0xd39a2165, 0x04d24d6c, 0xb85e2ce9, 0xb6ae8fff,
              0xfb121210, 0x948d25b6, 0x961f4894, 0xb21bad3d, 0x506e3058, 0x5ef50f24);
  }

  // ----- the whole digest -----

  lemma {:induction false} ZerosAt(n: nat, i: nat)
    requires i < n
    ensures ZeroBytes(n)[i] == 0
  {
    if i < n - 1 { ZerosAt(n - 1, i); }
  }

  lemma SmallLength()
    ensures Big(24, 8) == [0, 0, 0, 0, 0, 0, 0, 24]
  {
    assert Big(0, 1) == [0] && Big(0, 2) == [0, 0] && Big(0, 4) == [0, 0, 0, 0];
    assert Big(0, 6) == [0, 0, 0, 0, 0, 0] && Big(0, 7) == [0, 0, 0, 0, 0, 0, 0];
  }

  /** One block: the message, the mark, zeros, and its length of 24 bits. */
  lemma AbcPadded(m: seq<byte>)
    requires m == [0x61, 0x62, 0x63]
    ensures |Pad(m)| == BLOCK && Pad(m)[0] == 0x61 && Pad(m)[1] == 0x62 && Pad(m)[2] == 0x63 && Pad(m)[3] == 0x80
    ensures Pad(m)[63] == 24 && forall i :: 4 <= i < 63 ==> Pad(m)[i] == 0
  {
    SmallLength();
    forall i | 4 <= i < 56 ensures Pad(m)[i] == 0 { ZerosAt(52, i - 4); }
  }

  lemma WordBytes()
    ensures Bits.WordOf(0) == 0 && Bits.WordOf(24) == 24 && Bits.WordOf(0x80) == 0x80
    ensures Bits.WordOf(0x61) == 0x61 && Bits.WordOf(0x62) == 0x62 && Bits.WordOf(0x63) == 0x63
  {
    hide Bits.WordOf;
    LowBytes();
    ByteWord(0, 0);
    ByteWord(24, 24);
    ByteWord(0x80, 0x80);
    ByteWord(0x61, 0x61);
    ByteWord(0x62, 0x62);
    ByteWord(0x63, 0x63);
  }

  lemma LowBytes()
    ensures Bits.LowByte(0) == 0 && Bits.LowByte(24) == 24 && Bits.LowByte(0x80) == 0x80
    ensures Bits.LowByte(0x61) == 0x61 && Bits.LowByte(0x62) == 0x62 && Bits.LowByte(0x63) == 0x63
  {}

  lemma WordsOfBytes(b: seq<byte>)
    requires |b| == 4
    ensures b == [0, 0, 0, 0] ==> BigEndian(b) == 0
    ensures b == [0, 0, 0, 24] ==> BigEndian(b) == 24
    ensures b == [0x61, 0x62, 0x63, 0x80] ==> BigEndian(b) == 0x61626380
  {
    hide Bits.WordOf;
    WordBytes();
  }

  lemma ScheduleIs(block: seq<byte>, t: nat)
    requires |block| == BLOCK && t < 16
    ensures Schedule(block, t) == BigEndian(block[4 * t..4 * t + 4])
  {}

  lemma AbcWord(m: seq<byte>, t: nat)
    requires m == [0x61, 0x62, 0x63] && |Pad(m)| == BLOCK && t < 16
    ensures Schedule(Pad(m), t) == if t == 0 then 0x61626380 else if t == 15 then 24 else 0
  {
    hide Pad, Schedule, BigEndian;
    AbcPadded(m);
    var b := Pad(m)[4 * t..4 * t + 4];
    assert b == if t == 0 then [0x61, 0x62, 0x63, 0x80] else if t == 15 then [0, 0, 0, 24] else [0, 0, 0, 0];
    WordsOfBytes(b);
    ScheduleIs(Pad(m), t);
  }

  lemma AbcWords(m: seq<byte>)
    requires m == [0x61, 0x62, 0x63] && |Pad(m)| == BLOCK
    ensures Words(Pad(m), 0, 0x61626380, 0, 0, 0, 0, 0, 0, 0) && Words(Pad(m), 8, 0, 0, 0, 0, 0, 0, 0, 24)
  {
    hide Pad, Schedule;
    forall t | 0 <= t < 16
      ensures Schedule(Pad(m), t) == if t == 0 then 0x61626380 else if t == 15 then 24 else 0
    {
      AbcWord(m, t);
    }
  }

  lemma AbcRounds(block: seq<byte>)
    requires |block| == BLOCK
    requires Words(block, 0, 0x61626380, 0, 0, 0, 0, 0, 0, 0) && Words(block, 8, 0, 0, 0, 0, 0, 0, 0, 24)
    ensures Rounds(INITIAL, block, 64)
            == Registers(0x506e3058, 0xd39a2165, 0x04d24d6c, 0xb85e2ce9, 0x5ef50f24, 0xfb121210, 0x948d25b6, 0x961f4894)
  {
    hide Words, Rounds;
    FirstRound(block);
    Words16(block);
    Words24(block);
    Words32(block);
    Words40(block);
    Words48(block);
    Words56(block);
    Rounds0(block);
    Rounds8(block);
    Rounds16(block);
    Rounds24(block);
    Rounds32(block);
    Rounds40(block);
    Rounds48(block);
    Rounds56(block);
  }

  lemma FirstRound(block: seq<byte>)
    requires |block| == BLOCK
    ensures Rounds(INITIAL, block, 0) == Registers(0x6a09e667, 0xbb67ae85, 0x3c6ef372, 0xa54ff53a, 0x510e527f, 0x9b05688c, 0x1f83d9ab, 0x5be0cd19)
  {}

  lemma Stores()
    ensures Stored(0xba7816bf) == [0xba, 0x78, 0x16, 0xbf] && Stored(0x8f01cfea) == [0x8f, 0x01, 0xcf, 0xea]
  {}

  lemma MoreStores()
    ensures Stored(0x414140de) == [0x41, 0x41, 0x40, 0xde] && Stored(0x5dae2223) == [0x5d, 0xae, 0x22, 0x23]
  {}

  lemma YetMoreStores()
    ensures Stored(0xb00361a3) == [0xb0, 0x03, 0x61, 0xa3] && Stored(0x96177a9c) == [0x96, 0x17, 0x7a, 0x9c]
  {}

  lemma LastStores()
    ensures Stored(0xb410ff61) == [0xb4, 0x10, 0xff, 0x61] && Stored(0xf20015ad) == [0xf2, 0x00, 0x15, 0xad]
  {}

  lemma OneBlock(block: seq<byte>)
    requires |block| == BLOCK
    ensures Absorb(block) == Add(INITIAL, Rounds(INITIAL, block, 64))
  {
    hide Rounds, Add;
    assert block[..0] == [] && block[|block| - BLOCK..] == block;
    assert Absorb([]) == INITIAL;
  }

  lemma AbcAdded()
    ensures Add(INITIAL, Registers(0x506e3058, 0xd39a2165, 0x04d24d6c, 0xb85e2ce9, 0x5ef50f24, 0xfb121210, 0x948d25b6, 0x961f4894))
            == Registers(0xba7816bf, 0x8f01cfea, 0x414140de, 0x5dae2223, 0xb00361a3, 0x96177a9c, 0xb410ff61, 0xf20015ad)
  {}

  /** The digest of "abc". */
  lemma AbcDigest(m: seq<byte>)
    requires m == [0x61, 0x62, 0x63]
    ensures Sha256(m) == [0xba, 0x78, 0x16, 0xbf, 0x8f, 0x01, 0xcf, 0xea, 0x41, 0x41, 0x40, 0xde, 0x5d, 0xae, 0x22, 0x23]
                         + [0xb0, 0x03, 0x61, 0xa3, 0x96, 0x17, 0x7a, 0x9c, 0xb4, 0x10, 0xff, 0x61, 0xf2, 0x00, 0x15, 0xad]
  {
    hide Pad, Absorb, Rounds, Add, Stored, Words;
    AbcPadded(m);
    AbcWords(m);
    AbcRounds(Pad(m));
    OneBlock(Pad(m));
    AbcAdded();
    Stores();
    MoreStores();
    YetMoreStores();
    LastStores();
  }
}
