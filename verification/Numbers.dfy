/** Numbers as fixed-width byte strings. */
module Numbers {
  import opened Model

  function Base(k: nat): (n: nat)
    ensures n > 0
  {
    if k == 0 then 1 else 256 * Base(k - 1)
  }

  lemma BaseValues()
    ensures Base(1) == 256 && Base(2) == 0x1_0000 && Base(4) == U32_LIMIT && Base(8) == U64_LIMIT
  {
    assert Base(3) == 0x100_0000;
    assert Base(6) == 256 * (256 * Base(4));
  }

  /** The `k` low bytes, least significant first. */
  function Little(n: nat, k: nat): (s: seq<byte>)
    ensures |s| == k
  {
    if k == 0 then [] else [(n % 256) as byte] + Little(n / 256, k - 1)
  }

  function FromLittle(s: seq<byte>): nat
  {
    if s == [] then 0 else s[0] as nat + 256 * FromLittle(s[1..])
  }

  lemma {:induction false} FromLittleBound(s: seq<byte>)
    ensures FromLittle(s) < Base(|s|)
  {
    if s != [] { FromLittleBound(s[1..]); }
  }

  lemma {:induction false} LittleBack(n: nat, k: nat)
    requires n < Base(k)
    ensures FromLittle(Little(n, k)) == n
  {
    if k > 0 {
      LittleBack(n / 256, k - 1);
      assert Little(n, k)[1..] == Little(n / 256, k - 1);
    }
  }

  lemma {:induction false} LittleThere(s: seq<byte>)
    ensures Little(FromLittle(s), |s|) == s
  {
    if s != [] {
      LittleThere(s[1..]);
      var n := FromLittle(s);
      assert n / 256 == FromLittle(s[1..]) && n % 256 == s[0] as nat;
    }
  }

  /** The `k` low bytes, most significant first. */
  function Big(n: nat, k: nat): (s: seq<byte>)
    ensures |s| == k
  {
    if k == 0 then [] else Big(n / 256, k - 1) + [(n % 256) as byte]
  }

  lemma {:induction false} BigTells(m: nat, n: nat, k: nat)
    requires Big(m, k) == Big(n, k) && m < Base(k) && n < Base(k)
    ensures m == n
  {
    if k > 0 {
      var s, t := Big(m, k), Big(n, k);
      assert s[k - 1] == (m % 256) as byte && t[k - 1] == (n % 256) as byte;
      assert s[..k - 1] == Big(m / 256, k - 1) && t[..k - 1] == Big(n / 256, k - 1);
      BigTells(m / 256, n / 256, k - 1);
    }
  }

  /** Whole multiples of the base leave the low bytes alone. */
  lemma {:induction false} BigAdd(n: nat, q: nat, k: nat)
    ensures Big(n + q * Base(k), k) == Big(n, k)
  {
    if k > 0 {
      var x := q * Base(k - 1);
      assert q * Base(k) == 256 * x;
      assert (n + 256 * x) / 256 == n / 256 + x && (n + 256 * x) % 256 == n % 256;
      BigAdd(n / 256, q, k - 1);
    }
  }

  lemma DivMod(n: nat, b: nat) returns (q: nat, r: nat)
    requires b > 0
    ensures n == r + q * b && r == n % b
  {
    q, r := n / b, n % b;
  }

  lemma BigLow(n: nat, k: nat)
    ensures Big(n % Base(k), k) == Big(n, k)
  {
    hide Base, Big;
    var q, r := DivMod(n, Base(k));
    BigAdd(r, q, k);
  }
}
