/** What the UTF-8 test accepts: exactly the strings of scalar values other than NUL, each in its one encoded form
    (section 3 of RFC 3629; src/text.cpp). */
module Utf8 {
  import opened Text

  /** A code point that can be encoded; surrogates cannot, and NUL is refused. */
  predicate Scalar(v: nat) { 0 < v < 0xD800 || 0xE000 <= v < 0x11_0000 }

  /** Six bits at a time behind a byte that says how many bytes there are. */
  function Encoded(v: nat): (s: string)
    requires Scalar(v)
    ensures 1 <= |s| <= 4
  {
    if v < 0x80 then [v as char]
    else if v < 0x800 then [(0xC0 + v / 0x40) as char, Rest(v)]
    else if v < 0x1_0000 then [(0xE0 + v / 0x1000) as char, Rest(v / 0x40), Rest(v)]
    else [(0xF0 + v / 0x4_0000) as char, Rest(v / 0x1000), Rest(v / 0x40), Rest(v)]
  }

  function Rest(v: nat): char { (0x80 + v % 0x40) as char }

  predicate AllScalar(vs: seq<nat>) { forall i :: 0 <= i < |vs| ==> Scalar(vs[i]) }

  function EncodedAll(vs: seq<nat>): string
    requires AllScalar(vs)
  {
    if vs == [] then [] else Encoded(vs[0]) + EncodedAll(vs[1..])
  }

  ghost predicate Encodes(vs: seq<nat>, s: string) { AllScalar(vs) && EncodedAll(vs) == s }

  // ----- one scalar -----

  function Low(c: char): int { c as int - 0x80 }

  /** The value the bytes at `i` stand for. */
  function ValueAt(s: string, i: nat): int
    requires i < |s| && ScalarLength(s, i) > 0
  {
    var b, n := s[i] as int, ScalarLength(s, i);
    if n == 1 then b
    else if n == 2 then 0x40 * (b - 0xC0) + Low(s[i + 1])
    else if n == 3 then 0x1000 * (b - 0xE0) + 0x40 * Low(s[i + 1]) + Low(s[i + 2])
    else 0x4_0000 * (b - 0xF0) + 0x1000 * Low(s[i + 1]) + 0x40 * Low(s[i + 2]) + Low(s[i + 3])
  }

  lemma DigitsOf(a: int, b: int, c: int, d: int)
    requires 0 <= a && 0 <= b < 0x40 && 0 <= c < 0x40 && 0 <= d < 0x40
    ensures (0x40 * a + b) / 0x40 == a && (0x40 * a + b) % 0x40 == b
    ensures var v := 0x1000 * a + 0x40 * b + c; v / 0x1000 == a && v / 0x40 % 0x40 == b && v % 0x40 == c
    ensures var v := 0x4_0000 * a + 0x1000 * b + 0x40 * c + d;
            v / 0x4_0000 == a && v / 0x1000 % 0x40 == b && v / 0x40 % 0x40 == c && v % 0x40 == d
  {
    var v := 0x1000 * a + 0x40 * b + c;
    assert v / 0x40 == 0x40 * a + b;
    var u := 0x4_0000 * a + 0x1000 * b + 0x40 * c + d;
    assert u / 0x40 == 0x1000 * a + 0x40 * b + c && u / 0x1000 == 0x40 * a + b;
  }

  /** What is taken for a scalar is the encoded form of its value. */
  lemma TakenIsEncoded(s: string, i: nat)
    requires i < |s| && ScalarLength(s, i) > 0 && s[i] as int != 0
    ensures ValueAt(s, i) >= 0 && Scalar(ValueAt(s, i)) && Encoded(ValueAt(s, i)) == s[i..i + ScalarLength(s, i)]
  {
    var n := ScalarLength(s, i);
    if n == 1 {
      assert s[i..i + 1] == [s[i]];
    } else if n == 2 {
      TwoTaken(s, i);
    } else if n == 3 {
      ThreeTaken(s, i);
    } else {
      FourTaken(s, i);
    }
  }

  lemma TwoTaken(s: string, i: nat)
    requires i < |s| && ScalarLength(s, i) == 2
    ensures ValueAt(s, i) >= 0 && Scalar(ValueAt(s, i)) && Encoded(ValueAt(s, i)) == s[i..i + 2]
  {
    DigitsOf(s[i] as int - 0xC0, Low(s[i + 1]), 0, 0);
    assert s[i..i + 2] == [s[i], s[i + 1]];
  }

  lemma ThreeTaken(s: string, i: nat)
    requires i < |s| && ScalarLength(s, i) == 3
    ensures ValueAt(s, i) >= 0 && Scalar(ValueAt(s, i)) && Encoded(ValueAt(s, i)) == s[i..i + 3]
  {
    DigitsOf(s[i] as int - 0xE0, Low(s[i + 1]), Low(s[i + 2]), 0);
    assert s[i..i + 3] == [s[i], s[i + 1], s[i + 2]];
  }

  lemma FourTaken(s: string, i: nat)
    requires i < |s| && ScalarLength(s, i) == 4
    ensures ValueAt(s, i) >= 0 && Scalar(ValueAt(s, i)) && Encoded(ValueAt(s, i)) == s[i..i + 4]
  {
    DigitsOf(s[i] as int - 0xF0, Low(s[i + 1]), Low(s[i + 2]), Low(s[i + 3]));
    assert s[i..i + 4] == [s[i], s[i + 1], s[i + 2], s[i + 3]];
  }

  /** And an encoded form is taken for a scalar, as a whole. */
  lemma EncodedIsTaken(s: string, i: nat, v: nat)
    requires Scalar(v) && i + |Encoded(v)| <= |s| && s[i..i + |Encoded(v)|] == Encoded(v)
    ensures ScalarLength(s, i) == |Encoded(v)| && s[i] as int != 0
  {
    var e := Encoded(v);
    forall j | 0 <= j < |e| ensures s[i + j] == e[j] { assert s[i..i + |e|][j] == e[j]; }
    assert s[i + 0] == e[0];
    if v >= 0x80 {
      assert s[i + 1] == e[1];
      if v >= 0x800 {
        assert s[i + 2] == e[2];
        if v >= 0x1_0000 { assert s[i + 3] == e[3]; }
      }
    }
  }

  // ----- a text -----

  lemma {:induction false} ValidIsEncoded(s: string, i: nat)
    requires i <= |s| && ValidFrom(s, i)
    ensures exists vs :: Encodes(vs, s[i..])
    decreases |s| - i
  {
    hide Encoded, ScalarLength, ValueAt;
    if i == |s| {
      assert Encodes([], s[i..]);
    } else {
      var n := ScalarLength(s, i);
      TakenIsEncoded(s, i);
      ValidIsEncoded(s, i + n);
      var vs :| Encodes(vs, s[i + n..]);
      var all := [ValueAt(s, i) as nat] + vs;
      assert all[1..] == vs && s[i..] == s[i..i + n] + s[i + n..];
      assert Encodes(all, s[i..]);
    }
  }

  lemma {:induction false} EncodedIsValid(s: string, i: nat, vs: seq<nat>)
    requires i <= |s| && Encodes(vs, s[i..])
    ensures ValidFrom(s, i)
    decreases |vs|
  {
    hide Encoded, ScalarLength;
    if vs != [] {
      var e := Encoded(vs[0]);
      assert s[i..] == e + EncodedAll(vs[1..]);
      assert s[i..i + |e|] == s[i..][..|e|] && s[i + |e|..] == s[i..][|e|..];
      EncodedIsTaken(s, i, vs[0]);
      EncodedIsValid(s, i + |e|, vs[1..]);
    }
  }

  /** A text passes exactly when it is the encoding of some scalar values. */
  lemma Utf8Exact(s: string)
    ensures IsUtf8(s) <==> exists vs :: Encodes(vs, s)
  {
    hide ValidFrom, Encodes;
    assert s[0..] == s;
    if IsUtf8(s) { ValidIsEncoded(s, 0); }
    if vs :| Encodes(vs, s) { EncodedIsValid(s, 0, vs); }
  }
}
