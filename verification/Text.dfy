/** Text rules: the identifier grammar and UTF-8 validity (src/text.cpp). */
module Text {

  predicate IsByteText(s: string) { forall i :: 0 <= i < |s| ==> s[i] as int < 256 }

  predicate IdentifierChar(c: char)
  {
    'A' <= c <= 'Z' || 'a' <= c <= 'z' || '0' <= c <= '9' ||
    c == '-' || c == '_' || c == '.' || c == ':' || c == '@' || c == '+' || c == '/'
  }

  predicate IsIdentifier(s: string, max: nat)
  {
    0 < |s| <= max && forall i :: 0 <= i < |s| ==> IdentifierChar(s[i])
  }

  predicate Continuation(b: int) { 0x80 <= b < 0xC0 }

  /** Length of the scalar starting at `i`, or 0 when the bytes there are not one. */
  function ScalarLength(s: string, i: nat): (n: nat)
    requires i < |s|
    ensures n <= |s| - i
  {
    var b0 := s[i] as int;
    var left := |s| - i;
    if b0 < 0x80 then 1
    else if 0xC2 <= b0 <= 0xDF then
      if left >= 2 && Continuation(s[i + 1] as int) then 2 else 0
    else if 0xE0 <= b0 <= 0xEF then
      if left < 3 then 0 else
        var b1, b2 := s[i + 1] as int, s[i + 2] as int;
        if !Continuation(b1) || !Continuation(b2) || (b0 == 0xE0 && b1 < 0xA0) || (b0 == 0xED && b1 >= 0xA0)
        then 0 else 3
    else if 0xF0 <= b0 <= 0xF4 then
      if left < 4 then 0 else
        var b1, b2, b3 := s[i + 1] as int, s[i + 2] as int, s[i + 3] as int;
        if !Continuation(b1) || !Continuation(b2) || !Continuation(b3)
           || (b0 == 0xF0 && b1 < 0x90) || (b0 == 0xF4 && b1 > 0x8F)
        then 0 else 4
    else 0
  }

  predicate ValidFrom(s: string, i: nat)
    requires i <= |s|
    decreases |s| - i
  {
    i == |s| || (ScalarLength(s, i) > 0 && s[i] as int != 0 && ValidFrom(s, i + ScalarLength(s, i)))
  }

  /** `is_valid_utf8`: well-formed scalars only, and no NUL. */
  predicate IsUtf8(s: string) { ValidFrom(s, 0) }

  predicate IsAscii(s: string) { forall i :: 0 <= i < |s| ==> 0 < s[i] as int < 128 }

  lemma {:induction false} AsciiFrom(s: string, i: nat)
    requires IsAscii(s) && i <= |s|
    ensures ValidFrom(s, i)
    decreases |s| - i
  {
    if i < |s| { AsciiFrom(s, i + 1); }
  }

  lemma AsciiIsUtf8(s: string)
    requires IsAscii(s)
    ensures IsUtf8(s) && IsByteText(s)
  {
    AsciiFrom(s, 0);
  }

  lemma AsciiJoin(a: string, b: string)
    requires IsAscii(a) && IsAscii(b)
    ensures IsAscii(a + b)
  {}

  lemma IdentifierIsAscii(s: string, max: nat)
    requires IsIdentifier(s, max)
    ensures IsAscii(s)
  {
    forall i | 0 <= i < |s| ensures 0 < s[i] as int < 128 { assert IdentifierChar(s[i]); }
  }
}
