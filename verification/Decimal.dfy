/** Identifiers minted from a counter: the decimal printer and the parser that
    reads a serial back out of an identifier. */
module Decimal {
  import opened Model

  predicate IsDigit(c: char) { '0' <= c <= '9' }

  function DigitChar(d: nat): (c: char)
    requires d < 10
    ensures IsDigit(c) && DigitValue(c) == d
  {
    ['0', '1', '2', '3', '4', '5', '6', '7', '8', '9'][d]
  }

  function DigitValue(c: char): (d: nat)
    requires IsDigit(c)
    ensures d < 10
  {
    c as int - '0' as int
  }

  /** The value of a digit string, read from its most significant end. */
  function Value(s: string): nat
    requires forall c :: c in s ==> IsDigit(c)
  {
    if s == [] then 0 else Value(s[..|s| - 1]) * 10 + DigitValue(s[|s| - 1])
  }

  function Digits(n: nat): (s: string)
    ensures forall c :: c in s ==> IsDigit(c)
    ensures Value(s) == n
    ensures n > 0 ==> s != [] && s[0] != '0'
  {
    if n == 0 then [] else
      var s := Digits(n / 10) + [DigitChar(n % 10)];
      assert s[..|s| - 1] == Digits(n / 10);
      s
  }

  /** `to_decimal`: the buffer is filled from its end towards its start. */
  method ToDecimal(value: nat) returns (text: string)
    requires value <= U64_MAX
    ensures text == if value == 0 then "0" else Digits(value)
  {
    hide Digits, Pow10, DigitChar;
    if value == 0 { return "0"; }
    var buffer := new char[24];
    var pos := 24;
    var v := value;
    ghost var room: nat := 20;
    Pow10Values();
    assert Digits(v) + buffer[pos..] == Digits(value);
    while v != 0
      invariant 0 <= v
      invariant 4 <= pos <= 24 && pos == 4 + room
      invariant v < Pow10(room)
      invariant Digits(v) + buffer[pos..] == Digits(value)
    {
      LastDigit(v, room, buffer[pos..]);
      pos := pos - 1;
      buffer[pos] := DigitChar(v % 10);
      assert buffer[pos..] == [DigitChar(v % 10)] + buffer[pos + 1..];
      v := v / 10;
      room := room - 1;
    }
    NoDigits(room, buffer[pos..]);
    return buffer[pos..];
  }

  /** A number below `10^room` needs a place for its last digit, and one place less for the others. */
  lemma LastDigit(v: nat, room: nat, rest: string)
    requires 0 < v < Pow10(room)
    ensures room > 0 && v / 10 < Pow10(room - 1)
    ensures Digits(v) + rest == Digits(v / 10) + ([DigitChar(v % 10)] + rest)
  {
    TenthBelow(v, room);
    DigitsOf(v);
    hide Digits, Pow10, DigitChar;
  }

  lemma TenthBelow(v: nat, room: nat)
    requires 0 < v < Pow10(room)
    ensures room > 0 && v / 10 < Pow10(room - 1)
  {}

  lemma DigitsOf(v: nat)
    requires v > 0
    ensures Digits(v) == Digits(v / 10) + [DigitChar(v % 10)]
  {
    hide Value, DigitValue;
  }

  lemma NoDigits(room: nat, rest: string)
    ensures Digits(0) + rest == rest
  {}

  ghost function Pow10(n: nat): (p: nat)
    ensures p > 0
  {
    if n == 0 then 1 else 10 * Pow10(n - 1)
  }

  lemma Pow10Values()
    ensures U64_MAX < Pow10(20)
  {
    assert Pow10(5) == 100000;
    assert Pow10(10) == 100000 * Pow10(5);
    assert Pow10(15) == 100000 * Pow10(10);
    assert Pow10(20) == 100000 * Pow10(15);
  }

  function Printed(n: nat): string { if n == 0 then "0" else Digits(n) }

  lemma {:induction false} DigitsShort(n: nat, k: nat)
    requires n < Pow10(k)
    ensures |Digits(n)| <= k
  {
    if n > 0 { DigitsShort(n / 10, k - 1); }
  }

  /** A 64-bit number is at most 20 characters long, all of them digits. */
  lemma PrintedShort(n: nat)
    requires n <= U64_MAX
    ensures |Printed(n)| <= 20 && forall i :: 0 <= i < |Printed(n)| ==> IsDigit(Printed(n)[i])
  {
    Pow10Values();
    DigitsShort(n, 20);
    assert forall i :: 0 <= i < |Digits(n)| ==> Digits(n)[i] in Digits(n);
  }

  /** Start of the trailing run of digits. */
  function DigitStart(id: string, end: nat): (i: nat)
    requires end <= |id|
    ensures i <= end
    ensures forall k :: i <= k < end ==> IsDigit(id[k])
    ensures i > 0 ==> !IsDigit(id[i - 1])
  {
    if end == 0 || !IsDigit(id[end - 1]) then end else DigitStart(id, end - 1)
  }

  /** The number written at the end of an identifier, saturating at the 64-bit maximum. */
  function Suffix(id: string): (n: nat)
    ensures n <= U64_MAX
  {
    var i := DigitStart(id, |id|);
    Min(Value(id[i..]), U64_MAX)
  }

  lemma {:induction false} ValueGrows(s: string, k: nat)
    requires k <= |s|
    requires forall c :: c in s ==> IsDigit(c)
    ensures Value(s[..k]) <= Value(s)
  {
    if k < |s| {
      ValueGrows(s[..|s| - 1], k);
      assert s[..|s| - 1][..k] == s[..k];
    } else {
      assert s[..k] == s;
    }
  }

  /** `serial_suffix`: two scans, the second giving up once 64 bits would overflow. */
  method SerialSuffix(id: string) returns (value: nat)
    ensures value == Suffix(id)
  {
    value := 0;
    var index: nat := |id|;
    while index > 0 && IsDigit(id[index - 1])
      invariant 0 <= index <= |id|
      invariant DigitStart(id, |id|) == DigitStart(id, index)
    {
      index := index - 1;
    }
    if index == |id| {
      assert id[index..] == [];
      return;
    }
    ghost var run := id[index..];
    for i := index to |id|
      invariant value <= U64_MAX
      invariant value == Value(run[..i - index])
    {
      var digit := DigitValue(id[i]);
      assert run[..i + 1 - index][..i - index] == run[..i - index];
      if value > (U64_MAX - digit) / 10 {
        ValueGrows(run, i + 1 - index);
        return U64_MAX;
      }
      value := value * 10 + digit;
    }
    assert run[..|id| - index] == run;
  }

  /** Reading back what was printed: the law fresh identifiers rest on. */
  lemma SuffixOfPrinted(prefix: string, n: nat)
    requires n <= U64_MAX
    requires prefix != [] && !IsDigit(prefix[|prefix| - 1])
    ensures Suffix(prefix + Printed(n)) == n
  {
    var id := prefix + Printed(n);
    var start := |prefix|;
    assert forall k :: start <= k < |id| ==> id[k] in Printed(n);
    var i := DigitStart(id, |id|);
    assert !IsDigit(id[start - 1]);
    assert i == start;
    assert id[i..] == Printed(n);
    if n == 0 { assert Value("0") == 0 * 10 + DigitValue('0') by { assert "0"[..0] == []; } }
  }
}
