/** The canonical writer and reader (src/bytes.cpp): little-endian integers, varints in their one
    shortest form (LEB128, section 7.6 of DWARF Version 5), length-prefixed texts. */
module Bytes {
  import opened Model
  import opened Text
  import opened Numbers

  /** What a read gives: a value and the bytes after it, or the code of the first failure. */
  datatype Read<+T> = Got(value: T, rest: seq<byte>) | Bad(code: StatusCode)

  // ----- fixed widths -----

  function TakeRaw(bytes: seq<byte>, n: nat): Read<seq<byte>>
  {
    if n > |bytes| then Bad(Truncated) else Got(bytes[..n], bytes[n..])
  }

  function TakeInt(bytes: seq<byte>, width: nat): Read<nat>
  {
    if width > |bytes| then Bad(Truncated) else Got(FromLittle(bytes[..width]), bytes[width..])
  }

  lemma TakeIntBack(n: nat, width: nat, rest: seq<byte>)
    requires n < Base(width)
    ensures TakeInt(Little(n, width) + rest, width) == Got(n, rest)
  {
    LittleBack(n, width);
    assert (Little(n, width) + rest)[..width] == Little(n, width);
  }

  lemma TakeIntThere(bytes: seq<byte>, width: nat)
    requires TakeInt(bytes, width).Got?
    ensures var r := TakeInt(bytes, width); r.value < Base(width) && bytes == Little(r.value, width) + r.rest
  {
    LittleThere(bytes[..width]);
    FromLittleBound(bytes[..width]);
  }

  // ----- varints -----

  const GROUPS: nat := 10

  function Varint(n: nat): (s: seq<byte>)
    ensures s != []
  {
    if n < 128 then [n as byte] else [(n % 128 + 128) as byte] + Varint(n / 128)
  }

  /** Reading from the `i`-th group on: at most ten groups, the tenth at most 1, and no group that
      only says zero after the first. */
  function TakeVarint(bytes: seq<byte>, i: nat): Read<nat>
    requires i <= GROUPS
    decreases GROUPS - i
  {
    if i == GROUPS then Bad(Corruption)
    else if bytes == [] then Bad(Truncated)
    else
      var b := bytes[0] as nat;
      if i == 9 && b % 128 > 1 then Bad(Corruption)
      else if b < 128 then (if i > 0 && b == 0 then Bad(Corruption) else Got(b, bytes[1..]))
      else
        match TakeVarint(bytes[1..], i + 1)
        case Bad(code) => Bad(code)
        case Got(n, rest) => Got(b % 128 + 128 * n, rest)
  }

  /** What can still be written from the `i`-th group on: 64 bits in all. */
  function Room(i: nat): (n: nat)
    requires i <= 9
    ensures n >= 2 && (i < 9 ==> n >= 256)
    decreases 9 - i
  {
    if i == 9 then 2 else 128 * Room(i + 1)
  }

  lemma RoomIs64()
    ensures Room(0) == U64_LIMIT
  {
    assert Room(5) == 128 * (128 * (128 * (128 * 2)));
    assert Room(0) == 128 * (128 * (128 * (128 * (128 * Room(5)))));
  }

  lemma FirstGroup(n: nat)
    ensures var b := n % 128 + 128; 128 <= b < 256 && b % 128 + 128 * (n / 128) == n
  {}

  lemma {:induction false} VarintBackAt(n: nat, i: nat, rest: seq<byte>)
    requires i <= 9 && n < Room(i) && (i > 0 ==> n > 0)
    ensures TakeVarint(Varint(n) + rest, i) == Got(n, rest)
    decreases 9 - i
  {
    var bytes := Varint(n) + rest;
    if n < 128 {
      assert bytes[1..] == rest;
    } else {
      FirstGroup(n);
      assert bytes[0] == (n % 128 + 128) as byte;
      assert bytes[1..] == Varint(n / 128) + rest;
      VarintBackAt(n / 128, i + 1, rest);
    }
  }

  lemma MoreGroups(b: nat, m: nat)
    requires 128 <= b < 256 && m > 0
    ensures var n := b % 128 + 128 * m; n >= 128 && n % 128 + 128 == b && n / 128 == m
  {}

  lemma {:induction false} VarintThereAt(bytes: seq<byte>, i: nat)
    requires i <= 9 && TakeVarint(bytes, i).Got?
    ensures var r := TakeVarint(bytes, i);
            r.value < Room(i) && (i > 0 ==> r.value > 0) && bytes == Varint(r.value) + r.rest
    decreases 9 - i
  {
    var b := bytes[0] as nat;
    assert bytes == [bytes[0]] + bytes[1..];
    if b >= 128 {
      if i < 9 {
        VarintThereAt(bytes[1..], i + 1);
        MoreGroups(b, TakeVarint(bytes[1..], i + 1).value);
      }
    }
  }

  /** Every 64-bit number is read back, whatever follows it. */
  lemma VarintBack(n: nat, rest: seq<byte>)
    requires n < U64_LIMIT
    ensures TakeVarint(Varint(n) + rest, 0) == Got(n, rest)
  {
    RoomIs64();
    VarintBackAt(n, 0, rest);
  }

  /** Whatever is read as a varint is the one form in which that number is written. */
  lemma VarintThere(bytes: seq<byte>)
    requires TakeVarint(bytes, 0).Got?
    ensures var r := TakeVarint(bytes, 0); r.value < U64_LIMIT && bytes == Varint(r.value) + r.rest
  {
    RoomIs64();
    VarintThereAt(bytes, 0);
  }

  // ----- texts -----

  function Octets(s: string): (b: seq<byte>)
    ensures |b| == |s|
  {
    seq(|s|, i requires 0 <= i < |s| => (s[i] as int % 256) as byte)
  }

  function Chars(b: seq<byte>): (s: string)
    ensures |s| == |b|
  {
    seq(|b|, i requires 0 <= i < |b| => b[i] as char)
  }

  lemma CharsOctets(s: string)
    requires IsByteText(s)
    ensures Chars(Octets(s)) == s
  {}

  lemma OctetsChars(b: seq<byte>)
    ensures Octets(Chars(b)) == b && IsByteText(Chars(b))
  {}

  function PutText(s: string): seq<byte> { Varint(|s|) + Octets(s) }

  /** A declared length or count above its limit is refused before anything is read for it. */
  function TakeCount(bytes: seq<byte>, max: nat): Read<nat>
  {
    match TakeVarint(bytes, 0)
    case Bad(code) => Bad(code)
    case Got(n, rest) => if n > max then Bad(CapacityExhaustedStatus) else Got(n, rest)
  }

  function TakeText(bytes: seq<byte>, max: nat): Read<string>
  {
    match TakeCount(bytes, max)
    case Bad(code) => Bad(code)
    case Got(n, rest) =>
      match TakeRaw(rest, n)
      case Bad(code) => Bad(code)
      case Got(raw, after) => Got(Chars(raw), after)
  }

  lemma TextBack(s: string, max: nat, rest: seq<byte>)
    requires IsByteText(s) && |s| <= max < U64_LIMIT
    ensures TakeText(PutText(s) + rest, max) == Got(s, rest)
  {
    assert PutText(s) + rest == Varint(|s|) + (Octets(s) + rest);
    VarintBack(|s|, Octets(s) + rest);
    assert (Octets(s) + rest)[..|s|] == Octets(s);
    CharsOctets(s);
  }

  lemma TextThere(bytes: seq<byte>, max: nat)
    requires TakeText(bytes, max).Got?
    ensures var r := TakeText(bytes, max);
            IsByteText(r.value) && |r.value| <= max && bytes == PutText(r.value) + r.rest
  {
    var c := TakeVarint(bytes, 0);
    VarintThere(bytes);
    OctetsChars(c.rest[..c.value]);
    assert c.rest == c.rest[..c.value] + c.rest[c.value..];
  }

  // ----- the objects -----

  lemma Distribute(s: nat, k: nat, x: nat, m: nat)
    ensures s * (x + k * m) == s * x + s * k * m
  {
    var y := k * m;
    assert s * (x + y) == s * x + s * y;
    assert s * y == s * k * m;
  }

  /** The loop of the fixed-width reads: each byte shifted to its place and merged in. */
  method FoldLittle(bytes: seq<byte>) returns (n: nat)
    ensures n == FromLittle(bytes)
  {
    n := 0;
    var scale: nat := 1;
    for i := 0 to |bytes|
      invariant n + scale * FromLittle(bytes[i..]) == FromLittle(bytes)
    {
      assert bytes[i..][1..] == bytes[i + 1..];
      Distribute(scale, 256, bytes[i] as nat, FromLittle(bytes[i + 1..]));
      n := n + scale * (bytes[i] as nat);
      scale := scale * 256;
    }
    assert bytes[|bytes|..] == [];
  }

  class ByteWriter {
    var sink: seq<byte>

    constructor ()
      ensures sink == []
    {
      sink := [];
    }

    method WriteU8(n: nat)
      requires n < 256
      modifies this
      ensures sink == old(sink) + [n as byte]
    {
      sink := sink + [n as byte];
    }

    /** `u8`, `u16`, `u32`, `u64`: least significant byte first. */
    method WriteInt(n: nat, width: nat)
      modifies this
      ensures sink == old(sink) + Little(n, width)
    {
      var value := n;
      for i := 0 to width
        invariant sink + Little(value, width - i) == old(sink) + Little(n, width)
      {
        WriteU8(value % 256);
        value := value / 256;
      }
    }

    method WriteVarint(n: nat)
      modifies this
      ensures sink == old(sink) + Varint(n)
    {
      var value := n;
      while value >= 0x80
        invariant sink + Varint(value) == old(sink) + Varint(n)
      {
        WriteU8(value % 128 + 128);
        value := value / 128;
      }
      WriteU8(value);
    }

    method WriteRaw(b: seq<byte>)
      modifies this
      ensures sink == old(sink) + b
    {
      sink := sink + b;
    }

    method WriteText(s: string)
      modifies this
      ensures sink == old(sink) + PutText(s)
    {
      WriteVarint(|s|);
      sink := sink + Octets(s);
    }
  }

  class ByteReader {
    const data: seq<byte>
    var offset: nat
    /** The first failure; once set, every later read fails without moving. */
    var failure: StatusCode

    predicate Valid()
      reads this
    {
      offset <= |data|
    }

    function Rest(): seq<byte>
      requires Valid()
      reads this
    {
      data[offset..]
    }

    constructor (bytes: seq<byte>)
      ensures Valid() && data == bytes && Rest() == bytes && failure == Ok
    {
      data, offset, failure := bytes, 0, Ok;
    }

    /** A read did what its specification says of the bytes that were left. */
    twostate predicate Did<T>(new r: Read<T>, ok: bool, new value: T)
      requires old(Valid())
      reads this
    {
      && Valid()
      && (if old(failure) != Ok then !ok && failure == old(failure) && offset == old(offset)
          else match r
            case Bad(code) => !ok && failure == code
            case Got(v, rest) => ok && failure == Ok && value == v && Rest() == rest)
    }

    /** The first failure is the one that is kept. */
    method Fail(code: StatusCode)
      requires Valid() && code != Ok
      modifies this
      ensures Valid() && offset == old(offset) && failure == if old(failure) == Ok then code else old(failure)
    {
      if failure == Ok { failure := code; }
    }

    method Ensure(length: nat) returns (ok: bool)
      requires Valid()
      modifies this
      ensures Valid() && offset == old(offset) && ok == (old(failure) == Ok && length <= |Rest()|)
      ensures failure == if old(failure) == Ok && !ok then Truncated else old(failure)
    {
      if failure != Ok { return false; }
      if length > |data| - offset {
        Fail(Truncated);
        return false;
      }
      return true;
    }

    method ReadRaw(length: nat) returns (ok: bool, b: seq<byte>)
      requires Valid()
      modifies this
      ensures Did(old(TakeRaw(Rest(), length)), ok, b)
    {
      b := [];
      ok := Ensure(length);
      if ok {
        b := data[offset..offset + length];
        assert data[offset..][..length] == b && data[offset..][length..] == data[offset + length..];
        offset := offset + length;
      }
    }

    /** `u8`, `u16`, `u32`, `u64`. */
    method ReadInt(width: nat) returns (ok: bool, n: nat)
      requires Valid()
      modifies this
      ensures Did(old(TakeInt(Rest(), width)), ok, n)
    {
      hide FromLittle;
      n := 0;
      ok := Ensure(width);
      if ok {
        assert data[offset..][..width] == data[offset..offset + width];
        assert data[offset..][width..] == data[offset + width..];
        n := FoldLittle(data[offset..offset + width]);
        offset := offset + width;
      }
    }

    method ReadU8() returns (ok: bool, n: nat)
      requires Valid()
      modifies this
      ensures Valid() && n < 256
      ensures if old(failure) != Ok then !ok && failure == old(failure) && offset == old(offset)
              else if old(Rest()) == [] then !ok && failure == Truncated
              else ok && failure == Ok && n == old(Rest())[0] as nat && Rest() == old(Rest())[1..]
    {
      n := 0;
      ok := Ensure(1);
      if ok {
        n := data[offset] as nat;
        offset := offset + 1;
      }
    }

    /** `varint`: `scale` is what a group counts for, 128 to the power of its number. */
    method ReadVarint() returns (ok: bool, n: nat)
      requires Valid()
      modifies this
      ensures Did(old(TakeVarint(Rest(), 0)), ok, n)
    {
      hide TakeVarint, Grown;
      n := 0;
      ok := false;
      if failure != Ok { return; }
      var scale: nat := 1;
      var i: nat := 0;
      GrownNone(TakeVarint(Rest(), 0));
      while i < GROUPS
        invariant i <= GROUPS && Valid() && failure == Ok && !ok
        invariant Grown(TakeVarint(Rest(), i), n, scale) == old(TakeVarint(Rest(), 0))
      {
        ghost var before := Rest();
        GroupFails(before, i, n, scale);
        var got, b := ReadU8();
        if !got { return; }
        if i == 9 && b % 128 > 1 {
          Fail(Corruption);
          return;
        }
        if b < 128 && i > 0 && b == 0 {
          Fail(Corruption);
          return;
        }
        GrowMore(before, i, n, scale);
        n := n + scale * (b % 128);
        if b < 128 {
          ok := true;
          return;
        }
        scale := scale * 128;
        i := i + 1;
      }
      TooManyGroups(Rest(), n, scale);
      Fail(Corruption);
    }

    /** `count`. */
    method ReadCount(max: nat) returns (ok: bool, n: nat)
      requires Valid()
      modifies this
      ensures Did(old(TakeCount(Rest(), max)), ok, n)
    {
      ok, n := ReadVarint();
      if ok && n > max {
        Fail(CapacityExhaustedStatus);
        ok := false;
      }
    }

    method ReadText(max: nat) returns (ok: bool, s: string)
      requires Valid()
      modifies this
      ensures Did(old(TakeText(Rest(), max)), ok, s)
    {
      s := [];
      var n: nat;
      ok, n := ReadCount(max);
      if !ok { return; }
      var raw: seq<byte>;
      ok, raw := ReadRaw(n);
      s := Chars(raw);
    }
  }

  /** A varint read from some group on, on top of what the groups before it said. */
  function Grown(r: Read<nat>, n: nat, scale: nat): Read<nat>
  {
    match r case Bad(code) => Bad(code) case Got(m, rest) => Got(n + scale * m, rest)
  }

  lemma GrownNone(r: Read<nat>)
    ensures Grown(r, 0, 1) == r
  {}

  /** The groups that end a varint as malformed. */
  lemma GroupFails(bytes: seq<byte>, i: nat, n: nat, scale: nat)
    requires i < GROUPS
    ensures bytes == [] ==> Grown(TakeVarint(bytes, i), n, scale) == Bad(Truncated)
    ensures bytes != [] && ((i == 9 && bytes[0] as nat % 128 > 1) || (i > 0 && bytes[0] == 0)) ==>
              Grown(TakeVarint(bytes, i), n, scale) == Bad(Corruption)
  {}

  lemma TooManyGroups(bytes: seq<byte>, n: nat, scale: nat)
    ensures Grown(TakeVarint(bytes, GROUPS), n, scale) == Bad(Corruption)
  {}

  lemma GrowMore(bytes: seq<byte>, i: nat, n: nat, scale: nat)
    requires i < GROUPS && bytes != []
    requires var b := bytes[0] as nat; !(i == 9 && b % 128 > 1) && !(i > 0 && b == 0)
    ensures var b := bytes[0] as nat;
            Grown(TakeVarint(bytes, i), n, scale)
            == if b < 128 then Got(n + scale * (b % 128), bytes[1..])
               else Grown(TakeVarint(bytes[1..], i + 1), n + scale * (b % 128), scale * 128)
  {
    var b := bytes[0] as nat;
    if b >= 128 {
      var r := TakeVarint(bytes[1..], i + 1);
      if r.Got? { Distribute(scale, 128, b % 128, r.value); }
    }
  }
}
