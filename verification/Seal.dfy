/** A byte string followed by its checksum, as records, file headers and frames all end. */
module Seal {
  import opened Model
  import opened Numbers
  import opened Crc

  function Sealed(data: seq<byte>): seq<byte> { data + Little(Crc32c(data), 4) }

  predicate Intact(s: seq<byte>)
  {
    |s| >= 4 && FromLittle(s[|s| - 4..]) == Crc32c(s[..|s| - 4])
  }

  lemma CrcBack(data: seq<byte>)
    ensures FromLittle(Little(Crc32c(data), 4)) == Crc32c(data)
  {
    hide Crc32c;
    CrcBound(data);
    BaseValues();
    LittleBack(Crc32c(data), 4);
  }

  lemma SealedIntact(data: seq<byte>)
    ensures Intact(Sealed(data))
  {
    hide Crc32c, Little;
    CrcBack(data);
    var s := Sealed(data);
    assert s[..|s| - 4] == data && s[|s| - 4..] == Little(Crc32c(data), 4);
  }

  /** What is intact is sealed: there is no other way to pass. */
  lemma IntactIsSealed(s: seq<byte>)
    requires Intact(s)
    ensures s == Sealed(s[..|s| - 4])
  {
    hide Crc32c;
    LittleThere(s[|s| - 4..]);
    assert s == s[..|s| - 4] + s[|s| - 4..];
  }

  /** Any single byte changed, in the data or in the checksum, breaks the seal. */
  lemma OneByteBreaks(s: seq<byte>, i: nat, b: byte)
    requires Intact(s) && i < |s| && s[i] != b
    ensures !Intact(s[i := b])
  {
    hide Crc32c, Little;
    var n := |s| - 4;
    var bad := s[i := b];
    IntactIsSealed(s);
    if i < n {
      assert bad[..n] == s[..n][i := b] && bad[n..] == s[n..];
      OneByteDetected(s[..n], i, b);
    } else {
      assert bad[..n] == s[..n];
      if Intact(bad) { IntactIsSealed(bad); }
    }
  }
}
