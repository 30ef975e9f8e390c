/** Frames on the wire (src/wire.cpp). */
module Wire {
  import opened Model
  import opened Numbers
  import opened Crc
  import opened Seal

  const FRAME_HEADER: nat := 32
  const FRAME_MAGIC: nat := 0x57464943
  const MAX_FRAME: nat := 0x10_0000
  const MAX_PAYLOAD: nat := MAX_FRAME - 64
  const LAST_TYPE: nat := 16

  datatype Frame = Frame(kind: nat, flags: nat, sequence: nat, payload: seq<byte>)

  /** What a frame can say: its fields within their widths, a known type, a payload within bounds. */
  predicate Sendable(f: Frame)
  {
    f.kind <= LAST_TYPE && f.flags < U32_LIMIT && f.sequence < U64_LIMIT && |f.payload| <= MAX_PAYLOAD
  }

  function FrameHead(f: Frame, reserved: nat): (h: seq<byte>)
    ensures |h| == 28
  {
    Little(FRAME_MAGIC, 4) + Little(1, 2) + Little(f.kind, 2) + Little(f.flags, 4) + Little(f.sequence, 8)
    + Little(|f.payload|, 4) + Little(reserved, 4)
  }

  function Framed(f: Frame, reserved: nat): (s: seq<byte>)
    ensures |s| == FRAME_HEADER + |f.payload| + 4
  {
    Sealed(FrameHead(f, reserved)) + Sealed(f.payload)
  }

  /** `encode_frame`. */
  function EncodeFrame(f: Frame): Result<seq<byte>>
  {
    if |f.payload| > MAX_PAYLOAD then Failure(LimitExceeded) else Success(Framed(f, 0))
  }

  function At(s: seq<byte>, from: nat, width: nat): nat
    requires from + width <= |s|
  {
    FromLittle(s[from..from + width])
  }

  /** `frame_size`: how long the frame at the front of the buffer is. */
  function FrameSize(s: seq<byte>): Result<nat>
  {
    if |s| < FRAME_HEADER then Failure(Truncated)
    else if At(s, 0, 4) != FRAME_MAGIC then Failure(Corruption)
    else if At(s, 28, 4) != Crc32c(s[..28]) then Failure(IntegrityFailure)
    else if At(s, 20, 4) > MAX_PAYLOAD then Failure(LimitExceeded)
    else
      var total := FRAME_HEADER + At(s, 20, 4) + 4;
      if |s| < total then Failure(Truncated) else Success(total)
  }

  /** `decode_frame`. */
  function DecodeFrame(s: seq<byte>): Result<Frame>
  {
    match FrameSize(s)
    case Failure(code) => Failure(code)
    case Success(total) =>
      if At(s, 4, 2) != 1 then Failure(VersionMismatch)
      else if At(s, 6, 2) > LAST_TYPE then Failure(Corruption)
      else
        var payload := s[FRAME_HEADER..total - 4];
        if At(s, total - 4, 4) != Crc32c(payload) then Failure(IntegrityFailure)
        else if |s| != total then Failure(Corruption)
        else Success(Frame(At(s, 6, 2), At(s, 8, 4), At(s, 12, 8), payload))
  }

  // ----- reading what was sent -----

  lemma HeadFields(f: Frame, reserved: nat)
    requires Sendable(f)
    ensures var h := FrameHead(f, reserved);
            At(h, 0, 4) == FRAME_MAGIC && At(h, 4, 2) == 1 && At(h, 6, 2) == f.kind && At(h, 8, 4) == f.flags
            && At(h, 12, 8) == f.sequence && At(h, 20, 4) == |f.payload|
  {
    hide Little, FromLittle, Base;
    var h := FrameHead(f, reserved);
    BaseValues();
    LittleBack(FRAME_MAGIC, 4);
    LittleBack(1, 2);
    LittleBack(f.kind, 2);
    LittleBack(f.flags, 4);
    LittleBack(f.sequence, 8);
    LittleBack(|f.payload|, 4);
    assert h[0..4] == Little(FRAME_MAGIC, 4) && h[4..6] == Little(1, 2) && h[6..8] == Little(f.kind, 2);
    assert h[8..12] == Little(f.flags, 4) && h[12..20] == Little(f.sequence, 8);
    assert h[20..24] == Little(|f.payload|, 4);
  }

  lemma AtWithin(a: seq<byte>, b: seq<byte>, from: nat, width: nat)
    requires from + width <= |a|
    ensures At(a + b, from, width) == At(a, from, width)
  {
    assert (a + b)[from..from + width] == a[from..from + width];
  }

  /** A sent header, read from a longer string. */
  lemma HeadRead(f: Frame, reserved: nat, rest: seq<byte>)
    requires Sendable(f)
    ensures var s := Sealed(FrameHead(f, reserved)) + rest;
            && |s| >= FRAME_HEADER && At(s, 0, 4) == FRAME_MAGIC && At(s, 28, 4) == Crc32c(s[..28])
            && At(s, 4, 2) == 1 && At(s, 6, 2) == f.kind && At(s, 8, 4) == f.flags
            && At(s, 12, 8) == f.sequence && At(s, 20, 4) == |f.payload|
  {
    hide Little, FromLittle, Crc32c, FrameHead;
    var h := FrameHead(f, reserved);
    var tail := Little(Crc32c(h), 4) + rest;
    var s := Sealed(h) + rest;
    assert s == h + tail;
    HeadFields(f, reserved);
    AtWithin(h, tail, 0, 4);
    AtWithin(h, tail, 4, 2);
    AtWithin(h, tail, 6, 2);
    AtWithin(h, tail, 8, 4);
    AtWithin(h, tail, 12, 8);
    AtWithin(h, tail, 20, 4);
    CrcBack(h);
    assert s[28..32] == Little(Crc32c(h), 4) && s[..28] == h;
  }

  /** A sent frame at the front of a buffer is measured right, and not before it is all there. */
  lemma SizeOfSent(f: Frame, reserved: nat, rest: seq<byte>)
    requires Sendable(f)
    ensures FrameSize(Framed(f, reserved) + rest) == Success(|Framed(f, reserved)|)
  {
    hide Little, FromLittle, Crc32c, FrameHead, Sealed;
    assert Framed(f, reserved) + rest == Sealed(FrameHead(f, reserved)) + (Sealed(f.payload) + rest);
    HeadRead(f, reserved, Sealed(f.payload) + rest);
  }

  lemma SizeOfPart(f: Frame, reserved: nat, n: nat)
    requires Sendable(f) && n < |Framed(f, reserved)|
    ensures FrameSize(Framed(f, reserved)[..n]) == Failure(Truncated)
  {
    hide Little, FromLittle, Crc32c, FrameHead;
    var s := Framed(f, reserved)[..n];
    if n >= FRAME_HEADER {
      assert s == Sealed(FrameHead(f, reserved)) + s[FRAME_HEADER..];
      HeadRead(f, reserved, s[FRAME_HEADER..]);
    }
  }

  /** A sent frame is received as it was. The reserved field makes no difference: it is covered by the
      header's checksum, but whatever it says is accepted. */
  lemma DecodeSent(f: Frame, reserved: nat)
    requires Sendable(f)
    ensures DecodeFrame(Framed(f, reserved)) == Success(f)
  {
    hide Little, FromLittle, Crc32c, FrameHead;
    var s := Framed(f, reserved);
    assert s + [] == s;
    SizeOfSent(f, reserved, []);
    HeadRead(f, reserved, Sealed(f.payload));
    CrcBack(f.payload);
    assert s[FRAME_HEADER..|s| - 4] == f.payload && s[|s| - 4..|s|] == Little(Crc32c(f.payload), 4);
  }

  /** Any single byte of a frame changed, anywhere: it is rejected. */
  lemma DamagedFrameRejected(f: Frame, reserved: nat, i: nat, b: byte)
    requires Sendable(f) && i < |Framed(f, reserved)| && Framed(f, reserved)[i] != b
    ensures DecodeFrame(Framed(f, reserved)[i := b]).Failure?
  {
    hide Little, FromLittle, Crc32c, FrameHead, DecodeFrame;
    var h, p := Sealed(FrameHead(f, reserved)), Sealed(f.payload);
    if i < FRAME_HEADER {
      assert Framed(f, reserved)[i := b] == h[i := b] + p;
      DamagedHead(f, reserved, i, b, p);
    } else {
      assert Framed(f, reserved)[i := b] == h + p[i - FRAME_HEADER := b];
      DamagedPayload(f, reserved, i - FRAME_HEADER, b);
    }
  }

  lemma DamagedHead(f: Frame, reserved: nat, i: nat, b: byte, rest: seq<byte>)
    requires i < FRAME_HEADER && Sealed(FrameHead(f, reserved))[i] != b
    ensures DecodeFrame(Sealed(FrameHead(f, reserved))[i := b] + rest).Failure?
  {
    hide Little, FromLittle, Crc32c, FrameHead;
    var h := Sealed(FrameHead(f, reserved))[i := b];
    SealedIntact(FrameHead(f, reserved));
    OneByteBreaks(Sealed(FrameHead(f, reserved)), i, b);
    assert (h + rest)[..28] == h[..28] && (h + rest)[28..32] == h[28..];
  }

  lemma DamagedPayload(f: Frame, reserved: nat, i: nat, b: byte)
    requires Sendable(f) && i < |Sealed(f.payload)| && Sealed(f.payload)[i] != b
    ensures DecodeFrame(Sealed(FrameHead(f, reserved)) + Sealed(f.payload)[i := b]).Failure?
  {
    hide Little, FromLittle, Crc32c, FrameHead;
    var h, q := Sealed(FrameHead(f, reserved)), Sealed(f.payload)[i := b];
    SealedIntact(f.payload);
    OneByteBreaks(Sealed(f.payload), i, b);
    HeadRead(f, reserved, q);
    assert (h + q)[FRAME_HEADER..|h + q| - 4] == q[..|q| - 4] && (h + q)[|h + q| - 4..|h + q|] == q[|q| - 4..];
  }

  /** What decodes is a sent frame, reserved field and all: sending the result again gives the same
      bytes exactly when that field was zero. */
  lemma DecodedIsSent(s: seq<byte>)
    requires DecodeFrame(s).Success?
    ensures Sendable(DecodeFrame(s).value) && |s| >= FRAME_HEADER && s == Framed(DecodeFrame(s).value, At(s, 24, 4))
    ensures EncodeFrame(DecodeFrame(s).value) == Success(s) <==> At(s, 24, 4) == 0
  {
    hide Little, FromLittle, Crc32c, FrameHead, Base;
    var f := DecodeFrame(s).value;
    var n := |f.payload|;
    HeadOf(s, f);
    LittleThere(s[28..32]);
    LittleThere(s[FRAME_HEADER + n..]);
    assert s[FRAME_HEADER + n..FRAME_HEADER + n + 4] == s[FRAME_HEADER + n..];
    assert s == s[..28] + s[28..32] + (s[32..32 + n] + s[32 + n..]);
    if EncodeFrame(f) == Success(s) {
      HeadTells(f, 0, At(s, 24, 4));
    }
  }

  lemma HeadTells(f: Frame, a: nat, b: nat)
    requires Framed(f, a) == Framed(f, b) && a < U32_LIMIT && b < U32_LIMIT
    ensures a == b
  {
    hide Crc32c;
    assert Framed(f, a)[24..28] == Little(a, 4) && Framed(f, b)[24..28] == Little(b, 4);
    BaseValues();
    LittleBack(a, 4);
    LittleBack(b, 4);
  }

  lemma AtBound(s: seq<byte>, from: nat, width: nat)
    requires from + width <= |s|
    ensures At(s, from, width) < Base(width) && Little(At(s, from, width), width) == s[from..from + width]
  {
    FromLittleBound(s[from..from + width]);
    LittleThere(s[from..from + width]);
  }

  lemma HeadOf(s: seq<byte>, f: Frame)
    requires |s| >= FRAME_HEADER && At(s, 0, 4) == FRAME_MAGIC && At(s, 4, 2) == 1 && At(s, 6, 2) == f.kind
    requires At(s, 8, 4) == f.flags && At(s, 12, 8) == f.sequence && At(s, 20, 4) == |f.payload|
    ensures s[..28] == FrameHead(f, At(s, 24, 4))
    ensures f.flags < U32_LIMIT && f.sequence < U64_LIMIT && At(s, 24, 4) < U32_LIMIT
  {
    hide Little, FromLittle, Base;
    AtBound(s, 0, 4);
    AtBound(s, 4, 2);
    AtBound(s, 6, 2);
    AtBound(s, 8, 4);
    AtBound(s, 12, 8);
    AtBound(s, 20, 4);
    AtBound(s, 24, 4);
    BaseValues();
    assert s[..6] == s[0..4] + s[4..6];
    assert s[..8] == s[..6] + s[6..8];
    assert s[..12] == s[..8] + s[8..12];
    assert s[..20] == s[..12] + s[12..20];
    assert s[..24] == s[..20] + s[20..24];
    assert s[..28] == s[..24] + s[24..28];
  }

  // ----- sizes of growing buffers -----

  /** A verdict other than "not all there yet" does not change as more arrives. */
  lemma SizeIsFinal(s: seq<byte>, more: seq<byte>)
    requires FrameSize(s) != Failure(Truncated)
    ensures FrameSize(s + more) == FrameSize(s)
  {
    hide FromLittle, Crc32c;
    AtWithin(s, more, 0, 4);
    AtWithin(s, more, 28, 4);
    AtWithin(s, more, 20, 4);
    assert (s + more)[..28] == s[..28];
  }

  /** An unfinished frame is shorter than the largest frame, which is below the buffer's bound: the
      bound is never what stops a receiver. */
  lemma UnfinishedIsSmall(s: seq<byte>)
    requires FrameSize(s) == Failure(Truncated)
    ensures |s| < FRAME_HEADER + MAX_PAYLOAD + 4 < MAX_FRAME
  {}
}
