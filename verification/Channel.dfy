/** Reassembling frames from a stream that arrives in pieces of any size (`FrameChannel`, src/runtime.cpp). */
module Channel {
  import opened Model
  import opened Seal
  import opened Wire

  const INITIAL_BUFFER: nat := 8192

  // ----- what a stream says, however it is cut -----

  /** The first answer a receiver owes to a stream that delivers `s` and then ends. */
  function Verdict(s: seq<byte>): Result<Frame>
  {
    match FrameSize(s)
    case Success(size) => DecodeFrame(s[..size])
    case Failure(code) => Failure(if code == Truncated && s == [] then Closed else code)
  }

  /** What is left of the stream after that answer: a frame is consumed, anything else stays. */
  function Rest(s: seq<byte>): seq<byte>
  {
    if Verdict(s).Success? then s[FrameSize(s).value..] else s
  }

  /** All frames of a stream, and the verdict that ends it. */
  function Parse(s: seq<byte>): (seq<Frame>, StatusCode)
    decreases |s|
  {
    match Verdict(s)
    case Failure(code) => ([], code)
    case Success(f) => var tail := Parse(Rest(s)); ([f] + tail.0, tail.1)
  }

  function Encoded(frames: seq<Frame>): seq<byte>
  {
    if frames == [] then [] else Framed(frames[0], 0) + Encoded(frames[1..])
  }

  predicate AllSendable(frames: seq<Frame>) { forall f <- frames :: Sendable(f) }

  lemma FrontFrame(f: Frame, rest: seq<byte>)
    requires Sendable(f)
    ensures Verdict(Framed(f, 0) + rest) == Success(f) && Rest(Framed(f, 0) + rest) == rest
  {
    hide FrameSize, DecodeFrame, Framed;
    SizeOfSent(f, 0, rest);
    DecodeSent(f, 0);
    assert (Framed(f, 0) + rest)[..|Framed(f, 0)|] == Framed(f, 0);
  }

  /** Whole frames in front of anything come out first, in order, and do not affect what follows. */
  lemma {:induction false} ParseOn(frames: seq<Frame>, tail: seq<byte>)
    requires AllSendable(frames)
    ensures Parse(Encoded(frames) + tail).0 == frames + Parse(tail).0
    ensures Parse(Encoded(frames) + tail).1 == Parse(tail).1
  {
    hide Verdict, Rest, Framed;
    if frames == [] {
      assert Encoded(frames) + tail == tail;
    } else {
      var rest := Encoded(frames[1..]) + tail;
      assert Encoded(frames) + tail == Framed(frames[0], 0) + rest;
      FrontFrame(frames[0], rest);
      ParseOn(frames[1..], tail);
      assert [frames[0]] + (frames[1..] + Parse(tail).0) == frames + Parse(tail).0;
    }
  }

  lemma NothingLeft()
    ensures Parse([]) == ([], Closed)
  {}

  /** Frames sent and the connection closed: exactly those frames, then a clean close. */
  lemma ParseSent(frames: seq<Frame>)
    requires AllSendable(frames)
    ensures Parse(Encoded(frames)).0 == frames && Parse(Encoded(frames)).1 == Closed
  {
    hide Verdict, Rest, Framed, Encoded;
    ParseOn(frames, []);
    NothingLeft();
    assert Encoded(frames) + [] == Encoded(frames);
  }

  /** The connection closed inside a frame: the whole frames before it, then a truncation. */
  lemma ParseCut(frames: seq<Frame>, last: Frame, n: nat)
    requires AllSendable(frames) && Sendable(last) && 0 < n < |Framed(last, 0)|
    ensures var (got, end) := Parse(Encoded(frames) + Framed(last, 0)[..n]);
            got == frames && end == Truncated
  {
    hide Framed, FrameSize, Encoded, DecodeFrame;
    ParseOn(frames, Framed(last, 0)[..n]);
    SizeOfPart(last, 0, n);
    assert Framed(last, 0)[..n] != [];
  }

  /** One byte of a frame changed in transit: the frames before it, then an error; whatever comes later,
      the receiver never answers with a wrong frame. */
  lemma ParseDamaged(frames: seq<Frame>, bad: Frame, i: nat, b: byte, more: seq<byte>)
    requires AllSendable(frames) && Sendable(bad) && i < |Framed(bad, 0)| && Framed(bad, 0)[i] != b
    ensures var (got, end) := Parse(Encoded(frames) + (Framed(bad, 0)[i := b] + more));
            got == frames && end !in {Closed, Truncated, Timeout}
  {
    hide FrameSize, DecodeFrame, Framed, Encoded;
    var s := Framed(bad, 0)[i := b];
    ParseOn(frames, s + more);
    DamagedSize(bad, i, b);
    SizeIsFinal(s, more);
    if FrameSize(s).Success? {
      DamagedFrameRejected(bad, 0, i, b);
      DamagedVerdict(s);
      assert (s + more)[..|s|] == s;
    }
  }

  /** A changed byte is never mistaken for a frame that is still arriving, nor for another length. */
  lemma DamagedSize(f: Frame, i: nat, b: byte)
    requires Sendable(f) && i < |Framed(f, 0)| && Framed(f, 0)[i] != b
    ensures var r := FrameSize(Framed(f, 0)[i := b]);
            r in {Success(|Framed(f, 0)|), Failure(Corruption), Failure(IntegrityFailure)}
  {
    hide Numbers.Little, Numbers.FromLittle, Crc.Crc32c, FrameHead;
    var h, p := Sealed(FrameHead(f, 0)), Sealed(f.payload);
    var s := Framed(f, 0)[i := b];
    if i < FRAME_HEADER {
      SealedIntact(FrameHead(f, 0));
      OneByteBreaks(h, i, b);
      assert s[..28] == h[i := b][..28] && s[28..32] == h[i := b][28..];
    } else {
      var q := p[i - FRAME_HEADER := b];
      assert s == h + q;
      HeadRead(f, 0, q);
    }
  }

  lemma DamagedVerdict(s: seq<byte>)
    requires DecodeFrame(s).Failure? && FrameSize(s).Success?
    ensures DecodeFrame(s).code in {VersionMismatch, Corruption, IntegrityFailure}
  {
    hide Crc.Crc32c;
  }

  /** The verdict on a buffer that already holds enough to judge. */
  lemma Settled(s: seq<byte>)
    requires FrameSize(s) != Failure(Truncated)
    ensures match FrameSize(s)
            case Failure(code) => Verdict(s) == Failure(code) && Rest(s) == s
            case Success(n) =>
              FRAME_HEADER < n <= |s| && Verdict(s) == DecodeFrame(s[..n])
              && Rest(s) == if Verdict(s).Success? then s[n..] else s
  {
    hide DecodeFrame;
  }

  /** Errors found in what has arrived are final: more bytes do not change the verdict, nor a frame. */
  lemma VerdictIsFinal(s: seq<byte>, more: seq<byte>)
    requires FrameSize(s) != Failure(Truncated)
    ensures FrameSize(s + more) == FrameSize(s) && Verdict(s + more) == Verdict(s)
    ensures Rest(s + more) == Rest(s) + more
  {
    hide DecodeFrame;
    SizeIsFinal(s, more);
    if FrameSize(s).Success? {
      assert (s + more)[..FrameSize(s).value] == s[..FrameSize(s).value];
    }
  }

  // ----- the socket -----

  /** What the socket will do next: hand over some bytes, or let a read time out after a while. */
  datatype Arrival = Chunk(data: seq<byte>) | Quiet(nanos: nat)

  function BytesOf(coming: seq<Arrival>): seq<byte>
  {
    if coming == [] then []
    else (if coming[0].Chunk? then coming[0].data else []) + BytesOf(coming[1..])
  }

  lemma NoBytes()
    ensures BytesOf([]) == []
  {}

  lemma Silent(coming: seq<Arrival>)
    requires coming != [] && coming[0].Quiet?
    ensures BytesOf(coming[1..]) == BytesOf(coming)
  {}

  lemma TakenOff(coming: seq<Arrival>, n: nat)
    requires coming != [] && coming[0].Chunk? && n <= |coming[0].data|
    ensures var data := coming[0].data;
            var left := if n == |data| then coming[1..] else [Chunk(data[n..])] + coming[1..];
            data[..n] + BytesOf(left) == BytesOf(coming)
  {
    var data := coming[0].data;
    if n < |data| {
      var left := [Chunk(data[n..])] + coming[1..];
      assert left[1..] == coming[1..];
      assert data == data[..n] + data[n..];
    }
  }

  class TcpStream {
    var coming: seq<Arrival>
    var clock: nat

    constructor (coming: seq<Arrival>)
      requires forall a <- coming :: a.Chunk? ==> a.data != []
      ensures Valid() && this.coming == coming
    {
      this.coming, clock := coming, 0;
    }

    ghost predicate Valid()
      reads this
    {
      forall a <- coming :: a.Chunk? ==> a.data != []
    }

    /** Reads at most the free part of `a`; zero bytes mean the peer has closed. */
    method Receive(a: array<byte>, from: nat) returns (read: Result<nat>)
      requires Valid() && from < a.Length
      modifies this, a
      ensures Valid() && clock >= old(clock) && a[..from] == old(a[..from])
      ensures read.Success? ==>
        && from + read.value <= a.Length && clock == old(clock)
        && a[from..from + read.value] + BytesOf(coming) == BytesOf(old(coming)) && |coming| <= |old(coming)|
        && (read.value == 0 <==> old(coming) == [])
      ensures read.Failure? ==>
        read.code == Timeout && BytesOf(coming) == BytesOf(old(coming)) && |coming| < |old(coming)|
    {
      hide BytesOf;
      NoBytes();
      if coming == [] { return Success(0); }
      match coming[0] {
        case Quiet(nanos) =>
          Silent(coming);
          coming, clock := coming[1..], clock + nanos;
          return Failure(Timeout);
        case Chunk(data) =>
          var room := a.Length - from;
          var n := if |data| < room then |data| else room;
          forall i | 0 <= i < n { a[from + i] := data[i]; }
          assert a[from..from + n] == data[..n];
          TakenOff(coming, n);
          coming := if n == |data| then coming[1..] else [Chunk(data[n..])] + coming[1..];
          return Success(n);
      }
    }
  }

  // ----- the channel -----

  class FrameChannel {
    const stream: TcpStream
    var buffer: array<byte>
    var used: nat

    constructor (stream: TcpStream)
      requires stream.Valid()
      ensures Valid() && this.stream == stream && Whole() == BytesOf(stream.coming) && fresh(buffer)
    {
      this.stream, buffer, used := stream, new byte[0], 0;
    }

    ghost predicate Valid()
      reads this, stream
    {
      used <= buffer.Length <= MAX_FRAME && stream.Valid()
    }

    /** Everything this channel will ever see: what is buffered and what is still to arrive. */
    ghost function Whole(): seq<byte>
      requires used <= buffer.Length
      reads this, stream, buffer
    {
      buffer[..used] + BytesOf(stream.coming)
    }

    /** Doubles the buffer, from 8 KiB up to the largest frame. */
    method Grow()
      requires Valid() && used == buffer.Length < MAX_FRAME
      modifies this`buffer
      ensures Valid() && used < buffer.Length && buffer[..used] == old(buffer[..used]) && fresh(buffer)
    {
      var grown := if buffer.Length == 0 then INITIAL_BUFFER else buffer.Length * 2;
      var bigger := new byte[if grown > MAX_FRAME then MAX_FRAME else grown];
      forall i | 0 <= i < used { bigger[i] := buffer[i]; }
      buffer := bigger;
    }

    /** Takes the first `size` bytes out, moving the rest down. */
    method Consume(size: nat)
      requires Valid() && size <= used
      modifies this`used, buffer
      ensures Valid() && buffer[..used] == old(buffer[..used])[size..]
    {
      var remaining := used - size;
      forall i | 0 <= i < remaining { buffer[i] := buffer[i + size]; }
      used := remaining;
    }

    /** Looks for a frame, or an error, in what has arrived so far. */
    method Take() returns (settled: bool, r: Result<Frame>)
      requires Valid()
      modifies this`used, buffer
      ensures Valid()
      ensures settled <==> FrameSize(old(buffer[..used])) != Failure(Truncated)
      ensures settled ==> r == Verdict(old(Whole())) != Failure(Timeout) && Whole() == Rest(old(Whole()))
      ensures !settled ==> used == old(used) && buffer[..used] == old(buffer[..used])
    {
      hide FrameSize, DecodeFrame, BytesOf, Verdict, Rest;
      ghost var had := buffer[..used];
      var sized := FrameSize(buffer[..used]);
      if sized == Failure(Truncated) { return false, Failure(Truncated); }
      VerdictIsFinal(had, BytesOf(stream.coming));
      Settled(had);
      NeverWaits(had);
      if sized.Failure? { return true, Failure(sized.code); }
      r := DecodeFrame(buffer[..sized.value]);
      assert had[..sized.value] == buffer[..sized.value];
      NeverWaits(had[..sized.value]);
      if r.Success? { Consume(sized.value); }
      return true, r;
    }

    /** Reads once from the stream, making room first. The buffer's bound is never what stops it. */
    method Fill() returns (read: Result<nat>)
      requires Valid() && FrameSize(buffer[..used]) == Failure(Truncated)
      modifies this, stream, buffer
      ensures Valid() && (buffer == old(buffer) || fresh(buffer)) && stream.clock >= old(stream.clock)
      ensures Whole() == old(Whole()) && |stream.coming| <= |old(stream.coming)|
      ensures read.Failure? ==>
        |BytesOf(stream.coming)| == |BytesOf(old(stream.coming))| && |stream.coming| < |old(stream.coming)|
      ensures read.Success? && read.value > 0 ==>
        |BytesOf(stream.coming)| < |BytesOf(old(stream.coming))| && stream.clock == old(stream.clock)
      ensures read == Success(0) ==> stream.coming == [] && buffer[..used] == old(buffer[..used])
    {
      hide FrameSize, BytesOf;
      ghost var had := buffer[..used];
      UnfinishedIsSmall(had);
      if used == buffer.Length {
        if buffer.Length >= MAX_FRAME {
          assert false;
        }
        Grow();
      }
      read := stream.Receive(buffer, used);
      assert buffer[..used] == had;
      if read.Success? {
        assert buffer[..used + read.value] == had + buffer[used..used + read.value];
        used := used + read.value;
      }
    }

    /** The next frame, however the bytes arrive. A timeout loses nothing. */
    method Receive(timeoutMillis: nat) returns (r: Result<Frame>)
      requires Valid()
      modifies this, stream, buffer
      ensures Valid() && (buffer == old(buffer) || fresh(buffer))
      ensures r == Failure(Timeout) ==>
        && Whole() == old(Whole()) && |stream.coming| < |old(stream.coming)|
        && timeoutMillis > 0 && stream.clock - old(stream.clock) >= timeoutMillis * 1_000_000
      ensures r != Failure(Timeout) ==> r == Verdict(old(Whole())) && Whole() == Rest(old(Whole()))
      ensures |stream.coming| <= |old(stream.coming)|
    {
      hide FrameSize, DecodeFrame, BytesOf, Verdict, Rest;
      var started := stream.clock;
      while true
        invariant Valid() && (buffer == old(buffer) || fresh(buffer))
        invariant Whole() == old(Whole()) && |stream.coming| <= |old(stream.coming)|
        invariant started == old(stream.clock) <= stream.clock
        decreases |BytesOf(stream.coming)|, |stream.coming|
      {
        var settled;
        settled, r := Take();
        if settled { return; }
        ghost var had := buffer[..used];
        var read := Fill();
        if read.Failure? {
          if timeoutMillis != 0 && stream.clock - started >= timeoutMillis * 1_000_000 {
            return Failure(Timeout);
          }
        } else if read.value == 0 {
          NoBytes();
          assert had + [] == had;
          Ended(had);
          return Failure(if used == 0 then Closed else Truncated);
        }
      }
    }

    /** Receiving until something other than a timeout goes wrong, as a connection's worker does: the
        frames and the ending depend on the bytes alone, not on how they were cut or delayed. */
    method ReceiveAll(timeoutMillis: nat) returns (frames: seq<Frame>, end: StatusCode)
      requires Valid()
      modifies this, stream, buffer
      ensures frames == Parse(old(Whole())).0 && end == Parse(old(Whole())).1
    {
      hide Verdict, Rest, BytesOf;
      frames := [];
      ghost var whole := Whole();
      while true
        invariant Valid() && (buffer == old(buffer) || fresh(buffer))
        invariant Parse(whole).0 == frames + Parse(Whole()).0 && Parse(whole).1 == Parse(Whole()).1
        decreases |Whole()|, |stream.coming|
      {
        ghost var before := Whole();
        var r := Receive(timeoutMillis);
        match r {
          case Success(f) =>
            RestIsShorter(before);
            assert frames + ([f] + Parse(Whole()).0) == frames + [f] + Parse(Whole()).0;
            frames := frames + [f];
          case Failure(code) =>
            if code != Timeout { return frames, code; }
        }
      }
    }
  }

  lemma SizeFits(s: seq<byte>)
    requires FrameSize(s).Success?
    ensures FRAME_HEADER < FrameSize(s).value <= |s|
  {}

  lemma RestIsShorter(s: seq<byte>)
    requires Verdict(s).Success?
    ensures |Rest(s)| < |s|
  {
    SizeFits(s);
  }

  lemma NeverWaits(s: seq<byte>)
    ensures DecodeFrame(s) != Failure(Timeout) && FrameSize(s) != Failure(Timeout)
  {
    hide Crc.Crc32c;
  }

  lemma Ended(s: seq<byte>)
    requires FrameSize(s) == Failure(Truncated)
    ensures Verdict(s) == Failure(if s == [] then Closed else Truncated) && Rest(s) == s
  {}

  /** A sender's frames, cut and delayed in any way at all, arrive as they were sent. */
  method Deliver(frames: seq<Frame>, coming: seq<Arrival>, timeoutMillis: nat)
    returns (got: seq<Frame>, end: StatusCode)
    requires AllSendable(frames) && BytesOf(coming) == Encoded(frames)
    requires forall a <- coming :: a.Chunk? ==> a.data != []
    ensures got == frames && end == Closed
  {
    ParseSent(frames);
    var stream := new TcpStream(coming);
    var channel := new FrameChannel(stream);
    got, end := channel.ReceiveAll(timeoutMillis);
  }
}
