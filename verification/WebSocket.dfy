/**
 The WebSocket frame codec (sections 5.2 and 5.3 of RFC 6455). Bytes are the
 integers 0 to 255, and exclusive or is defined on their binary digits.
 */
module WebSocket {
  import opened Options
  import opened Binary

  const OP_CLOSE := 8
  const OPCODES := {0, 1, 2, 8, 9, 10}
  const TWO_64 := 0x1_0000_0000_0000_0000

  // ------------------------------------------------------------ masks

  type Mask = m: seq<Byte> | |m| == 4 witness [0, 0, 0, 0]

  function Masked(mask: Mask, payload: seq<Byte>): (r: seq<Byte>)
    ensures |r| == |payload|
  {
    seq(|payload|, i requires 0 <= i < |payload| => XorByte(payload[i], mask[i % 4]))
  }

  /** Masking twice gives the payload back. */
  lemma MaskedTwice(mask: Mask, payload: seq<Byte>)
    ensures Masked(mask, Masked(mask, payload)) == payload
  {
    forall i | 0 <= i < |payload|
      ensures Masked(mask, Masked(mask, payload))[i] == payload[i]
    {
      XorByteTwice(payload[i], mask[i % 4]);
    }
  }

  // ------------------------------------------------------------ encode

  function LengthBytes(n: nat, maskBit: int): seq<Byte>
    requires n < TWO_64 && (maskBit == 0 || maskBit == 128)
  {
    if n < 126 then [maskBit + n]
    else if n < 0x1_0000 then [maskBit + 126] + BigEndian(n, 2)
    else [maskBit + 127] + BigEndian(n, 8)
  }

  function Body(payload: seq<Byte>, mask: Option<Mask>): seq<Byte> {
    match mask
    case None => payload
    case Some(m) => m + Masked(m, payload)
  }

  /** None: the opcode is not supported or the length does not fit. mask: the
      random mask of a masked frame. */
  function Encode(payload: seq<Byte>, opcode: int, mask: Option<Mask>): Option<seq<Byte>> {
    if opcode !in OPCODES || |payload| >= TWO_64 then None
    else Some([128 + opcode] + LengthBytes(|payload|, if mask.Some? then 128 else 0) + Body(payload, mask))
  }

  /** encode_frame: the header grows byte by byte. */
  method EncodeFrame(payload: seq<Byte>, opcode: int, mask: Option<Mask>) returns (r: Option<seq<Byte>>)
    ensures r == Encode(payload, opcode, mask)
  {
    if opcode !in OPCODES {
      return None;
    }
    var header: seq<Byte> := [128 + opcode];
    var maskBit := if mask.Some? then 128 else 0;
    var n := |payload|;
    if n < 126 {
      header := header + [maskBit + n];
    } else if n < 0x1_0000 {
      header := header + [maskBit + 126];
      header := header + BigEndian(n, 2);
    } else {
      if n >= TWO_64 {
        return None;
      }
      header := header + [maskBit + 127];
      header := header + BigEndian(n, 8);
    }
    assert header == [128 + opcode] + LengthBytes(n, maskBit);
    if mask.Some? {
      header := header + mask.value;
      assert header + Masked(mask.value, payload) == [128 + opcode] + LengthBytes(n, maskBit) + Body(payload, mask);
      return Some(header + Masked(mask.value, payload));
    }
    r := Some(header + payload);
  }

  // ------------------------------------------------------------ decode

  datatype Frame = Frame(opcode: int, payload: seq<Byte>)

  /** The first frame of a buffer and the bytes it takes, or not all there yet. */
  datatype First = Incomplete | Complete(frame: Frame, size: nat)

  /** The bytes that give the length, and the length; None when they are not all there. */
  function LengthField(buf: seq<Byte>): (r: Option<(nat, nat)>)
    requires |buf| >= 2
    ensures r.Some? ==> 2 <= r.value.0 <= |buf|
  {
    var short := buf[1] % 128;
    if short == 126 then
      if |buf| < 4 then None else Some((4, Number(buf[2..4])))
    else if short == 127 then
      if |buf| < 10 then None else Some((10, Number(buf[2..10])))
    else Some((2, short))
  }

  function FirstFrame(buf: seq<Byte>): (r: First)
    ensures r.Complete? ==> 2 <= r.size <= |buf|
  {
    if |buf| < 2 then Incomplete
    else
      var opcode, masked := buf[0] % 16, buf[1] >= 128;
      match LengthField(buf)
      case None => Incomplete
      case Some((offset, length)) =>
        if masked then
          if |buf| < offset + 4 + length then Incomplete
          else Complete(Frame(opcode, Masked(buf[offset..offset + 4], buf[offset + 4..offset + 4 + length])), offset + 4 + length)
        else
          if |buf| < offset + length then Incomplete
          else Complete(Frame(opcode, buf[offset..offset + length]), offset + length)
  }

  datatype Decoded = Decoded(frames: seq<Frame>, rest: seq<Byte>)

  /** All complete frames of a buffer, up to and with the first close frame. */
  function Decode(buf: seq<Byte>): Decoded
    decreases |buf|
  {
    match FirstFrame(buf)
    case Incomplete => Decoded([], buf)
    case Complete(f, size) =>
      if f.opcode == OP_CLOSE then Decoded([f], buf[size..])
      else
        var d := Decode(buf[size..]);
        Decoded([f] + d.frames, d.rest)
  }

  class ByteBuffer {
    var bytes: seq<Byte>

    constructor (b: seq<Byte>)
      ensures bytes == b
    {
      bytes := b;
    }

    /** decode_frames up to one frame: the offsets move forward field by field. */
    method NextFrame() returns (r: First)
      ensures r == FirstFrame(bytes)
    {
      if |bytes| < 2 {
        return Incomplete;
      }
      var opcode, masked, length, offset := bytes[0] % 16, bytes[1] >= 128, bytes[1] % 128, 2;
      if length == 126 {
        if |bytes| < 4 {
          return Incomplete;
        }
        length, offset := Number(bytes[2..4]), 4;
      } else if length == 127 {
        if |bytes| < 10 {
          return Incomplete;
        }
        length, offset := Number(bytes[2..10]), 10;
      }
      var mask: Mask := [0, 0, 0, 0];
      if masked {
        if |bytes| < offset + 4 {
          return Incomplete;
        }
        mask, offset := bytes[offset..offset + 4], offset + 4;
      }
      if |bytes| < offset + length {
        return Incomplete;
      }
      var payload := bytes[offset..offset + length];
      if masked {
        payload := Masked(mask, payload);
      }
      r := Complete(Frame(opcode, payload), offset + length);
    }

    /** decode_frames: the complete frames leave the buffer. */
    method DecodeFrames() returns (frames: seq<Frame>)
      modifies this
      ensures Decoded(frames, bytes) == Decode(old(bytes))
    {
      frames := [];
      ghost var goal := Decode(bytes);
      GoOnFrom(goal);
      while true
        invariant goal == GoOn(frames, Decode(bytes))
        decreases |bytes|
      {
        var first := NextFrame();
        GoOnStep(frames, bytes);
        if first.Incomplete? {
          return;
        }
        bytes, frames := bytes[first.size..], frames + [first.frame];
        if first.frame.opcode == OP_CLOSE {
          return;
        }
      }
    }
  }

  /** Frames decoded before d. */
  function GoOn(frames: seq<Frame>, d: Decoded): Decoded {
    Decoded(frames + d.frames, d.rest)
  }

  lemma GoOnFrom(d: Decoded)
    ensures GoOn([], d) == d
  {
  }

  lemma GoOnStep(frames: seq<Frame>, buf: seq<Byte>)
    ensures FirstFrame(buf).Incomplete? ==> GoOn(frames, Decode(buf)) == Decoded(frames, buf)
    ensures FirstFrame(buf).Complete? ==>
      var f, rest := FirstFrame(buf).frame, buf[FirstFrame(buf).size..];
      GoOn(frames, Decode(buf)) == if f.opcode == OP_CLOSE then Decoded(frames + [f], rest) else GoOn(frames + [f], Decode(rest))
  {
    match FirstFrame(buf)
    case Incomplete => assert frames + [] == frames;
    case Complete(f, size) =>
      var more := Decode(buf[size..]).frames;
      assert frames + ([f] + more) == frames + [f] + more;
  }

  // ------------------------------------------------------------ round trip

  lemma MiddleField(buf: seq<Byte>, n: nat)
    requires n < 0x1_0000 && |buf| >= 4 && buf[1] % 128 == 126 && buf[2..4] == BigEndian(n, 2)
    ensures LengthField(buf) == Some((4, n))
  {
    assert Power256(2) == 0x1_0000;
    BigEndianNumber(n, 2);
  }

  lemma LongField(buf: seq<Byte>, n: nat)
    requires n < TWO_64 && |buf| >= 10 && buf[1] % 128 == 127 && buf[2..10] == BigEndian(n, 8)
    ensures LengthField(buf) == Some((10, n))
  {
    BigNumber(n);
  }

  lemma BigNumber(n: nat)
    requires n < TWO_64
    ensures Number(BigEndian(n, 8)) == n
  {
    assert Power256(4) == 0x1_0000_0000;
    assert Power256(8) == 256 * (256 * (256 * (256 * Power256(4))));
    BigEndianNumber(n, 8);
  }

  /** The bytes after the first one of a frame, with what the fields are followed by. */
  lemma FieldBytes(head: Byte, first: Byte, more: seq<Byte>, tail: seq<Byte>)
    ensures var buf := [head] + ([first] + more) + tail;
      |buf| == 2 + |more| + |tail| && buf[0] == head && buf[1] == first && buf[2..2 + |more|] == more && buf[2 + |more|..] == tail
  {
  }

  lemma LengthOfEncoded(head: Byte, n: nat, maskBit: int, tail: seq<Byte>)
    requires n < TWO_64 && (maskBit == 0 || maskBit == 128)
    ensures var bits := LengthBytes(n, maskBit); var buf := [head] + bits + tail;
      && |buf| >= 2 && buf[0] == head && (buf[1] >= 128 <==> maskBit == 128)
      && LengthField(buf) == Some((1 + |bits|, n)) && buf[1 + |bits|..] == tail
  {
    var bits := LengthBytes(n, maskBit);
    var buf := [head] + bits + tail;
    FieldBytes(head, bits[0], bits[1..], tail);
    assert bits == [bits[0]] + bits[1..];
    if n >= 0x1_0000 {
      LongField(buf, n);
    } else if n >= 126 {
      MiddleField(buf, n);
    }
  }

  lemma PlainFrame(buf: seq<Byte>, offset: nat, payload: seq<Byte>, tail: seq<Byte>)
    requires |buf| >= 2 && buf[1] < 128 && LengthField(buf) == Some((offset, |payload|)) && buf[offset..] == payload + tail
    ensures FirstFrame(buf) == Complete(Frame(buf[0] % 16, payload), offset + |payload|)
  {
    assert buf[offset..offset + |payload|] == buf[offset..][..|payload|];
  }

  lemma MaskedFrame(buf: seq<Byte>, offset: nat, mask: Mask, payload: seq<Byte>, tail: seq<Byte>)
    requires |buf| >= 2 && buf[1] >= 128 && LengthField(buf) == Some((offset, |payload|))
    requires buf[offset..] == mask + Masked(mask, payload) + tail
    ensures FirstFrame(buf) == Complete(Frame(buf[0] % 16, payload), offset + 4 + |payload|)
  {
    var rest := buf[offset..];
    assert buf[offset..offset + 4] == rest[..4] && rest[..4] == mask;
    assert buf[offset + 4..offset + 4 + |payload|] == rest[4..4 + |payload|] && rest[4..4 + |payload|] == Masked(mask, payload);
    MaskedTwice(mask, payload);
  }

  /** A frame decodes to itself, whatever follows it, masked or not. */
  lemma RoundTrip(payload: seq<Byte>, opcode: int, mask: Option<Mask>, tail: seq<Byte>)
    requires opcode in OPCODES && |payload| < TWO_64
    ensures Encode(payload, opcode, mask).Some?
    ensures var w := Encode(payload, opcode, mask).value;
      FirstFrame(w + tail) == Complete(Frame(opcode, payload), |w|)
  {
    var bits := LengthBytes(|payload|, if mask.Some? then 128 else 0);
    var body := Body(payload, mask);
    var w := Encode(payload, opcode, mask).value;
    var buf := [128 + opcode] + bits + (body + tail);
    assert w + tail == buf;
    LengthOfEncoded(128 + opcode, |payload|, if mask.Some? then 128 else 0, body + tail);
    if mask.Some? {
      MaskedFrame(buf, 1 + |bits|, mask.value, payload, tail);
    } else {
      PlainFrame(buf, 1 + |bits|, payload, tail);
    }
  }

  /** What goes over the wire for a list of frames, each with its own mask. */
  function Wire(frames: seq<Frame>, masks: seq<Option<Mask>>): seq<Byte>
    requires |frames| == |masks| && AllSendable(frames)
  {
    if frames == [] then []
    else Encode(frames[0].payload, frames[0].opcode, masks[0]).value + Wire(frames[1..], masks[1..])
  }

  predicate AllSendable(frames: seq<Frame>) {
    forall i :: 0 <= i < |frames| ==> frames[i].opcode in OPCODES && |frames[i].payload| < TWO_64
  }

  /** Only the last frame may be a close frame. */
  predicate CloseIsLast(frames: seq<Frame>) {
    forall i :: 0 <= i < |frames| - 1 ==> frames[i].opcode != OP_CLOSE
  }

  /** A stream of frames decodes to those frames. */
  lemma {:induction false} StreamRoundTrip(frames: seq<Frame>, masks: seq<Option<Mask>>)
    requires |frames| == |masks| && AllSendable(frames) && CloseIsLast(frames)
    ensures Decode(Wire(frames, masks)) == Decoded(frames, [])
    decreases |frames|
  {
    if frames != [] {
      var f, rest := frames[0], Wire(frames[1..], masks[1..]);
      var w := Encode(f.payload, f.opcode, masks[0]).value;
      RoundTrip(f.payload, f.opcode, masks[0], rest);
      assert (w + rest)[|w|..] == rest;
      StreamRoundTrip(frames[1..], masks[1..]);
      assert [f] + frames[1..] == frames;
      if f.opcode == OP_CLOSE {
        assert frames == [f];
      }
    }
  }

  // ------------------------------------------------------------ chunks

  predicate Closed(frames: seq<Frame>) {
    frames != [] && frames[|frames| - 1].opcode == OP_CLOSE
  }

  lemma PrefixSlice(a: seq<Byte>, b: seq<Byte>, i: nat, j: nat)
    requires i <= j <= |a|
    ensures (a + b)[i..j] == a[i..j]
  {
  }

  lemma LengthStays(a: seq<Byte>, b: seq<Byte>)
    requires |a| >= 2 && LengthField(a).Some?
    ensures LengthField(a + b) == LengthField(a)
  {
    assert (a + b)[1] == a[1];
    if |a| >= 4 {
      PrefixSlice(a, b, 2, 4);
    }
    if |a| >= 10 {
      PrefixSlice(a, b, 2, 10);
    }
  }

  /** A complete frame stays the first frame when more bytes come. */
  lemma FirstStays(a: seq<Byte>, b: seq<Byte>)
    requires FirstFrame(a).Complete?
    ensures FirstFrame(a + b) == FirstFrame(a)
  {
    assert (a + b)[0] == a[0] && (a + b)[1] == a[1];
    LengthStays(a, b);
    var (offset, length) := LengthField(a).value;
    if a[1] >= 128 {
      PrefixSlice(a, b, offset, offset + 4);
      PrefixSlice(a, b, offset + 4, offset + 4 + length);
    } else {
      PrefixSlice(a, b, offset, offset + length);
    }
  }

  /** More bytes b for a stream that gave d so far; after a close frame they are only kept. */
  function Resumed(d: Decoded, b: seq<Byte>): Decoded {
    if Closed(d.frames) then Decoded(d.frames, d.rest + b)
    else Decoded(d.frames + Decode(d.rest + b).frames, Decode(d.rest + b).rest)
  }

  lemma ResumedAfter(f: Frame, d: Decoded, b: seq<Byte>)
    requires f.opcode != OP_CLOSE
    ensures Resumed(Decoded([f] + d.frames, d.rest), b) == Decoded([f] + Resumed(d, b).frames, Resumed(d, b).rest)
  {
    assert Closed([f] + d.frames) <==> Closed(d.frames);
    var more := Decode(d.rest + b).frames;
    assert [f] + (d.frames + more) == [f] + d.frames + more;
  }

  /** Decoding a buffer and then more bytes is decoding all of them at once. */
  lemma {:induction false} DecodeMore(a: seq<Byte>, b: seq<Byte>)
    ensures Decode(a + b) == Resumed(Decode(a), b)
    decreases |a|
  {
    match FirstFrame(a)
    case Incomplete =>
      assert [] + Decode(a + b).frames == Decode(a + b).frames;
    case Complete(f, size) =>
      FirstStays(a, b);
      assert (a + b)[size..] == a[size..] + b;
      if f.opcode != OP_CLOSE {
        DecodeMore(a[size..], b);
        ResumedAfter(f, Decode(a[size..]), b);
      }
  }

  /** A stream read chunk by chunk. */
  function FeedAll(chunks: seq<seq<Byte>>): Decoded {
    if chunks == [] then Decoded([], []) else Resumed(FeedAll(chunks[..|chunks| - 1]), chunks[|chunks| - 1])
  }

  function Join(chunks: seq<seq<Byte>>): seq<Byte> {
    if chunks == [] then [] else Join(chunks[..|chunks| - 1]) + chunks[|chunks| - 1]
  }

  /** However a stream is cut into chunks, it decodes as the whole does. */
  lemma {:induction false} ChunksAsWhole(chunks: seq<seq<Byte>>)
    ensures FeedAll(chunks) == Decode(Join(chunks))
  {
    if chunks != [] {
      ChunksAsWhole(chunks[..|chunks| - 1]);
      DecodeMore(Join(chunks[..|chunks| - 1]), chunks[|chunks| - 1]);
    }
  }

  // ------------------------------------------------------------ readers that go on

  /** A reader that calls decode_frames for every chunk, also after a close. */
  function ReadOn(chunks: seq<seq<Byte>>): Decoded {
    if chunks == [] then Decoded([], [])
    else
      var d := ReadOn(chunks[..|chunks| - 1]);
      var more := Decode(d.rest + chunks[|chunks| - 1]);
      Decoded(d.frames + more.frames, more.rest)
  }

  /** The frames up to and with the first close frame. */
  function UpToClose(frames: seq<Frame>): seq<Frame> {
    if frames == [] then []
    else if frames[0].opcode == OP_CLOSE then [frames[0]]
    else [frames[0]] + UpToClose(frames[1..])
  }

  predicate AnyClose(frames: seq<Frame>) {
    exists i :: 0 <= i < |frames| && frames[i].opcode == OP_CLOSE
  }

  lemma {:induction false} UpToCloseMore(a: seq<Frame>, b: seq<Frame>)
    ensures UpToClose(a + b) == if AnyClose(a) then UpToClose(a) else a + UpToClose(b)
  {
    if a == [] {
      assert a + b == b;
    } else {
      assert (a + b)[1..] == a[1..] + b;
      UpToCloseMore(a[1..], b);
      if a[0].opcode != OP_CLOSE {
        assert AnyClose(a) <==> AnyClose(a[1..]) by {
          forall i | 0 <= i < |a| && a[i].opcode == OP_CLOSE
            ensures AnyClose(a[1..])
          {
            assert a[1..][i - 1] == a[i];
          }
        }
        assert [a[0]] + (a[1..] + UpToClose(b)) == a + UpToClose(b);
      }
    }
  }

  /** Decode itself stops at the first close frame. */
  lemma {:induction false} DecodeStops(buf: seq<Byte>)
    ensures UpToClose(Decode(buf).frames) == Decode(buf).frames
    ensures AnyClose(Decode(buf).frames) <==> Closed(Decode(buf).frames)
    decreases |buf|
  {
    match FirstFrame(buf)
    case Incomplete =>
    case Complete(f, size) =>
      if f.opcode != OP_CLOSE {
        var d := Decode(buf[size..]);
        DecodeStops(buf[size..]);
        assert ([f] + d.frames)[1..] == d.frames;
        assert AnyClose([f] + d.frames) ==> AnyClose(d.frames) by {
          forall i | 0 <= i < 1 + |d.frames| && ([f] + d.frames)[i].opcode == OP_CLOSE
            ensures AnyClose(d.frames)
          {
            assert d.frames[i - 1] == ([f] + d.frames)[i];
          }
        }
      }
  }

  /** Such a reader sees the same frames up to the first close, and without a
      close the same remainder. */
  lemma {:induction false} ReadOnAsWhole(chunks: seq<seq<Byte>>)
    ensures UpToClose(ReadOn(chunks).frames) == Decode(Join(chunks)).frames
    ensures !AnyClose(ReadOn(chunks).frames) ==> ReadOn(chunks) == Decode(Join(chunks))
  {
    if chunks != [] {
      var before, chunk := chunks[..|chunks| - 1], chunks[|chunks| - 1];
      var r, d := ReadOn(before), Decode(Join(before));
      ReadOnAsWhole(before);
      DecodeStops(Join(before));
      DecodeMore(Join(before), chunk);
      var more := Decode(r.rest + chunk);
      UpToCloseMore(r.frames, more.frames);
      DecodeStops(r.rest + chunk);
      CloseStays(r.frames, more.frames);
      CloseKept(r.frames);
    }
  }

  lemma CloseStays(a: seq<Frame>, b: seq<Frame>)
    ensures AnyClose(a) ==> AnyClose(a + b)
  {
    if i :| 0 <= i < |a| && a[i].opcode == OP_CLOSE {
      assert (a + b)[i] == a[i];
    }
  }

  lemma {:induction false} CloseKept(frames: seq<Frame>)
    ensures AnyClose(frames) ==> Closed(UpToClose(frames))
    ensures !AnyClose(frames) ==> UpToClose(frames) == frames
  {
    if frames != [] && frames[0].opcode != OP_CLOSE {
      CloseKept(frames[1..]);
      assert AnyClose(frames) ==> AnyClose(frames[1..]) by {
        forall i | 0 <= i < |frames| && frames[i].opcode == OP_CLOSE
          ensures AnyClose(frames[1..])
        {
          assert frames[1..][i - 1] == frames[i];
        }
      }
    }
  }
}
