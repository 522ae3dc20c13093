/**
  RFC 6455 frames (section 5.2): the encoder, masking (section 5.3), and an incremental decoder that emits
  the same frames however the byte stream is cut into chunks.
 */
module WebSocketFrames {
  import opened Wrappers
  import opened ByteStrings

  datatype Frame = Frame(opcode: Byte, fin: bool, masked: bool, payload: Bytes)

  datatype Fault = CompressedFrame | FrameTooLarge | InvalidControlFrame

  // ---------------------------------------------------------------------------
  // Masking
  // ---------------------------------------------------------------------------

  /** Exclusive or of the low `width` bits. */
  function Xor(a: nat, b: nat, width: nat): (r: nat)
    ensures width == 8 ==> r < 256
  {
    XorBound(a, b, width);
    XorBits(a, b, width)
  }

  function XorBits(a: nat, b: nat, width: nat): nat {
    if width == 0 then 0 else (a + b) % 2 + 2 * XorBits(a / 2, b / 2, width - 1)
  }

  function Pow2(n: nat): nat { if n == 0 then 1 else 2 * Pow2(n - 1) }

  lemma {:induction false} XorBound(a: nat, b: nat, width: nat)
    ensures XorBits(a, b, width) < Pow2(width)
    ensures Pow2(8) == 256
  {
    if width > 0 {
      XorBound(a / 2, b / 2, width - 1);
    }
    assert Pow2(2) == 4 && Pow2(4) == 16 && Pow2(6) == 64;
  }

  /** Masking twice with the same byte gives the byte back. */
  lemma {:induction false} XorTwice(a: nat, b: nat, width: nat)
    requires a < Pow2(width)
    ensures XorBits(XorBits(a, b, width), b, width) == a
  {
    if width > 0 {
      XorTwice(a / 2, b / 2, width - 1);
      Halves((a + b) % 2, XorBits(a / 2, b / 2, width - 1));
      Parity(a, b, XorBits(a / 2, b / 2, width - 1));
    }
  }

  lemma Halves(low: nat, high: nat)
    requires low < 2
    ensures (low + 2 * high) / 2 == high
  {
  }

  lemma Parity(a: nat, b: nat, high: nat)
    ensures ((a + b) % 2 + 2 * high + b) % 2 == a % 2
  {
  }

  function Masked(s: Bytes, mask: Bytes): (r: Bytes)
    requires |mask| == 4
    ensures |r| == |s|
  {
    seq(|s|, i requires 0 <= i < |s| => Xor(s[i], mask[i % 4], 8) as Byte)
  }

  lemma MaskedTwice(s: Bytes, mask: Bytes)
    requires |mask| == 4
    ensures Masked(Masked(s, mask), mask) == s
  {
    var r := Masked(Masked(s, mask), mask);
    forall i | 0 <= i < |s| ensures r[i] == s[i] {
      XorBound(0, 0, 8);
      XorTwice(s[i], mask[i % 4], 8);
    }
  }

  /** The masking loop, in place. */
  method MaskInPlace(a: array<Byte>, mask: Bytes)
    requires |mask| == 4
    modifies a
    ensures a[..] == Masked(old(a[..]), mask)
  {
    hide Xor;
    for i := 0 to a.Length
      invariant forall k :: 0 <= k < i ==> a[k] == Xor(old(a[k]), mask[k % 4], 8)
      invariant forall k :: i <= k < a.Length ==> a[k] == old(a[k])
    {
      a[i] := Xor(a[i], mask[i % 4], 8);
    }
  }

  // ---------------------------------------------------------------------------
  // Encoding
  // ---------------------------------------------------------------------------

  function FirstByte(fin: bool, opcode: Byte): Byte { if fin && opcode < 128 then opcode + 128 else opcode }

  function LengthField(n: nat): Bytes {
    if n < 126 then [] else if n < 65536 then BigEndian(n, 2) else BigEndian(n, 8)
  }

  function ShortLength(n: nat): (b: Byte)
    ensures b < 128
  {
    if n < 126 then n else if n < 65536 then 126 else 127
  }

  function Header(f: Frame): Bytes {
    [FirstByte(f.fin, f.opcode), (if f.masked then 128 else 0) + ShortLength(|f.payload|)] + LengthField(|f.payload|)
  }

  /** The bytes of a frame; the mask is used only when the frame is masked. A length past 64 bits is refused. */
  function Encode(f: Frame, mask: Bytes): Option<Bytes>
    requires |mask| == 4
  {
    if |f.payload| >= TWO64 then None
    else if f.masked then Some(Header(f) + mask + Masked(f.payload, mask))
    else Some(Header(f) + f.payload)
  }

  /** The encoder: a header buffer, then the body, copied and masked in place when asked for. */
  method EncodeFrame(f: Frame, mask: Bytes) returns (r: Option<Bytes>)
    requires |mask| == 4
    ensures r == Encode(f, mask)
  {
    hide BigEndian, Masked;
    if |f.payload| >= TWO64 {
      return None;
    }
    var length := |f.payload|;
    var header := [FirstByte(f.fin, f.opcode), (if f.masked then 128 else 0) + ShortLength(length)];
    if 126 <= length < 65536 {
      header := header + BigEndian(length, 2);
    }
    if length >= 65536 {
      header := header + BigEndian(length, 8);
    }
    assert header == Header(f);
    if !f.masked {
      return Some(header + f.payload);
    }
    var copy := new Byte[length](i requires 0 <= i < length => f.payload[i]);
    assert copy[..] == f.payload;
    MaskInPlace(copy, mask);
    return Some(header + mask + copy[..]);
  }

  // ---------------------------------------------------------------------------
  // Decoding
  // ---------------------------------------------------------------------------

  /** What the front of the buffer holds: not enough yet, a frame and how many bytes it took, or a fault. */
  datatype Parsed = Wait | Found(frame: Frame, used: nat) | Bad(fault: Fault)

  function Parse(s: Bytes, max: nat): (p: Parsed)
    ensures p.Found? ==> 2 <= p.used <= |s|
  {
    if |s| < 2 then Wait
    else if (s[0] / 16) % 8 != 0 then Bad(CompressedFrame)
    else if s[1] % 128 == 126 then
      if |s| < 4 then Wait else Body(s, FromBigEndian(s[2..4]), 4, max)
    else if s[1] % 128 == 127 then
      if |s| < 10 then Wait else Body(s, FromBigEndian(s[2..10]), 10, max)
    else Body(s, s[1] % 128, 2, max)
  }

  /** A frame of `length` payload bytes whose header, without the mask, is the first `offset` bytes. */
  function Body(s: Bytes, length: nat, offset: nat, max: nat): (p: Parsed)
    requires 2 <= offset <= |s|
    ensures p.Found? ==> 2 <= p.used <= |s|
  {
    var fin, opcode, masked := s[0] >= 128, s[0] % 16, s[1] >= 128;
    if length > max then Bad(FrameTooLarge)
    else if opcode >= 8 && (!fin || length > 125) then Bad(InvalidControlFrame)
    else
      var start := offset + (if masked then 4 else 0);
      if |s| < start + length then Wait
      else
        var data := s[start..start + length];
        Found(Frame(opcode, fin, masked, if masked then Masked(data, s[offset..start]) else data), start + length)
  }

  /** Everything a buffer yields: frames, the bytes left, and the fault that stopped the decoder. */
  datatype Decoded = Decoded(frames: seq<Frame>, rest: Bytes, fault: Option<Fault>)

  function Decode(s: Bytes, max: nat): Decoded
    decreases |s|
  {
    match Parse(s, max)
    case Wait => Decoded([], s, None)
    case Bad(fault) => Decoded([], s, Some(fault))
    case Found(f, used) =>
      var d := Decode(s[used..], max);
      Decoded([f] + d.frames, d.rest, d.fault)
  }

  /** The decoder object: it keeps what is not yet a frame. */
  class FrameDecoder {
    const maxBytes: nat
    var buffered: Bytes

    constructor (maxBytes: nat)
      ensures this.maxBytes == maxBytes && buffered == []
    {
      this.maxBytes := maxBytes;
      buffered := [];
    }

    /** One chunk: the frames it completes, in order, and the fault thrown after them, if any. */
    method Feed(chunk: Bytes) returns (frames: seq<Frame>, fault: Option<Fault>)
      modifies this
      ensures Decoded(frames, buffered, fault) == Decode(old(buffered) + chunk, maxBytes)
    {
      hide Parse, Body, Masked;
      buffered := buffered + chunk;
      frames := [];
      while true
        invariant var d := Decode(buffered, maxBytes);
                  Decode(old(buffered) + chunk, maxBytes) == Decoded(frames + d.frames, d.rest, d.fault)
        decreases |buffered|
      {
        var p := ParseFront();
        match p {
          case Wait =>
            assert frames + [] == frames;
            return frames, None;
          case Bad(e) =>
            assert frames + [] == frames;
            return frames, Some(e);
          case Found(f, used) =>
            assert frames + ([f] + Decode(buffered[used..], maxBytes).frames) == frames + [f] + Decode(buffered[used..], maxBytes).frames;
            buffered := buffered[used..];
            frames := frames + [f];
        }
      }
    }

    /** Reads the header fields, checks them in order, and unmasks a copy of the payload. */
    method ParseFront() returns (p: Parsed)
      ensures p == Parse(buffered, maxBytes)
    {
      hide Masked, FromBigEndian;
      if |buffered| < 2 {
        return Wait;
      }
      var fin, opcode := buffered[0] >= 128, buffered[0] % 16;
      if (buffered[0] / 16) % 8 != 0 {
        return Bad(CompressedFrame);
      }
      var masked := buffered[1] >= 128;
      var length, offset := buffered[1] % 128, 2;
      if length == 126 {
        if |buffered| < 4 {
          return Wait;
        }
        length, offset := FromBigEndian(buffered[2..4]), 4;
      } else if length == 127 {
        if |buffered| < 10 {
          return Wait;
        }
        length, offset := FromBigEndian(buffered[2..10]), 10;
      }
      if length > maxBytes {
        return Bad(FrameTooLarge);
      }
      if opcode >= 8 && (!fin || length > 125) {
        return Bad(InvalidControlFrame);
      }
      var start := offset + (if masked then 4 else 0);
      if |buffered| < start + length {
        return Wait;
      }
      var data := buffered[start..start + length];
      if masked {
        var copy := new Byte[length](i requires 0 <= i < length => data[i]);
        assert copy[..] == data;
        MaskInPlace(copy, buffered[offset..start]);
        data := copy[..];
      }
      return Found(Frame(opcode, fin, masked, data), start + length);
    }
  }

  // ---------------------------------------------------------------------------
  // However the bytes are cut
  // ---------------------------------------------------------------------------

  /** A frame or a fault at the front stays the same as more bytes arrive. */
  lemma ParseStable(s: Bytes, t: Bytes, max: nat)
    ensures Parse(s, max).Wait? || Parse(s + t, max) == Parse(s, max)
  {
    hide Masked, FromBigEndian;
    if |s| >= 2 {
      assert (s + t)[0] == s[0] && (s + t)[1] == s[1];
      if |s| >= 4 {
        assert (s + t)[2..4] == s[2..4];
        BodyStable(s, t, FromBigEndian(s[2..4]), 4, max);
      }
      if |s| >= 10 {
        assert (s + t)[2..10] == s[2..10];
        BodyStable(s, t, FromBigEndian(s[2..10]), 10, max);
      }
      BodyStable(s, t, s[1] % 128, 2, max);
    }
  }

  lemma BodyStable(s: Bytes, t: Bytes, length: nat, offset: nat, max: nat)
    requires 2 <= offset <= |s|
    ensures Body(s, length, offset, max).Wait? || Body(s + t, length, offset, max) == Body(s, length, offset, max)
  {
    hide Masked;
    var start := offset + (if s[1] >= 128 then 4 else 0);
    if |s| >= start + length {
      assert (s + t)[start..start + length] == s[start..start + length];
      assert (s + t)[offset..start] == s[offset..start];
    }
  }

  lemma DecodeCases(s: Bytes, max: nat)
    ensures var p := Parse(s, max);
            && (p.Wait? ==> Decode(s, max) == Decoded([], s, None))
            && (p.Bad? ==> Decode(s, max) == Decoded([], s, Some(p.fault)))
            && (p.Found? ==> var d := Decode(s[p.used..], max); Decode(s, max) == Decoded([p.frame] + d.frames, d.rest, d.fault))
  {
  }

  /** Decoding a buffer and later the rest with more bytes is decoding it all at once. */
  lemma {:induction false} DecodeInParts(s: Bytes, t: Bytes, max: nat)
    ensures var first := Decode(s, max);
            var second := Decode(first.rest + t, max);
            Decode(s + t, max) == Decoded(first.frames + second.frames, second.rest, second.fault)
    decreases |s|
  {
    hide *;
    ParseStable(s, t, max);
    DecodeCases(s, max);
    DecodeCases(s + t, max);
    var p := Parse(s, max);
    if p.Found? {
      DecodeInParts(s[p.used..], t, max);
      assert (s + t)[p.used..] == s[p.used..] + t;
      var first := Decode(s[p.used..], max);
      var second := Decode(first.rest + t, max);
      assert [p.frame] + (first.frames + second.frames) == [p.frame] + first.frames + second.frames;
    }
  }

  /** Feeding chunks one after another, from what was left before. */
  function FeedAll(rest: Bytes, chunks: seq<Bytes>, max: nat): Decoded
    decreases |chunks|
  {
    if chunks == [] then Decode(rest, max)
    else
      var d := Decode(rest + chunks[0], max);
      var more := FeedAll(d.rest, chunks[1..], max);
      Decoded(d.frames + more.frames, more.rest, more.fault)
  }

  function Concat(parts: seq<Bytes>): Bytes {
    if parts == [] then [] else parts[0] + Concat(parts[1..])
  }

  /** The frames, the bytes left over and the fault are the same for every way of cutting a byte stream. */
  lemma {:induction false} ChunkingIrrelevant(rest: Bytes, chunks: seq<Bytes>, max: nat)
    ensures FeedAll(rest, chunks, max) == Decode(rest + Concat(chunks), max)
    decreases |chunks|
  {
    hide Decode;
    if chunks == [] {
      assert rest + [] == rest;
    } else {
      var d := Decode(rest + chunks[0], max);
      ChunkingIrrelevant(d.rest, chunks[1..], max);
      DecodeInParts(rest + chunks[0], Concat(chunks[1..]), max);
      assert rest + chunks[0] + Concat(chunks[1..]) == rest + Concat(chunks);
    }
  }

  // ---------------------------------------------------------------------------
  // Round trips
  // ---------------------------------------------------------------------------

  /** The frames a decoder with this limit takes: a known header, within the limit, control frames whole and short. */
  predicate Acceptable(f: Frame, max: nat) {
    f.opcode < 16 && |f.payload| <= max && (f.opcode >= 8 ==> f.fin && |f.payload| <= 125)
  }

  /** The length read back from a header is the length that was written, in each of the three forms. */
  lemma HeaderReads(f: Frame, after: Bytes, max: nat)
    requires |f.payload| < TWO64 && f.opcode < 16
    ensures Parse(Header(f) + after, max) == Body(Header(f) + after, |f.payload|, |Header(f)|, max)
  {
    hide Body, BigEndian, FromBigEndian;
    var s, n := Header(f) + after, |f.payload|;
    Pow256Values();
    if 126 <= n < 65536 {
      BigEndianRoundTrip(n, 2);
      assert s[2..4] == BigEndian(n, 2);
    } else if n >= 65536 {
      BigEndianRoundTrip(n, 8);
      assert s[2..10] == BigEndian(n, 8);
    }
  }

  lemma FrontReads(f: Frame, after: Bytes)
    ensures var s := Header(f) + after;
            && |s| >= 2 && s[0] == FirstByte(f.fin, f.opcode)
            && (s[1] >= 128 <==> f.masked)
            && (f.opcode < 16 ==> s[0] % 16 == f.opcode && (s[0] >= 128 <==> f.fin))
  {
    hide BigEndian;
  }

  /** A frame reads back as itself, leaving what follows it, exactly when the decoder accepts it. */
  lemma FrameRoundTrip(f: Frame, mask: Bytes, after: Bytes, max: nat)
    requires |mask| == 4 && Encode(f, mask).Some?
    ensures Acceptable(f, max) <==> Parse(Encode(f, mask).value + after, max) == Found(f, |Encode(f, mask).value|)
  {
    hide Parse, Header, Masked;
    if f.opcode < 16 {
      var tail := (if f.masked then mask + Masked(f.payload, mask) else f.payload) + after;
      var s := Header(f) + tail;
      assert Encode(f, mask).value + after == s;
      HeaderReads(f, tail, max);
      FrontReads(f, tail);
      var offset := |Header(f)|;
      if f.masked {
        MaskedTwice(f.payload, mask);
        assert s[offset..offset + 4] == mask;
        assert s[offset + 4..offset + 4 + |f.payload|] == Masked(f.payload, mask);
      } else {
        assert s[offset..offset + |f.payload|] == f.payload;
      }
    } else {
      OpcodeSmall(Encode(f, mask).value + after, max);
    }
  }

  /** A frame that has not arrived in full is waited for, not taken and not refused. */
  lemma PartialWaits(f: Frame, mask: Bytes, max: nat, k: nat)
    requires |mask| == 4 && Encode(f, mask).Some? && Acceptable(f, max) && k < |Encode(f, mask).value|
    ensures Parse(Encode(f, mask).value[..k], max) == Wait
  {
    var whole := Encode(f, mask).value;
    FrameRoundTrip(f, mask, [], max);
    ParseStable(whole[..k], whole[k..], max);
    hide Encode, Parse, Acceptable;
    assert whole[..k] + whole[k..] == whole && whole + [] == whole;
  }

  /**
    A frame past the limit is refused for its size, a control frame within it that is fragmented or longer than
    125 bytes as one, as soon as the header is there; and whatever has a reserved bit set as compressed.
   */
  lemma FaultsNamed(f: Frame, mask: Bytes, after: Bytes, max: nat)
    requires |mask| == 4 && Encode(f, mask).Some? && f.opcode < 16
    ensures var p := Parse(Encode(f, mask).value + after, max);
      && (p == Bad(FrameTooLarge) <==> |f.payload| > max)
      && (p == Bad(InvalidControlFrame) <==> |f.payload| <= max && f.opcode >= 8 && (!f.fin || |f.payload| > 125))
      && p != Bad(CompressedFrame)
  {
    var tail := (if f.masked then mask + Masked(f.payload, mask) else f.payload) + after;
    assert Encode(f, mask).value + after == Header(f) + tail;
    HeaderReads(f, tail, max);
    FrontReads(f, tail);
    hide Parse, Header, Masked, Encode;
  }

  lemma ReservedBits(s: Bytes, max: nat)
    requires |s| >= 2
    ensures Parse(s, max) == Bad(CompressedFrame) <==> (s[0] / 16) % 2 == 1 || (s[0] / 32) % 2 == 1 || (s[0] / 64) % 2 == 1
  {
    hide FromBigEndian, Masked;
    ThreeBits(s[0] / 16);
    assert s[0] / 32 == s[0] / 16 / 2 && s[0] / 64 == s[0] / 16 / 4;
  }

  lemma ThreeBits(n: nat)
    requires n < 16
    ensures n % 8 != 0 <==> n % 2 == 1 || (n / 2) % 2 == 1 || (n / 4) % 2 == 1
  {
  }

  lemma OpcodeSmall(s: Bytes, max: nat)
    ensures Parse(s, max).Found? ==> Parse(s, max).frame.opcode < 16
  {
  }

  function EncodeAll(frames: seq<Frame>, masks: seq<Bytes>): Bytes
    requires |masks| == |frames|
    requires forall i :: 0 <= i < |frames| ==> |masks[i]| == 4 && |frames[i].payload| < TWO64
  {
    if frames == [] then [] else Encode(frames[0], masks[0]).value + EncodeAll(frames[1..], masks[1..])
  }

  /** Bit k of a number, counted from the lowest. */
  function Bit(n: nat, k: nat): nat { if k == 0 then n % 2 else Bit(n / 2, k - 1) }

  lemma {:induction false} XorBitwise(a: nat, b: nat, width: nat, k: nat)
    requires k < width
    ensures Bit(XorBits(a, b, width), k) == if Bit(a, k) == Bit(b, k) then 0 else 1
  {
    var high := XorBits(a / 2, b / 2, width - 1);
    Halves((a + b) % 2, high);
    if k == 0 {
      Parity(a + b, 0, high);
      assert ((a + b) % 2 + 2 * high) % 2 == (a + b) % 2;
    } else {
      XorBitwise(a / 2, b / 2, width - 1, k - 1);
    }
  }

  /** Bit by bit, a masked byte differs from the payload where the mask byte of its position, modulo four, is one. */
  lemma MaskedBitwise(s: Bytes, mask: Bytes, i: nat, k: nat)
    requires |mask| == 4 && i < |s| && k < 8
    ensures Bit(Masked(s, mask)[i], k) == if Bit(s[i], k) == Bit(mask[i % 4], k) then 0 else 1
  {
    hide XorBits, Bit;
    XorBitwise(s[i], mask[i % 4], 8, k);
  }

  const HELLO: Bytes := [0x48, 0x65, 0x6c, 0x6c, 0x6f]
  const DOCUMENTED_MASK: Bytes := [0x37, 0xfa, 0x21, 0x3d]

  /** The single-frame text messages of section 5.7 of RFC 6455, without and with a mask, and the ping there. */
  lemma DocumentedFrames()
    ensures Encode(Frame(1, true, false, HELLO), [0, 0, 0, 0]) == Some([0x81, 0x05] + HELLO)
    ensures Encode(Frame(9, true, false, HELLO), [0, 0, 0, 0]) == Some([0x89, 0x05] + HELLO)
    ensures Encode(Frame(1, true, true, HELLO), DOCUMENTED_MASK) ==
            Some([0x81, 0x85] + DOCUMENTED_MASK + [0x7f, 0x9f, 0x4d, 0x51, 0x58])
  {
    MaskedHello();
    hide Masked;
    assert |HELLO| == 5 && LengthField(|HELLO|) == [] && ShortLength(|HELLO|) == 5;
    assert Header(Frame(1, true, false, HELLO)) == [0x81, 0x05];
    assert Header(Frame(9, true, false, HELLO)) == [0x89, 0x05];
    assert Header(Frame(1, true, true, HELLO)) == [0x81, 0x85];
  }

  lemma MaskedHello()
    ensures Masked(HELLO, DOCUMENTED_MASK) == [0x7f, 0x9f, 0x4d, 0x51, 0x58]
  {
    FirstByteMasked();
    SecondByteMasked();
    ThirdByteMasked();
    FourthByteMasked();
    FifthByteMasked();
    hide XorBits;
    var r := Masked(HELLO, DOCUMENTED_MASK);
    assert |r| == 5 && r[0] == 0x7f && r[1] == 0x9f && r[2] == 0x4d && r[3] == 0x51 && r[4] == 0x58;
  }

  lemma FirstByteMasked()
    ensures XorBits(72, 55, 8) == 127
  {
    assert XorBits(0, 0, 1) == 0;
    assert XorBits(1, 0, 2) == 1;
    assert XorBits(2, 1, 3) == 3;
    assert XorBits(4, 3, 4) == 7;
    assert XorBits(9, 6, 5) == 15;
    assert XorBits(18, 13, 6) == 31;
    assert XorBits(36, 27, 7) == 63;
    assert XorBits(72, 55, 8) == 127;
  }

  lemma SecondByteMasked()
    ensures XorBits(101, 250, 8) == 159
  {
    assert XorBits(0, 1, 1) == 1;
    assert XorBits(1, 3, 2) == 2;
    assert XorBits(3, 7, 3) == 4;
    assert XorBits(6, 15, 4) == 9;
    assert XorBits(12, 31, 5) == 19;
    assert XorBits(25, 62, 6) == 39;
    assert XorBits(50, 125, 7) == 79;
    assert XorBits(101, 250, 8) == 159;
  }

  lemma ThirdByteMasked()
    ensures XorBits(108, 33, 8) == 77
  {
    assert XorBits(0, 0, 1) == 0;
    assert XorBits(1, 0, 2) == 1;
    assert XorBits(3, 1, 3) == 2;
    assert XorBits(6, 2, 4) == 4;
    assert XorBits(13, 4, 5) == 9;
    assert XorBits(27, 8, 6) == 19;
    assert XorBits(54, 16, 7) == 38;
    assert XorBits(108, 33, 8) == 77;
  }

  lemma FourthByteMasked()
    ensures XorBits(108, 61, 8) == 81
  {
    assert XorBits(0, 0, 1) == 0;
    assert XorBits(1, 0, 2) == 1;
    assert XorBits(3, 1, 3) == 2;
    assert XorBits(6, 3, 4) == 5;
    assert XorBits(13, 7, 5) == 10;
    assert XorBits(27, 15, 6) == 20;
    assert XorBits(54, 30, 7) == 40;
    assert XorBits(108, 61, 8) == 81;
  }

  lemma FifthByteMasked()
    ensures XorBits(111, 55, 8) == 88
  {
    assert XorBits(0, 0, 1) == 0;
    assert XorBits(1, 0, 2) == 1;
    assert XorBits(3, 1, 3) == 2;
    assert XorBits(6, 3, 4) == 5;
    assert XorBits(13, 6, 5) == 11;
    assert XorBits(27, 13, 6) == 22;
    assert XorBits(55, 27, 7) == 44;
    assert XorBits(111, 55, 8) == 88;
  }

  /** Any list of acceptable frames decodes, in any chunking, to that list, with nothing left over. */
  lemma FramesRoundTrip(frames: seq<Frame>, masks: seq<Bytes>, chunks: seq<Bytes>, max: nat)
    requires |masks| == |frames|
    requires forall i :: 0 <= i < |frames| ==> |masks[i]| == 4 && |frames[i].payload| < TWO64 && Acceptable(frames[i], max)
    requires Concat(chunks) == EncodeAll(frames, masks)
    ensures FeedAll([], chunks, max) == Decoded(frames, [], None)
  {
    ChunkingIrrelevant([], chunks, max);
    assert [] + Concat(chunks) == EncodeAll(frames, masks);
    EncodedDecodes(frames, masks, max);
  }

  lemma {:induction false} EncodedDecodes(frames: seq<Frame>, masks: seq<Bytes>, max: nat)
    requires |masks| == |frames|
    requires forall i :: 0 <= i < |frames| ==> |masks[i]| == 4 && |frames[i].payload| < TWO64 && Acceptable(frames[i], max)
    ensures Decode(EncodeAll(frames, masks), max) == Decoded(frames, [], None)
  {
    hide Encode, Acceptable;
    if frames == [] {
      assert Parse([], max) == Wait;
    } else {
      var first := Encode(frames[0], masks[0]);
      EncodeSome(frames[0], masks[0]);
      var after := EncodeAll(frames[1..], masks[1..]);
      FrameRoundTrip(frames[0], masks[0], after, max);
      EncodedDecodes(frames[1..], masks[1..], max);
      assert (first.value + after)[|first.value|..] == after;
    }
  }

  lemma EncodeSome(f: Frame, mask: Bytes)
    requires |mask| == 4 && |f.payload| < TWO64
    ensures Encode(f, mask).Some?
  {
  }
}
