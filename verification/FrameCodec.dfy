/** WebSocket frames on the byte level (RFC 6455 sections 5.2 and 5.3): `encodeFrame` and `parseFrames`. */
module FrameCodec {
  import opened Common

  const MAX_FRAME_PAYLOAD_BYTES: nat := 16 * 1024 * 1024

  datatype Frame = Frame(fin: bool, opcode: nat, payload: Bytes)

  // ----- exclusive or -----

  function Pow2(n: nat): nat {
    if n == 0 then 1 else 2 * Pow2(n - 1)
  }

  /** Bitwise exclusive or of the `n` lowest bits. */
  function XorBits(a: nat, b: nat, n: nat): (r: nat)
    ensures r < Pow2(n)
  {
    if n == 0 then 0 else 2 * XorBits(a / 2, b / 2, n - 1) + if a % 2 == b % 2 then 0 else 1
  }

  lemma {:induction false} XorBitsTwice(a: nat, b: nat, n: nat)
    requires a < Pow2(n)
    ensures XorBits(XorBits(a, b, n), b, n) == a
  {
    if n > 0 {
      XorBitsTwice(a / 2, b / 2, n - 1);
      LowBit(XorBits(a / 2, b / 2, n - 1), a % 2, b % 2);
    }
  }

  /** Doubling a number and adding a bit, undone. */
  lemma LowBit(high: nat, x: nat, y: nat)
    requires x < 2 && y < 2
    ensures var r := 2 * high + if x == y then 0 else 1;
      r / 2 == high && (if r % 2 == y then 0 else 1) == x
  {
  }

  lemma EightBits()
    ensures Pow2(8) == 256
  {
    assert Pow2(4) == 16;
    assert Pow2(6) == 64;
  }

  function Xor(a: Byte, b: Byte): Byte {
    EightBits();
    XorBits(a, b, 8)
  }

  lemma XorTwice(a: Byte, b: Byte)
    ensures Xor(Xor(a, b), b) == a
  {
    EightBits();
    XorBitsTwice(a, b, 8);
  }

  /** A payload masked, or unmasked again, with a four-byte key. */
  function Masked(payload: Bytes, key: Bytes): (r: Bytes)
    requires |key| == 4
    ensures |r| == |payload|
  {
    seq(|payload|, i requires 0 <= i < |payload| => Xor(payload[i], key[i % 4]))
  }

  lemma MaskedTwice(payload: Bytes, key: Bytes)
    requires |key| == 4
    ensures Masked(Masked(payload, key), key) == payload
  {
    hide Xor;
    forall i | 0 <= i < |payload|
      ensures Masked(Masked(payload, key), key)[i] == payload[i]
    {
      XorTwice(payload[i], key[i % 4]);
    }
  }

  // ----- big-endian numbers -----

  function Pow256(k: nat): nat {
    if k == 0 then 1 else 256 * Pow256(k - 1)
  }

  function ToBe(n: nat, k: nat): (r: Bytes)
    ensures |r| == k
  {
    if k == 0 then [] else ToBe(n / 256, k - 1) + [n % 256]
  }

  function FromBe(s: Bytes): nat {
    if s == [] then 0 else FromBe(s[..|s| - 1]) * 256 + s[|s| - 1]
  }

  lemma {:induction false} BeRoundTrip(n: nat, k: nat)
    requires n < Pow256(k)
    ensures FromBe(ToBe(n, k)) == n
  {
    if k > 0 {
      BeRoundTrip(n / 256, k - 1);
      assert ToBe(n, k)[..k - 1] == ToBe(n / 256, k - 1);
    }
  }

  lemma Powers()
    ensures Pow256(2) == 0x1_0000 && Pow256(8) > MAX_FRAME_PAYLOAD_BYTES
  {
    assert Pow256(1) == 256;
    assert Pow256(2) == 0x1_0000;
    assert Pow256(4) == 0x1_0000 * 0x1_0000;
    assert Pow256(6) >= Pow256(4);
    assert Pow256(8) >= Pow256(6);
  }

  // ----- decoding -----

  /** The frame at the start of a buffer: not there in full, too large, or read. */
  datatype Parsed = Need | TooLarge | Got(frame: Frame, size: nat)

  function ParseBody(b: Bytes, headerLength: nat, length: nat): (r: Parsed)
    requires 2 <= headerLength <= |b|
    ensures r.Got? ==> headerLength <= r.size <= |b|
  {
    var maskLength := if b[1] >= 128 then 4 else 0;
    var end := headerLength + maskLength + length;
    if length > MAX_FRAME_PAYLOAD_BYTES then TooLarge
    else if end > |b| then Need
    else
      var raw := b[headerLength + maskLength..end];
      Got(Frame(b[0] >= 128, b[0] % 16, if b[1] >= 128 then Masked(raw, b[headerLength..headerLength + 4]) else raw), end)
  }

  /** One round of the loop of `parseFrames`. */
  function ParseOne(b: Bytes): (r: Parsed)
    ensures r.Got? ==> 2 <= r.size <= |b| && r.frame.opcode < 16 && |r.frame.payload| <= MAX_FRAME_PAYLOAD_BYTES
  {
    if |b| < 2 then Need
    else if b[1] % 128 == 126 then if |b| < 4 then Need else ParseBody(b, 4, FromBe(b[2..4]))
    else if b[1] % 128 == 127 then if |b| < 10 then Need else ParseBody(b, 10, FromBe(b[2..10]))
    else ParseBody(b, 2, b[1] % 128)
  }

  datatype Decoded = Failed | Frames(frames: seq<Frame>, rest: Bytes)

  function Prepend(f: Frame, d: Decoded): Decoded {
    match d
    case Failed => Failed
    case Frames(fs, rest) => Frames([f] + fs, rest)
  }

  /** `parseFrames`: all complete frames, and the bytes after them. */
  function ParseAll(b: Bytes): Decoded
    decreases |b|
  {
    match ParseOne(b)
    case Need => Frames([], b)
    case TooLarge => Failed
    case Got(f, n) => Prepend(f, ParseAll(b[n..]))
  }

  function PrependAll(fs: seq<Frame>, d: Decoded): Decoded {
    match d
    case Failed => Failed
    case Frames(more, rest) => Frames(fs + more, rest)
  }

  method Unmask(raw: Bytes, key: Bytes) returns (payload: array<Byte>)
    requires |key| == 4
    ensures fresh(payload) && payload[..] == Masked(raw, key)
  {
    hide Xor;
    payload := new Byte[|raw|](i requires 0 <= i < |raw| => raw[i]);
    for index := 0 to payload.Length
      invariant forall k :: 0 <= k < index ==> payload[k] == Xor(raw[k], key[k % 4])
      invariant forall k :: index <= k < payload.Length ==> payload[k] == raw[k]
    {
      payload[index] := Xor(payload[index], key[index % 4]);
    }
  }

  /** The first frame after `offset`, read off the whole buffer. */
  lemma ParseAt(buffer: Bytes, offset: nat)
    requires offset + 2 <= |buffer|
    ensures var b, short := buffer[offset..], buffer[offset + 1] % 128;
      ParseOne(b) ==
        if short == 126 then if offset + 4 > |buffer| then Need else BodyAt(buffer, offset, 4, FromBe(buffer[offset + 2..offset + 4]))
        else if short == 127 then if offset + 10 > |buffer| then Need else BodyAt(buffer, offset, 10, FromBe(buffer[offset + 2..offset + 10]))
        else BodyAt(buffer, offset, 2, short)
  {
    hide Masked, FromBe;
    var b := buffer[offset..];
    if |b| >= 4 { SliceOfRest(buffer, offset, 2, 4); }
    if |b| >= 10 { SliceOfRest(buffer, offset, 2, 10); }
    var short := buffer[offset + 1] % 128;
    var h := if short == 126 then 4 else if short == 127 then 10 else 2;
    if |b| >= h {
      BodyAtIs(buffer, offset, h, if short == 126 then FromBe(b[2..4]) else if short == 127 then FromBe(b[2..10]) else short);
    }
  }

  function BodyAt(buffer: Bytes, offset: nat, headerLength: nat, length: nat): Parsed
    requires 2 <= headerLength && offset + headerLength <= |buffer|
  {
    var start := offset + headerLength + if buffer[offset + 1] >= 128 then 4 else 0;
    if length > MAX_FRAME_PAYLOAD_BYTES then TooLarge
    else if start + length > |buffer| then Need
    else
      var raw := buffer[start..start + length];
      Got(Frame(buffer[offset] >= 128, buffer[offset] % 16,
                if buffer[offset + 1] >= 128 then Masked(raw, buffer[offset + headerLength..offset + headerLength + 4]) else raw),
          start + length - offset)
  }

  lemma SliceOfRest(buffer: Bytes, offset: nat, i: nat, j: nat)
    requires i <= j && offset + j <= |buffer|
    ensures buffer[offset..][i..j] == buffer[offset + i..offset + j]
  {
  }

  lemma BodyAtIs(buffer: Bytes, offset: nat, h: nat, length: nat)
    requires 2 <= h && offset + h <= |buffer|
    ensures ParseBody(buffer[offset..], h, length) == BodyAt(buffer, offset, h, length)
  {
    hide Masked;
    var m := if buffer[offset + 1] >= 128 then 4 else 0;
    if offset + h + m + length <= |buffer| {
      SliceOfRest(buffer, offset, h + m, h + m + length);
      if m == 4 {
        SliceOfRest(buffer, offset, h, h + 4);
      }
    }
  }

  /** Once the header is read: take the payload, if it is there in full, and unmask it. */
  method ReadBody(buffer: Bytes, offset: nat, headerLength: nat, length: nat) returns (parsed: Parsed)
    requires 2 <= headerLength && offset + headerLength <= |buffer|
    ensures parsed == BodyAt(buffer, offset, headerLength, length)
  {
    hide Masked;
    if length > MAX_FRAME_PAYLOAD_BYTES {
      return TooLarge;
    }
    var fin, opcode, masked := buffer[offset] >= 128, buffer[offset] % 16, buffer[offset + 1] >= 128;
    var maskLength := if masked then 4 else 0;
    var frameEnd := offset + headerLength + maskLength + length;
    if frameEnd > |buffer| { return Need; }
    var payload := buffer[offset + headerLength + maskLength..frameEnd];
    if masked {
      var unmasked := Unmask(payload, buffer[offset + headerLength..offset + headerLength + 4]);
      payload := unmasked[..];
    }
    parsed := Got(Frame(fin, opcode, payload), frameEnd - offset);
  }

  /** One round of the loop: the frame that starts at `offset`. */
  method ReadOne(buffer: Bytes, offset: nat) returns (parsed: Parsed)
    requires offset + 2 <= |buffer|
    ensures parsed == ParseOne(buffer[offset..])
  {
    hide FromBe, ParseOne, BodyAt;
    ParseAt(buffer, offset);
    var length: nat, headerLength := buffer[offset + 1] % 128, 2;
    if length == 126 {
      if offset + 4 > |buffer| { return Need; }
      length, headerLength := FromBe(buffer[offset + 2..offset + 4]), 4;
    } else if length == 127 {
      if offset + 10 > |buffer| { return Need; }
      length, headerLength := FromBe(buffer[offset + 2..offset + 10]), 10;
    }
    parsed := ReadBody(buffer, offset, headerLength, length);
  }

  /** `None` stands for the error thrown on a frame that is too large. */
  method ParseFrames(buffer: Bytes) returns (result: Option<(seq<Frame>, Bytes)>)
    ensures match ParseAll(buffer)
            case Failed => result == None
            case Frames(frames, rest) => result == Some((frames, rest))
  {
    hide ParseOne;
    var frames: seq<Frame>, offset := [], 0;
    assert buffer[0..] == buffer;
    assert PrependAll([], ParseAll(buffer)) == ParseAll(buffer);
    while offset + 2 <= |buffer|
      invariant offset <= |buffer|
      invariant ParseAll(buffer) == PrependAll(frames, ParseAll(buffer[offset..]))
    {
      var parsed := ReadOne(buffer, offset);
      if parsed.TooLarge? {
        return None;
      }
      if parsed.Need? { break; }
      FrameTaken(buffer, offset, offset + parsed.size, frames, parsed.frame);
      frames := frames + [parsed.frame];
      offset := offset + parsed.size;
    }
    ShortNeeds(buffer[offset..]);
    assert frames + [] == frames;
    result := Some((frames, buffer[offset..]));
  }

  lemma ShortNeeds(b: Bytes)
    ensures |b| < 2 ==> ParseOne(b).Need?
  {
  }

  lemma FrameTaken(buffer: Bytes, offset: nat, end: nat, frames: seq<Frame>, f: Frame)
    requires offset < end <= |buffer| && ParseOne(buffer[offset..]) == Got(f, end - offset)
    requires ParseAll(buffer) == PrependAll(frames, ParseAll(buffer[offset..]))
    ensures ParseAll(buffer) == PrependAll(frames + [f], ParseAll(buffer[end..]))
  {
    hide ParseOne;
    assert buffer[end..] == buffer[offset..][end - offset..];
    PrependSnoc(frames, f, ParseAll(buffer[end..]));
  }

  lemma PrependSnoc(fs: seq<Frame>, f: Frame, d: Decoded)
    ensures PrependAll(fs, Prepend(f, d)) == PrependAll(fs + [f], d)
  {
    if d.Frames? {
      assert fs + ([f] + d.frames) == (fs + [f]) + d.frames;
    }
  }

  // ----- encoding -----

  /** Length field and, in the first of its bytes, the mask bit. */
  function LengthField(n: nat, maskBit: nat): Bytes
    requires maskBit == 0 || maskBit == 128
  {
    if n < 126 then [maskBit + n]
    else if n <= 0xffff then [maskBit + 126] + ToBe(n, 2)
    else [maskBit + 127] + ToBe(n, 8)
  }

  predicate Sendable(f: Frame) {
    f.opcode < 16 && |f.payload| <= MAX_FRAME_PAYLOAD_BYTES
  }

  predicate Key(mask: Option<Bytes>) {
    mask.Some? ==> |mask.value| == 4
  }

  /** A frame as any conforming peer sends it, masked or not. */
  function Encode(f: Frame, mask: Option<Bytes>): Bytes
    requires f.opcode < 16 && Key(mask)
  {
    [(if f.fin then 128 else 0) + f.opcode]
    + LengthField(|f.payload|, if mask.Some? then 128 else 0)
    + (if mask.Some? then mask.value + Masked(f.payload, mask.value) else f.payload)
  }

  /** `encodeFrame`: final and unmasked. */
  method EncodeFrame(opcode: nat, payload: Bytes) returns (frame: Bytes)
    requires opcode < 16
    ensures frame == Encode(Frame(true, opcode, payload), None)
  {
    var length := |payload|;
    var header: Bytes;
    if length < 126 {
      header := [128 + opcode, length];
    } else if length <= 0xffff {
      header := [128 + opcode, 126] + ToBe(length, 2);
    } else {
      header := [128 + opcode, 127] + ToBe(length, 8);
    }
    frame := header + payload;
  }

  function HeadOf(f: Frame, maskBit: nat): Bytes
    requires f.opcode < 16 && (maskBit == 0 || maskBit == 128)
  {
    [(if f.fin then 128 else 0) + f.opcode] + LengthField(|f.payload|, maskBit)
  }

  lemma HeadFields(f: Frame, maskBit: nat)
    requires f.opcode < 16 && (maskBit == 0 || maskBit == 128)
    ensures var h, n := HeadOf(f, maskBit), |f.payload|;
      && |h| == (if n < 126 then 2 else if n <= 0xffff then 4 else 10)
      && h[0] == (if f.fin then 128 else 0) + f.opcode
      && h[1] == maskBit + (if n < 126 then n else if n <= 0xffff then 126 else 127)
      && (|h| == 4 ==> h[2..4] == ToBe(n, 2)) && (|h| == 10 ==> h[2..10] == ToBe(n, 8))
  {
    hide ToBe;
  }

  /** A slice of one of three strings joined. */
  lemma Slices(a: Bytes, b: Bytes, c: Bytes)
    ensures var s := a + (b + c);
      && (forall i, j :: 0 <= i <= j <= |a| ==> s[i..j] == a[i..j])
      && s[|a|..|a| + |b|] == b && s[|a| + |b|..] == c
  {
  }

  /** The fields of an encoded frame, whatever follows it. */
  lemma EncodedFields(f: Frame, mask: Option<Bytes>, tail: Bytes)
    requires f.opcode < 16 && Key(mask)
    ensures var b, n := Encode(f, mask) + tail, |f.payload|;
      var k := if n < 126 then 2 else if n <= 0xffff then 4 else 10;
      var m := if mask.Some? then 4 else 0;
      && |Encode(f, mask)| == k + m + n
      && b[0] == (if f.fin then 128 else 0) + f.opcode
      && b[1] == (if mask.Some? then 128 else 0) + (if n < 126 then n else if n <= 0xffff then 126 else 127)
      && (k == 4 ==> b[2..4] == ToBe(n, 2)) && (k == 10 ==> b[2..10] == ToBe(n, 8))
      && (mask.Some? ==> b[k..k + 4] == mask.value && b[k + 4..k + 4 + n] == Masked(f.payload, mask.value))
      && (mask.None? ==> b[k..k + n] == f.payload)
      && b[k + m + n..] == tail
  {
    var n, bit := |f.payload|, if mask.Some? then 128 else 0;
    var head := HeadOf(f, bit);
    HeadFields(f, bit);
    var body := if mask.Some? then mask.value + Masked(f.payload, mask.value) else f.payload;
    assert Encode(f, mask) == head + body;
    hide ToBe, Masked, HeadOf, Encode;
    assert Encode(f, mask) + tail == head + (body + tail);
    Slices(head, body, tail);
    if mask.Some? {
      MaskedBody(head, mask.value, Masked(f.payload, mask.value), tail);
    }
  }

  lemma MaskedBody(head: Bytes, key: Bytes, payload: Bytes, tail: Bytes)
    ensures var b := head + ((key + payload) + tail);
      && b[|head|..|head| + |key|] == key
      && b[|head| + |key|..|head| + |key| + |payload|] == payload
  {
  }

  /** Decoding an encoded frame, masked with any key or not, gives it back and takes up exactly its bytes. */
  lemma FrameRoundTrip(f: Frame, mask: Option<Bytes>, tail: Bytes)
    requires Sendable(f) && Key(mask)
    ensures ParseOne(Encode(f, mask) + tail) == Got(f, |Encode(f, mask)|)
    ensures (Encode(f, mask) + tail)[|Encode(f, mask)|..] == tail
  {
    hide Encode, ToBe, FromBe, Masked, Pow256;
    var n := |f.payload|;
    EncodedFields(f, mask, tail);
    Powers();
    if n >= 126 {
      BeRoundTrip(n, if n <= 0xffff then 2 else 8);
    }
    if mask.Some? {
      MaskedTwice(f.payload, mask.value);
    }
  }

  /** A frame over the limit is refused by its length field alone, before its payload is there. */
  lemma OversizedRefused(f: Frame, mask: Option<Bytes>, n: nat)
    requires f.opcode < 16 && Key(mask) && MAX_FRAME_PAYLOAD_BYTES < |f.payload| < Pow256(8)
    requires 10 <= n <= |Encode(f, mask)|
    ensures ParseOne(Encode(f, mask)[..n]) == TooLarge
  {
    hide Encode, ToBe, FromBe, Masked, Pow256;
    EncodedFields(f, mask, []);
    BeRoundTrip(|f.payload|, 8);
    var all := Encode(f, mask);
    assert all + [] == all;
    var b := all[..n];
    assert b[1] == all[1] && b[2..10] == all[2..10];
  }

  function EncodeAll(fs: seq<Frame>, masks: seq<Option<Bytes>>): Bytes
    requires |masks| == |fs| && forall i :: 0 <= i < |fs| ==> Sendable(fs[i]) && Key(masks[i])
  {
    if fs == [] then []
    else
      assert Sendable(fs[0]);
      Encode(fs[0], masks[0]) + EncodeAll(fs[1..], masks[1..])
  }

  /** Any run of encoded frames decodes to exactly those frames, with nothing left over. */
  lemma {:induction false} CodecRoundTrip(fs: seq<Frame>, masks: seq<Option<Bytes>>)
    requires |masks| == |fs| && forall i :: 0 <= i < |fs| ==> Sendable(fs[i]) && Key(masks[i])
    ensures ParseAll(EncodeAll(fs, masks)) == Frames(fs, [])
  {
    hide Encode, ParseOne;
    if fs == [] {
      assert ParseOne([]) == Need by { NothingYet(); }
    } else {
      FrameRoundTrip(fs[0], masks[0], EncodeAll(fs[1..], masks[1..]));
      CodecRoundTrip(fs[1..], masks[1..]);
      assert [fs[0]] + fs[1..] == fs;
    }
  }

  lemma NothingYet()
    ensures ParseOne([]) == Need
  {
  }

  // ----- bytes arriving in pieces -----

  /** More bytes change the verdict on the first frame only if it was still incomplete. */
  lemma ParseOneExtends(a: Bytes, b: Bytes)
    ensures !ParseOne(a).Need? ==> ParseOne(a + b) == ParseOne(a)
    ensures ParseOne(a).Got? ==> (a + b)[ParseOne(a).size..] == a[ParseOne(a).size..] + b
  {
    hide Masked, FromBe;
    if |a| >= 2 {
      assert (a + b)[0] == a[0] && (a + b)[1] == a[1];
      if |a| >= 4 { assert (a + b)[2..4] == a[2..4]; }
      if |a| >= 10 { assert (a + b)[2..10] == a[2..10]; }
      var short := a[1] % 128;
      var h := if short == 126 then 4 else if short == 127 then 10 else 2;
      if |a| >= h {
        var length := if short == 126 then FromBe(a[2..4]) else if short == 127 then FromBe(a[2..10]) else short;
        assert ParseOne(a) == ParseBody(a, h, length);
        assert ParseOne(a + b) == ParseBody(a + b, h, length);
        BodyExtends(a, b, h, length);
      }
    }
  }

  lemma BodyExtends(a: Bytes, b: Bytes, h: nat, length: nat)
    requires 2 <= h <= |a|
    ensures !ParseBody(a, h, length).Need? ==> ParseBody(a + b, h, length) == ParseBody(a, h, length)
  {
    hide Masked;
    var m := if a[1] >= 128 then 4 else 0;
    var end := h + m + length;
    assert (a + b)[0] == a[0] && (a + b)[1] == a[1];
    if end <= |a| {
      assert (a + b)[h + m..end] == a[h + m..end];
      if m == 4 {
        assert (a + b)[h..h + 4] == a[h..h + 4];
      }
    }
  }

  /** A frame is read from its own bytes alone. */
  lemma ParseOneLocal(a: Bytes, b: Bytes)
    requires ParseOne(a + b).Got? && ParseOne(a + b).size <= |a|
    ensures ParseOne(a) == ParseOne(a + b)
  {
    hide Masked, FromBe;
    var c := a + b;
    assert c[0] == a[0] && c[1] == a[1];
    var short := a[1] % 128;
    var h := if short == 126 then 4 else if short == 127 then 10 else 2;
    if h == 4 { assert c[2..4] == a[2..4]; }
    if h == 10 { assert c[2..10] == a[2..10]; }
    var length := if short == 126 then FromBe(a[2..4]) else if short == 127 then FromBe(a[2..10]) else short;
    assert ParseOne(c) == ParseBody(c, h, length);
    assert ParseOne(a) == ParseBody(a, h, length);
    BodyExtends(a, b, h, length);
  }

  /** Parsing a first part and then its rest with what follows is parsing the whole. */
  lemma {:induction false} ParseSplit(a: Bytes, b: Bytes)
    ensures match ParseAll(a)
            case Failed => ParseAll(a + b) == Failed
            case Frames(fs, rest) => ParseAll(a + b) == PrependAll(fs, ParseAll(rest + b))
    decreases |a|
  {
    hide ParseOne;
    ParseOneExtends(a, b);
    match ParseOne(a)
    case Need =>
      assert PrependAll([], ParseAll(a + b)) == ParseAll(a + b);
    case TooLarge =>
    case Got(f, n) =>
      ParseSplit(a[n..], b);
      match ParseAll(a[n..]) {
        case Failed =>
        case Frames(fs, rest) => PrependTwice(f, fs, ParseAll(rest + b));
      }
  }

  lemma PrependTwice(f: Frame, fs: seq<Frame>, d: Decoded)
    ensures Prepend(f, PrependAll(fs, d)) == PrependAll([f] + fs, d)
  {
    if d.Frames? {
      assert [f] + (fs + d.frames) == ([f] + fs) + d.frames;
    }
  }

  /** What stays behind after a parse is less than one largest frame. */
  lemma {:induction false} RestIsShort(b: Bytes)
    ensures ParseAll(b).Frames? ==> ParseOne(ParseAll(b).rest).Need? && |ParseAll(b).rest| < MAX_FRAME_PAYLOAD_BYTES + 14
    decreases |b|
  {
    if ParseOne(b).Got? {
      RestIsShort(b[ParseOne(b).size..]);
    }
  }
}
