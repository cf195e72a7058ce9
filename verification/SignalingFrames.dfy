/** The signaling server's own frame reader (`readFrame`, `createFrameHeader`, the loop of `handleData`),
    and its agreement with the transport's. */
module SignalingFrames {
  import opened Common
  import opened FrameCodec

  /** 2^53 - 1, the largest length the server takes for a number. */
  const MAX_SAFE_INTEGER: nat := 0x1f_ffff_ffff_ffff

  datatype Read = Incomplete | Oversized | Whole(opcode: nat, payload: Bytes, consumed: nat)

  /** Length field of the frame at the start of a buffer, and where what follows it begins. */
  datatype Head = NoHead | HugeHead | Head(length: nat, offset: nat)

  function ReadHead(b: Bytes): (h: Head)
    requires |b| >= 2
    ensures h.Head? ==> 2 <= h.offset <= |b|
  {
    var short := b[1] % 128;
    if short == 126 then if |b| < 4 then NoHead else Head(FromBe(b[2..4]), 4)
    else if short == 127 then
      if |b| < 10 then NoHead
      else if FromBe(b[2..10]) > MAX_SAFE_INTEGER then HugeHead else Head(FromBe(b[2..10]), 10)
    else Head(short, 2)
  }

  /** `readFrame`. */
  function ReadFrame(b: Bytes): (r: Read)
    requires |b| >= 2
    ensures r.Whole? ==> 2 <= r.consumed <= |b|
  {
    match ReadHead(b)
    case NoHead => Incomplete
    case HugeHead => Oversized
    case Head(length, maskOffset) =>
      var masked := b[1] >= 128;
      var offset := maskOffset + if masked then 4 else 0;
      if |b| < offset + length then Incomplete
      else
        var raw := b[offset..offset + length];
        Whole(b[0] % 16, if masked then Masked(raw, b[maskOffset..maskOffset + 4]) else raw, offset + length)
  }

  method ReadFrameInPlace(buffer: Bytes) returns (r: Read)
    requires |buffer| >= 2
    ensures r == ReadFrame(buffer)
  {
    hide FromBe, Masked;
    var opcode, masked := buffer[0] % 16, buffer[1] >= 128;
    var length: nat, offset := buffer[1] % 128, 2;
    if length == 126 {
      if |buffer| < 4 { return Incomplete; }
      length, offset := FromBe(buffer[2..4]), 4;
    } else if length == 127 {
      if |buffer| < 10 { return Incomplete; }
      var bigLength := FromBe(buffer[2..10]);
      if bigLength > MAX_SAFE_INTEGER { return Oversized; }
      length, offset := bigLength, 10;
    }
    assert ReadHead(buffer) == Head(length, offset);
    var maskOffset := offset;
    if masked {
      offset := offset + 4;
    }
    if |buffer| < offset + length { return Incomplete; }
    var payload := buffer[offset..offset + length];
    if masked {
      var unmasked := Unmask(payload, buffer[maskOffset..maskOffset + 4]);
      payload := unmasked[..];
    }
    r := Whole(opcode, payload, offset + length);
  }

  /** `createFrameHeader`. */
  method CreateFrameHeader(length: nat, opcode: nat) returns (header: Bytes)
    requires opcode < 16
    ensures forall payload: Bytes :: |payload| == length ==> header + payload == Encode(Frame(true, opcode, payload), None)
  {
    if length < 126 {
      header := [128 + opcode, length];
    } else if length <= 0xffff {
      header := [128 + opcode, 126] + ToBe(length, 2);
    } else {
      header := [128 + opcode, 127] + ToBe(length, 8);
    }
  }

  /** Frames up to an incomplete or oversized one. */
  datatype Readings = Readings(frames: seq<(nat, Bytes)>, rest: Bytes, oversized: bool)

  function ReadAll(b: Bytes): Readings
    decreases |b|
  {
    if |b| < 2 then Readings([], b, false)
    else match ReadFrame(b)
      case Incomplete => Readings([], b, false)
      case Oversized => Readings([], b, true)
      case Whole(opcode, payload, n) =>
        var more := ReadAll(b[n..]);
        Readings([(opcode, payload)] + more.frames, more.rest, more.oversized)
  }

  /** No length declared in the stream, up to the point where it is incomplete, exceeds 16 MiB. */
  predicate LengthsWithin(b: Bytes)
    decreases |b|
  {
    |b| >= 2 ==>
      match ReadHead(b)
      case NoHead => true
      case HugeHead => false
      case Head(length, _) =>
        && length <= MAX_FRAME_PAYLOAD_BYTES
        && (ReadFrame(b).Whole? ==> LengthsWithin(b[ReadFrame(b).consumed..]))
  }

  /** One frame: the two readers differ only on lengths above 16 MiB, and on whether they keep the
      fin bit. */
  lemma ReadersAgreeOnOne(b: Bytes)
    requires |b| >= 2
    ensures ParseOne(b) ==
      match ReadHead(b)
      case NoHead => Need
      case HugeHead => TooLarge
      case Head(length, _) =>
        if length > MAX_FRAME_PAYLOAD_BYTES then TooLarge
        else match ReadFrame(b)
          case Whole(opcode, payload, n) => Got(Frame(b[0] >= 128, opcode, payload), n)
          case _ => Need
  {
    hide FromBe, Masked;
  }

  function Bare(f: Frame): (nat, Bytes) {
    (f.opcode, f.payload)
  }

  function BareAll(fs: seq<Frame>): seq<(nat, Bytes)> {
    if fs == [] then [] else [Bare(fs[0])] + BareAll(fs[1..])
  }

  /** On every byte string: the transport's parser refuses it exactly when some declared length exceeds
      16 MiB; otherwise both readers find the same opcodes and payloads and leave the same bytes. */
  lemma {:induction false} ReadersAgree(b: Bytes)
    ensures ParseAll(b).Failed? <==> !LengthsWithin(b)
    ensures ParseAll(b).Frames? ==> ReadAll(b) == Readings(BareAll(ParseAll(b).frames), ParseAll(b).rest, false)
    decreases |b|
  {
    hide ReadHead, ParseOne, ReadFrame;
    if |b| < 2 {
      ShortNeeds(b);
    } else {
      ReadersAgreeOnOne(b);
      HeadOfWhole(b);
      if ReadFrame(b).Whole? && ParseOne(b).Got? {
        var n := ReadFrame(b).consumed;
        ReadersAgree(b[n..]);
        if ParseAll(b[n..]).Frames? {
          assert ([ParseOne(b).frame] + ParseAll(b[n..]).frames)[1..] == ParseAll(b[n..]).frames;
        }
      }
    }
  }

  lemma HeadOfWhole(b: Bytes)
    requires |b| >= 2
    ensures ReadFrame(b).Whole? ==> ReadHead(b).Head?
    ensures ReadFrame(b).Oversized? <==> ReadHead(b).HugeHead?
  {
    hide FromBe, Masked;
  }

  // ----- the connection -----

  datatype Reaction = OnText(payload: Bytes) | Pong(payload: Bytes) | CloseNow

  /** What the loop of `handleData` does with its frames: it answers pings, hands on text, and stops at a
      close frame. */
  function Reactions(frames: seq<(nat, Bytes)>): seq<Reaction> {
    if frames == [] then []
    else if frames[0].0 == 8 then [CloseNow]
    else ReactionTo(frames[0]) + Reactions(frames[1..])
  }

  function ReactionTo(frame: (nat, Bytes)): seq<Reaction> {
    if frame.0 == 9 then [Pong(frame.1)] else if frame.0 == 1 then [OnText(frame.1)] else []
  }

  /** Text is handed on, a ping is answered with its payload, a close frame closes, anything else is ignored. */
  lemma SingleReaction(opcode: nat, payload: Bytes)
    ensures Reactions([(opcode, payload)]) ==
      if opcode == 1 then [OnText(payload)] else if opcode == 9 then [Pong(payload)] else if opcode == 8 then [CloseNow] else []
  {
    assert [(opcode, payload)][1..] == [];
  }

  /** Frames are reacted to in their order, up to the first close frame. */
  lemma {:induction false} ReactionsInOrder(a: seq<(nat, Bytes)>, b: seq<(nat, Bytes)>)
    ensures Reactions(a + b) == if (exists i :: 0 <= i < |a| && a[i].0 == 8) then Reactions(a) else Reactions(a) + Reactions(b)
    ensures CloseNow in Reactions(a) <==> exists i :: 0 <= i < |a| && a[i].0 == 8
    decreases |a|
  {
    hide ReactionTo;
    if a == [] {
      assert a + b == b;
    } else {
      assert (a + b)[1..] == a[1..] + b;
      ReactionsInOrder(a[1..], b);
      assert CloseNow !in ReactionTo(a[0]) by { NoClosing(a[0]); }
      assert forall i :: 0 < i < |a| ==> a[i] == a[1..][i - 1];
      if exists i :: 0 <= i < |a[1..]| && a[1..][i].0 == 8 {
        var i :| 0 <= i < |a[1..]| && a[1..][i].0 == 8;
        assert a[i + 1].0 == 8;
      }
      assert (ReactionTo(a[0]) + Reactions(a[1..])) + Reactions(b) == ReactionTo(a[0]) + (Reactions(a[1..]) + Reactions(b));
    }
  }

  lemma NoClosing(frame: (nat, Bytes))
    ensures CloseNow !in ReactionTo(frame)
  {
  }

  /** The server's own limit: a length is too large only when it is no safe integer. */
  lemma OversizedExactly(b: Bytes)
    requires |b| >= 2
    ensures ReadFrame(b).Oversized? <==> b[1] % 128 == 127 && |b| >= 10 && FromBe(b[2..10]) > 9_007_199_254_740_991
  {
    hide FromBe, Masked;
  }

  lemma NextReaction(b: Bytes)
    requires |b| >= 2
    ensures !ReadFrame(b).Whole? ==>
      ReadAll(b).rest == b && ReadAll(b).oversized == ReadFrame(b).Oversized? && Reactions(ReadAll(b).frames) == []
    ensures ReadFrame(b).Whole? ==>
      var r := ReadFrame(b);
      var more := ReadAll(b[r.consumed..]);
      && ReadAll(b).rest == more.rest && ReadAll(b).oversized == more.oversized
      && Reactions(ReadAll(b).frames) == if r.opcode == 8 then [CloseNow] else ReactionTo((r.opcode, r.payload)) + Reactions(more.frames)
  {
    hide ReadFrame;
    if ReadFrame(b).Whole? {
      assert ReadAll(b).frames[1..] == ReadAll(b[ReadFrame(b).consumed..]).frames;
    }
  }

  lemma TooShort(b: Bytes)
    requires |b| < 2
    ensures ReadAll(b) == Readings([], b, false) && Reactions([]) == []
  {
  }

  class MinimalWebSocketConnection {
    var buffer: Bytes
    var reactions: seq<Reaction>

    constructor ()
      ensures buffer == [] && reactions == []
    {
      buffer, reactions := [], [];
    }

    /** One chunk. Until a close frame is met, everything complete is reacted to and the rest kept; an
        oversized length ends the connection after the frames before it. */
    method HandleData(chunk: Bytes) returns (protocolError: bool)
      modifies this
      ensures var all := ReadAll(old(buffer) + chunk);
        && reactions == old(reactions) + Reactions(all.frames) + (if protocolError then [CloseNow] else [])
        && (protocolError <==> all.oversized && CloseNow !in Reactions(all.frames))
        && (CloseNow !in Reactions(all.frames) ==> buffer == all.rest)
    {
      hide ReadFrame, ReadAll, Reactions;
      buffer := buffer + chunk;
      ghost var all := ReadAll(buffer);
      protocolError := false;
      while |buffer| >= 2
        invariant old(reactions) + Reactions(all.frames) == reactions + Reactions(ReadAll(buffer).frames)
        invariant CloseNow in Reactions(all.frames) <==> CloseNow in Reactions(ReadAll(buffer).frames)
        invariant ReadAll(buffer).rest == all.rest && ReadAll(buffer).oversized == all.oversized
        decreases |buffer|
      {
        NextReaction(buffer);
        var frame := ReadFrameInPlace(buffer);
        if frame.Incomplete? {
          return;
        }
        if frame.Oversized? {
          protocolError := true;
          reactions := reactions + [CloseNow];
          return;
        }
        buffer := buffer[frame.consumed..];
        if frame.opcode == 8 {
          reactions := reactions + [CloseNow];
          return;
        }
        if frame.opcode == 9 {
          reactions := reactions + [Pong(frame.payload)];
        } else if frame.opcode == 1 {
          reactions := reactions + [OnText(frame.payload)];
        }
      }
      TooShort(buffer);
    }
  }
}
