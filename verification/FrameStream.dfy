/** The receiving end of a socket: frames out of chunks of bytes, messages out of frames
    (RFC 6455 section 5.4), as `acceptSocketConnection` does it. */
module FrameStream {
  import opened Common
  import opened FrameCodec

  const MAX_PENDING_RECEIVE_BYTES: nat := MAX_FRAME_PAYLOAD_BYTES + 14

  /** What is handed to `dispatchFrame`. */
  datatype Message = Message(opcode: nat, payload: Bytes)

  /** The message begun and not finished, and what was dispatched so far. */
  datatype Assembler = Assembler(fragment: Option<Message>, out: seq<Message>)

  /** One frame; `None` stands for a protocol error. */
  function Accept(a: Assembler, f: Frame): Option<Assembler> {
    if f.opcode == 0 then
      if a.fragment.None? then None
      else
        var joined := a.fragment.value.payload + f.payload;
        if |joined| > MAX_FRAME_PAYLOAD_BYTES then None
        else if f.fin then Some(Assembler(None, a.out + [Message(a.fragment.value.opcode, joined)]))
        else Some(a.(fragment := Some(Message(a.fragment.value.opcode, joined))))
    else if f.opcode == 1 || f.opcode == 2 then
      if a.fragment.Some? then None
      else if f.fin then Some(a.(out := a.out + [Message(f.opcode, f.payload)]))
      else Some(a.(fragment := Some(Message(f.opcode, f.payload))))
    else Some(a.(out := a.out + [Message(f.opcode, f.payload)]))
  }

  datatype Progress = Progress(asm: Assembler, ok: bool)

  /** Frames in order, up to the first error. */
  function AcceptAll(a: Assembler, fs: seq<Frame>): Progress
    decreases |fs|
  {
    if fs == [] then Progress(a, true)
    else match Accept(a, fs[0])
      case None => Progress(a, false)
      case Some(b) => AcceptAll(b, fs[1..])
  }

  /** A close frame, or a text that is not JSON, closes the connection once it is dispatched. */
  predicate Closing(json: Bytes -> bool, m: Message) {
    m.opcode == 8 || (m.opcode == 1 && !json(m.payload))
  }

  predicate AnyClosing(json: Bytes -> bool, out: seq<Message>) {
    exists i :: 0 <= i < |out| && Closing(json, out[i])
  }

  datatype Conn = Conn(pending: Bytes, asm: Assembler, open: bool, failed: bool)

  const Idle := Assembler(None, [])
  const Opened := Conn([], Idle, true, false)

  function Fail(c: Conn, asm: Assembler): Conn {
    Conn([], asm, false, true)
  }

  /** The `data` handler. A closed connection gets no more data. All frames of a chunk are dispatched,
      even when one of them closes the connection. */
  function OnData(json: Bytes -> bool, c: Conn, chunk: Bytes): Conn {
    if !c.open then c
    else if |c.pending| + |chunk| > MAX_PENDING_RECEIVE_BYTES then Fail(c, c.asm)
    else match ParseAll(c.pending + chunk)
      case Failed => Fail(c, c.asm)
      case Frames(fs, rest) =>
        var p := AcceptAll(c.asm, fs);
        if !p.ok then Fail(c, p.asm) else Conn(rest, p.asm, !AnyClosing(json, p.asm.out), false)
  }

  function Feed(json: Bytes -> bool, chunks: seq<Bytes>): Conn {
    if chunks == [] then Opened else OnData(json, Feed(json, chunks[..|chunks| - 1]), chunks[|chunks| - 1])
  }

  class SocketReceiver {
    var pending: Bytes
    var fragmentedOpcode: Option<nat>
    var fragmentedPayload: Bytes
    var dispatched: seq<Message>
    var open: bool
    var failed: bool
    const json: Bytes -> bool

    ghost predicate Valid()
      reads this
    {
      && (fragmentedOpcode.None? ==> fragmentedPayload == [])
      && (open ==> !failed && !AnyClosing(json, dispatched))
    }

    ghost function Asm(): Assembler
      reads this
    {
      Assembler(if fragmentedOpcode.None? then None else Some(Message(fragmentedOpcode.value, fragmentedPayload)), dispatched)
    }

    ghost function Abs(): Conn
      reads this
    {
      Conn(pending, Asm(), open, failed)
    }

    constructor (json: Bytes -> bool)
      ensures Valid() && Abs() == Opened && this.json == json
    {
      this.json := json;
      pending, fragmentedOpcode, fragmentedPayload := [], None, [];
      dispatched, open, failed := [], true, false;
    }

    method DispatchFrame(opcode: nat, payload: Bytes)
      modifies this`dispatched, this`open
      ensures dispatched == old(dispatched) + [Message(opcode, payload)]
      ensures open <==> old(open) && !Closing(json, Message(opcode, payload))
    {
      dispatched := dispatched + [Message(opcode, payload)];
      if opcode == 8 {
        open := false;
      } else if opcode == 1 && !json(payload) {
        open := false;
      }
    }

    /** Fragmentation state and dispatch for one frame; the flag tells whether an error was thrown. */
    method AcceptFrame(frame: Frame) returns (ok: bool)
      requires fragmentedOpcode.None? ==> fragmentedPayload == []
      requires open <==> !AnyClosing(json, dispatched)
      modifies this`fragmentedOpcode, this`fragmentedPayload, this`dispatched, this`open
      ensures ok <==> Accept(old(Asm()), frame).Some?
      ensures ok ==> Asm() == Accept(old(Asm()), frame).value && (fragmentedOpcode.None? ==> fragmentedPayload == [])
      ensures !ok ==> dispatched == old(dispatched)
      ensures open <==> !AnyClosing(json, dispatched)
    {
      ghost var before := dispatched;
      ok := true;
      if frame.opcode == 0 {
        if fragmentedOpcode.None? { return false; }
        if |fragmentedPayload + frame.payload| > MAX_FRAME_PAYLOAD_BYTES { return false; }
        fragmentedPayload := fragmentedPayload + frame.payload;
        if frame.fin {
          DispatchFrame(fragmentedOpcode.value, fragmentedPayload);
          ClosingSnoc(json, before, Message(fragmentedOpcode.value, fragmentedPayload));
          fragmentedOpcode, fragmentedPayload := None, [];
        }
      } else if frame.opcode == 1 || frame.opcode == 2 {
        if fragmentedOpcode.Some? { return false; }
        if frame.fin {
          DispatchFrame(frame.opcode, frame.payload);
          ClosingSnoc(json, before, Message(frame.opcode, frame.payload));
        } else {
          fragmentedOpcode, fragmentedPayload := Some(frame.opcode), frame.payload;
        }
      } else {
        DispatchFrame(frame.opcode, frame.payload);
        ClosingSnoc(json, before, Message(frame.opcode, frame.payload));
      }
    }

    /** `parsePending`, and what the `data` handler does when it throws. */
    method Data(chunk: Bytes)
      requires Valid()
      modifies this
      ensures Valid()
      ensures Visible(Abs()) == Visible(OnData(json, old(Abs()), chunk))
    {
      if !open {
        return;
      }
      hide Accept, ParseOne;
      if |pending| > MAX_PENDING_RECEIVE_BYTES || |chunk| > MAX_PENDING_RECEIVE_BYTES - |pending| {
        pending, open, failed := [], false, true;
        return;
      }
      var parsed := ParseFrames(pending + chunk);
      if parsed.None? {
        pending, open, failed := [], false, true;
        return;
      }
      var frames := parsed.value.0;
      pending := parsed.value.1;
      for k := 0 to |frames|
        invariant !failed && (fragmentedOpcode.None? ==> fragmentedPayload == []) && pending == parsed.value.1
        invariant open <==> !AnyClosing(json, dispatched)
        invariant AcceptAll(old(Asm()), frames) == AcceptAll(Asm(), frames[k..])
      {
        assert frames[k..][0] == frames[k] && frames[k..][1..] == frames[k + 1..];
        var ok := AcceptFrame(frames[k]);
        if !ok {
          pending, open, failed := [], false, true;
          fragmentedOpcode, fragmentedPayload := None, [];
          return;
        }
      }
    }
  }

  /** What can be observed of a connection: once it failed its fragment no longer matters. */
  function Visible(c: Conn): Conn {
    if c.failed then c.(asm := c.asm.(fragment := None)) else c
  }

  lemma ClosingSnoc(json: Bytes -> bool, out: seq<Message>, m: Message)
    ensures AnyClosing(json, out + [m]) <==> AnyClosing(json, out) || Closing(json, m)
  {
    var all := out + [m];
    assert all[|out|] == m;
    assert forall i :: 0 <= i < |out| ==> all[i] == out[i];
  }

  // ----- the whole stream, read in one go -----

  /** Every frame in a stream up to the first one that is too large or incomplete. */
  function Reading(b: Bytes): seq<Frame>
    decreases |b|
  {
    match ParseOne(b)
    case Got(f, n) => [f] + Reading(b[n..])
    case _ => []
  }

  /** What a stream says: the messages of its frames, up to the first protocol error. */
  function MessagesOf(stream: Bytes): seq<Message> {
    AcceptAll(Idle, Reading(stream)).asm.out
  }

  predicate ErrorFree(stream: Bytes) {
    ParseAll(stream).Frames? && AcceptAll(Idle, Reading(stream)).ok
  }

  lemma {:induction false} ReadingIsParse(b: Bytes)
    ensures ParseAll(b).Frames? ==> ParseAll(b).frames == Reading(b)
    decreases |b|
  {
    hide ParseOne;
    if ParseOne(b).Got? {
      ReadingIsParse(b[ParseOne(b).size..]);
    }
  }

  /** Reading on: the frames of a first part, and then those of its rest with what follows. */
  lemma {:induction false} ReadingSplit(a: Bytes, b: Bytes)
    ensures ParseAll(a).Frames? ==> Reading(a + b) == Reading(a) + Reading(ParseAll(a).rest + b)
    ensures ParseAll(a).Failed? ==> Reading(a + b) == Reading(a)
    decreases |a|
  {
    hide ParseOne;
    ParseOneExtends(a, b);
    match ParseOne(a)
    case Need => assert Reading(a) == [];
    case TooLarge =>
    case Got(f, n) =>
      ReadingSplit(a[n..], b);
      if ParseAll(a[n..]).Frames? {
        assert [f] + (Reading(a[n..]) + Reading(ParseAll(a).rest + b)) == ([f] + Reading(a[n..])) + Reading(ParseAll(a).rest + b);
      }
  }

  lemma {:induction false} AcceptSplit(a: Assembler, fs: seq<Frame>, gs: seq<Frame>)
    ensures AcceptAll(a, fs + gs) == if AcceptAll(a, fs).ok then AcceptAll(AcceptAll(a, fs).asm, gs) else AcceptAll(a, fs)
    decreases |fs|
  {
    hide Accept;
    if fs == [] {
      assert fs + gs == gs;
    } else {
      assert (fs + gs)[1..] == fs[1..] + gs;
      if Accept(a, fs[0]).Some? {
        AcceptSplit(Accept(a, fs[0]).value, fs[1..], gs);
      }
    }
  }

  lemma {:induction false} OutGrows(a: Assembler, fs: seq<Frame>)
    ensures a.out <= AcceptAll(a, fs).asm.out
    decreases |fs|
  {
    if fs != [] && Accept(a, fs[0]).Some? {
      OutGrows(Accept(a, fs[0]).value, fs[1..]);
    }
  }

  lemma MessagesGrow(a: Bytes, b: Bytes)
    ensures MessagesOf(a) <= MessagesOf(a + b)
    ensures ErrorFree(a + b) ==> ErrorFree(a)
  {
    hide AcceptAll;
    ReadingSplit(a, b);
    ParseSplit(a, b);
    if ParseAll(a).Frames? {
      AcceptSplit(Idle, Reading(a), Reading(ParseAll(a).rest + b));
      OutGrows(AcceptAll(Idle, Reading(a)).asm, Reading(ParseAll(a).rest + b));
    }
  }

  // ----- chunk boundaries -----

  /** Where a connection that is still open stands after the bytes `stream`. */
  ghost predicate Caught(json: Bytes -> bool, c: Conn, stream: Bytes) {
    && ErrorFree(stream) && c.pending == ParseAll(stream).rest && c.asm == AcceptAll(Idle, Reading(stream)).asm
    && !c.failed && !AnyClosing(json, c.asm.out)
  }

  lemma JoinSnoc(chunks: seq<Bytes>)
    requires chunks != []
    ensures Concat(chunks) == Concat(chunks[..|chunks| - 1]) + chunks[|chunks| - 1]
  {
    ConcatSnoc(chunks[..|chunks| - 1], chunks[|chunks| - 1]);
    assert chunks == chunks[..|chunks| - 1] + [chunks[|chunks| - 1]];
  }

  /** One more chunk on a connection that kept up so far. */
  lemma ChunkCatches(json: Bytes -> bool, c: Conn, stream: Bytes, chunk: Bytes)
    requires c.open && Caught(json, c, stream)
    ensures var d, all := OnData(json, c, chunk), stream + chunk;
      && d.asm.out <= MessagesOf(all)
      && (d.open ==> Caught(json, d, all))
      && (ErrorFree(all) && |c.pending| + |chunk| <= MAX_PENDING_RECEIVE_BYTES ==>
            !d.failed && d.asm.out == MessagesOf(all) && d.pending == ParseAll(all).rest && d.open == !AnyClosing(json, d.asm.out))
  {
    hide AcceptAll, ParseOne, AnyClosing;
    var all := stream + chunk;
    MessagesGrow(stream, chunk);
    ReadingSplit(stream, chunk);
    ParseSplit(stream, chunk);
    ReadingIsParse(c.pending + chunk);
    AcceptSplit(Idle, Reading(stream), Reading(c.pending + chunk));
    ReadingIsParse(stream);
    ReadingIsParse(all);
  }

  lemma EmptyCaught(json: Bytes -> bool)
    ensures Caught(json, Opened, [])
  {
  }

  /** Chunks arrive within the limit: none finds the buffer too full while the connection is open. */
  ghost predicate WithinCap(json: Bytes -> bool, chunks: seq<Bytes>) {
    forall k :: 0 <= k < |chunks| && Feed(json, chunks[..k]).open ==>
      |Feed(json, chunks[..k]).pending| + |chunks[k]| <= MAX_PENDING_RECEIVE_BYTES
  }

  /** For any bytes in any chunks: nothing is dispatched that the stream does not say, an open
      connection has dispatched all of it, and it never buffers a full largest frame. */
  lemma {:induction false} NothingInvented(json: Bytes -> bool, chunks: seq<Bytes>)
    ensures var c := Feed(json, chunks);
      && c.asm.out <= MessagesOf(Concat(chunks))
      && (c.open ==> Caught(json, c, Concat(chunks)))
      && |c.pending| < MAX_PENDING_RECEIVE_BYTES
      && (c.open && c.asm.fragment.Some? ==> |c.asm.fragment.value.payload| <= MAX_FRAME_PAYLOAD_BYTES)
  {
    hide AcceptAll, ParseAll, OnData, Caught, Reading;
    if chunks == [] {
      EmptyCaught(json);
    } else {
      var n := |chunks| - 1;
      var c := Feed(json, chunks[..n]);
      NothingInvented(json, chunks[..n]);
      JoinSnoc(chunks);
      MessagesGrow(Concat(chunks[..n]), chunks[n]);
      if c.open {
        ChunkCatches(json, c, Concat(chunks[..n]), chunks[n]);
      } else {
        ClosedIgnores(json, c, chunks[n]);
      }
      PendingShort(json, c, chunks[n]);
    }
    if Feed(json, chunks).open {
      CaughtFragment(json, Feed(json, chunks), Concat(chunks));
    }
  }

  lemma CaughtFragment(json: Bytes -> bool, c: Conn, stream: Bytes)
    requires Caught(json, c, stream)
    ensures c.asm.fragment.Some? ==> |c.asm.fragment.value.payload| <= MAX_FRAME_PAYLOAD_BYTES
  {
    ReadingSendable(stream);
    FragmentShort(Idle, Reading(stream));
  }

  lemma {:induction false} ReadingSendable(b: Bytes)
    ensures forall i :: 0 <= i < |Reading(b)| ==> Sendable(Reading(b)[i])
    decreases |b|
  {
    if ParseOne(b).Got? {
      ReadingSendable(b[ParseOne(b).size..]);
    }
  }

  lemma {:induction false} FragmentShort(a: Assembler, fs: seq<Frame>)
    requires forall i :: 0 <= i < |fs| ==> Sendable(fs[i])
    requires a.fragment.Some? ==> |a.fragment.value.payload| <= MAX_FRAME_PAYLOAD_BYTES
    ensures var f := AcceptAll(a, fs).asm.fragment; f.Some? ==> |f.value.payload| <= MAX_FRAME_PAYLOAD_BYTES
    decreases |fs|
  {
    if fs != [] && Accept(a, fs[0]).Some? {
      FragmentShort(Accept(a, fs[0]).value, fs[1..]);
    }
  }

  lemma PendingShort(json: Bytes -> bool, c: Conn, chunk: Bytes)
    requires |c.pending| < MAX_PENDING_RECEIVE_BYTES
    ensures |OnData(json, c, chunk).pending| < MAX_PENDING_RECEIVE_BYTES
  {
    hide ParseAll, AcceptAll;
    RestIsShort(c.pending + chunk);
  }

  /** Without errors, and with chunks within the limit, a connection has either kept up with every chunk
      or been closed by a message that an earlier chunk completed. */
  lemma {:induction false} KeepsUp(json: Bytes -> bool, chunks: seq<Bytes>) returns (n: nat)
    requires ErrorFree(Concat(chunks)) && WithinCap(json, chunks)
    ensures var c := Feed(json, chunks);
      && n <= |chunks| && !c.failed && c.asm.out == MessagesOf(Concat(chunks[..n]))
      && MessagesOf(Concat(chunks[..n])) <= MessagesOf(Concat(chunks))
      && (if c.open then n == |chunks| && c.pending == ParseAll(Concat(chunks)).rest else AnyClosing(json, c.asm.out))
  {
    hide AcceptAll, ParseAll, OnData, Caught, Reading, AnyClosing, MessagesOf, ErrorFree;
    n := |chunks|;
    assert chunks[..|chunks|] == chunks;
    if chunks == [] {
      EmptyCaught(json);
      assert MessagesOf([]) == [] && ParseAll([]).Frames? && ParseAll([]).rest == [] by { EmptyStream(); }
    } else {
      var m := |chunks| - 1;
      JoinSnoc(chunks);
      MessagesGrow(Concat(chunks[..m]), chunks[m]);
      CapPrefix(json, chunks, m);
      var k := KeepsUp(json, chunks[..m]);
      var c := Feed(json, chunks[..m]);
      assert chunks[..m][..k] == chunks[..k];
      NothingInvented(json, chunks[..m]);
      if c.open {
        ChunkCatches(json, c, Concat(chunks[..m]), chunks[m]);
      } else {
        n := k;
        assert OnData(json, c, chunks[m]) == c by { ClosedIgnores(json, c, chunks[m]); }
      }
    }
  }

  lemma EmptyStream()
    ensures MessagesOf([]) == [] && ParseAll([]) == Frames([], [])
  {
  }

  lemma ClosedIgnores(json: Bytes -> bool, c: Conn, chunk: Bytes)
    requires !c.open
    ensures OnData(json, c, chunk) == c
  {
  }

  lemma CapPrefix(json: Bytes -> bool, chunks: seq<Bytes>, m: nat)
    requires WithinCap(json, chunks) && m <= |chunks|
    ensures WithinCap(json, chunks[..m])
  {
    hide Feed;
    forall k | 0 <= k < m
      ensures chunks[..m][..k] == chunks[..k]
    {
    }
  }

  /** No message is dispatched after one that closes the connection. */
  ghost predicate ClosesLast(json: Bytes -> bool, out: seq<Message>) {
    forall i :: 0 <= i < |out| - 1 ==> !Closing(json, out[i])
  }

  /** Chunk boundaries do not matter: an error-free stream in which nothing follows a closing message
      dispatches the same messages however it is cut, and leaves the same bytes behind. */
  lemma SplitsAgree(json: Bytes -> bool, chunks: seq<Bytes>)
    requires ErrorFree(Concat(chunks)) && WithinCap(json, chunks) && ClosesLast(json, MessagesOf(Concat(chunks)))
    ensures var c := Feed(json, chunks);
      && !c.failed && c.asm.out == MessagesOf(Concat(chunks))
      && (c.open <==> !AnyClosing(json, c.asm.out)) && (c.open ==> c.pending == ParseAll(Concat(chunks)).rest)
  {
    hide Feed, MessagesOf, ErrorFree, ParseAll, WithinCap;
    var n := KeepsUp(json, chunks);
    NothingInvented(json, chunks);
    var c, all := Feed(json, chunks), MessagesOf(Concat(chunks));
    assert c.asm.out == all[..|c.asm.out|];
    if c.open {
      assert chunks[..n] == chunks;
      assert !AnyClosing(json, c.asm.out) by { CaughtOpen(json, c, Concat(chunks)); }
    } else {
      var i :| 0 <= i < |c.asm.out| && Closing(json, c.asm.out[i]);
      assert all[i] == c.asm.out[i];
      assert i == |all| - 1;
    }
  }

  lemma CaughtOpen(json: Bytes -> bool, c: Conn, stream: Bytes)
    requires Caught(json, c, stream)
    ensures !AnyClosing(json, c.asm.out)
  {
  }

  // ----- exactly when boundaries do not matter -----

  /** The bytes of the first `k` frames. */
  lemma {:induction false} CutAfter(stream: Bytes, k: nat) returns (n: nat)
    requires k <= |Reading(stream)|
    ensures n <= |stream| && ParseAll(stream[..n]) == Frames(Reading(stream)[..k], [])
    decreases |stream|
  {
    hide ParseOne;
    n := 0;
    if k == 0 {
      EmptyStream();
    } else {
      var size := ParseOne(stream).size;
      var m := CutAfter(stream[size..], k - 1);
      n := size + m;
      assert stream == stream[..n] + stream[n..];
      ParseOneLocal(stream[..n], stream[n..]);
      assert stream[..n][size..] == stream[size..][..m];
      assert [ParseOne(stream).frame] + Reading(stream[size..])[..k - 1] == Reading(stream)[..k];
    }
  }

  /** Messages are dispatched one at a time. */
  lemma {:induction false} FramesUntil(a: Assembler, fs: seq<Frame>, count: nat) returns (k: nat)
    requires AcceptAll(a, fs).ok && |a.out| <= count <= |AcceptAll(a, fs).asm.out|
    ensures k <= |fs| && AcceptAll(a, fs[..k]).ok && |AcceptAll(a, fs[..k]).asm.out| == count
    decreases |fs|
  {
    k := 0;
    if |a.out| < count {
      var b := Accept(a, fs[0]).value;
      var m := FramesUntil(b, fs[1..], count);
      k := m + 1;
      assert fs[..k][1..] == fs[1..][..m];
    }
  }

  /** A cut right after a message that closes the connection loses everything dispatched after it. */
  lemma CutAfterClose(json: Bytes -> bool, stream: Bytes, i: nat) returns (n: nat)
    requires ErrorFree(stream) && |stream| <= MAX_PENDING_RECEIVE_BYTES
    requires i < |MessagesOf(stream)| && Closing(json, MessagesOf(stream)[i])
    ensures n <= |stream| && WithinCap(json, [stream[..n], stream[n..]])
    ensures Feed(json, [stream[..n], stream[n..]]).asm.out == MessagesOf(stream)[..i + 1]
  {
    hide AcceptAll, ParseAll, Reading, OnData, AnyClosing;
    var all := Reading(stream);
    var k := FramesUntil(Idle, all, i + 1);
    n := CutAfter(stream, k);
    var a, b := stream[..n], stream[n..];
    assert a + b == stream;
    MessagesGrow(a, b);
    ReadingIsParse(a);
    assert MessagesOf(a) == MessagesOf(stream)[..i + 1];
    FirstChunk(json, a);
    var c := Feed(json, [a]);
    assert c.asm.out[i] == MessagesOf(stream)[i];
    assert AnyClosing(json, c.asm.out) by { HasClosing(json, c.asm.out, i); }
    TwoChunks(json, a, b);
    ClosedIgnores(json, c, b);
  }

  lemma HasClosing(json: Bytes -> bool, out: seq<Message>, i: nat)
    requires i < |out| && Closing(json, out[i])
    ensures AnyClosing(json, out)
  {
  }

  lemma FirstChunk(json: Bytes -> bool, a: Bytes)
    requires ErrorFree(a) && |a| <= MAX_PENDING_RECEIVE_BYTES
    ensures Feed(json, [a]).asm.out == MessagesOf(a) && Feed(json, [a]).open == !AnyClosing(json, MessagesOf(a))
  {
    hide AcceptAll, ParseAll, Reading, OnData, AnyClosing, Caught;
    assert [a][..0] == [];
    assert Feed(json, [a]) == OnData(json, Opened, a);
    EmptyCaught(json);
    assert [] + a == a;
    ChunkCatches(json, Opened, [], a);
  }

  lemma TwoChunks(json: Bytes -> bool, a: Bytes, b: Bytes)
    requires |a| + |b| <= MAX_PENDING_RECEIVE_BYTES && !Feed(json, [a]).open
    ensures Feed(json, [a, b]) == OnData(json, Feed(json, [a]), b) && WithinCap(json, [a, b])
  {
    hide OnData;
    assert [a, b][..1] == [a];
    assert [a, b][..0] == [];
  }

  /** The same bytes, one in each chunk. */
  function Singles(stream: Bytes): (chunks: seq<Bytes>)
    ensures |chunks| == |stream| && forall k :: 0 <= k < |chunks| ==> chunks[k] == [stream[k]]
  {
    seq(|stream|, k requires 0 <= k < |stream| => [stream[k]])
  }

  lemma {:induction false} SinglesJoin(stream: Bytes)
    ensures Concat(Singles(stream)) == stream
  {
    if stream != [] {
      assert Singles(stream)[1..] == Singles(stream[1..]);
      SinglesJoin(stream[1..]);
    }
  }

  /** One more byte completes at most one frame. */
  lemma OneByteOneFrame(rest: Bytes, b: Byte)
    requires ParseOne(rest).Need?
    ensures ParseAll(rest + [b]).Frames? ==> |ParseAll(rest + [b]).frames| <= 1
  {
    hide ParseOne;
    var all := rest + [b];
    if ParseOne(all).Got? {
      if ParseOne(all).size <= |rest| {
        ParseOneLocal(rest, [b]);
      }
      assert all[ParseOne(all).size..] == [];
      EmptyStream();
    }
  }

  lemma OneFrameOneMessage(a: Assembler, fs: seq<Frame>)
    requires |fs| <= 1
    ensures |AcceptAll(a, fs).asm.out| <= |a.out| + 1 && a.out <= AcceptAll(a, fs).asm.out
  {
    OutGrows(a, fs);
    if fs != [] {
      assert fs[1..] == [];
    }
  }

  /** So one more byte dispatches at most one message. */
  lemma OneByteMore(json: Bytes -> bool, c: Conn, b: Byte)
    requires ParseOne(c.pending).Need?
    ensures c.asm.out <= OnData(json, c, [b]).asm.out && |OnData(json, c, [b]).asm.out| <= |c.asm.out| + 1
  {
    hide ParseAll, ParseOne, AcceptAll, AnyClosing;
    OneByteOneFrame(c.pending, b);
    if ParseAll(c.pending + [b]).Frames? {
      OneFrameOneMessage(c.asm, ParseAll(c.pending + [b]).frames);
    }
  }

  /** Byte by byte, a connection is closed before anything follows the message that closes it. */
  lemma {:induction false} SinglesCloseLast(json: Bytes -> bool, stream: Bytes)
    ensures ClosesLast(json, Feed(json, Singles(stream)).asm.out) && WithinCap(json, Singles(stream))
  {
    hide ParseAll, ParseOne, AcceptAll, OnData, Reading;
    if stream != [] {
      var n := |stream| - 1;
      var chunks := Singles(stream);
      assert chunks[..n] == Singles(stream[..n]);
      SinglesCloseLast(json, stream[..n]);
      NothingInvented(json, chunks[..n]);
      SinglesCap(json, stream);
      var c := Feed(json, chunks[..n]);
      assert Feed(json, chunks) == OnData(json, c, [stream[n]]);
      if c.open {
        RestIsShort(Concat(chunks[..n]));
        OneByteMore(json, c, stream[n]);
      } else {
        ClosedIgnores(json, c, [stream[n]]);
      }
    }
  }

  lemma SinglesCap(json: Bytes -> bool, stream: Bytes)
    requires stream != [] && WithinCap(json, Singles(stream[..|stream| - 1]))
    requires |Feed(json, Singles(stream[..|stream| - 1])).pending| < MAX_PENDING_RECEIVE_BYTES
    ensures WithinCap(json, Singles(stream))
  {
    hide Feed;
    var n := |stream| - 1;
    var chunks, before := Singles(stream), Singles(stream[..n]);
    forall k | 0 <= k < |chunks| && Feed(json, chunks[..k]).open
      ensures |Feed(json, chunks[..k]).pending| + |chunks[k]| <= MAX_PENDING_RECEIVE_BYTES
    {
      if k < n {
        assert chunks[..k] == before[..k];
        assert |Feed(json, before[..k]).pending| + |before[k]| <= MAX_PENDING_RECEIVE_BYTES;
      } else {
        assert chunks[..k] == before;
      }
    }
  }

  /** Exactly when boundaries do not matter, for any error-free stream: all ways to cut it into chunks
      within the limit dispatch the same messages if and only if no message follows one that closes. */
  lemma AllSplitsAgree(json: Bytes -> bool, stream: Bytes)
    requires ErrorFree(stream)
    ensures ClosesLast(json, MessagesOf(stream)) <==>
      forall chunks: seq<Bytes> :: Concat(chunks) == stream && WithinCap(json, chunks) ==> Feed(json, chunks).asm.out == MessagesOf(stream)
  {
    hide MessagesOf, ErrorFree, Feed, WithinCap, Closing, Concat, ClosesLast;
    if ClosesLast(json, MessagesOf(stream)) {
      forall chunks: seq<Bytes> | Concat(chunks) == stream && WithinCap(json, chunks)
        ensures Feed(json, chunks).asm.out == MessagesOf(stream)
      {
        SplitsAgree(json, chunks);
      }
    } else {
      var chunks := Singles(stream);
      SinglesJoin(stream);
      SinglesCloseLast(json, stream);
      assert Concat(chunks) == stream && WithinCap(json, chunks);
    }
  }

  /** A close frame and a ping, four bytes in all. */
  const CloseThenPing: Bytes := [136, 0, 137, 0]

  /** It is free of errors, but the ping is dispatched in one chunk and lost byte by byte. */
  lemma PingAfterClose(json: Bytes -> bool)
    ensures ErrorFree(CloseThenPing) && MessagesOf(CloseThenPing) == [Message(8, []), Message(9, [])]
    ensures !ClosesLast(json, MessagesOf(CloseThenPing))
    ensures Feed(json, [CloseThenPing]).asm.out == [Message(8, []), Message(9, [])]
    ensures Feed(json, [[136, 0], [137, 0]]).asm.out == [Message(8, [])]
  {
    var close, ping := Frame(true, 8, []), Frame(true, 9, []);
    var a: Bytes, b: Bytes := [136, 0], [137, 0];
    var fs := [close, ping];
    TwoFrames(a, b, close, ping);
    assert a + b == CloseThenPing;
    ReadingIsParse(CloseThenPing);
    ReadingIsParse(a);
    AcceptOne(Idle, close);
    AcceptSplit(Idle, [close], [ping]);
    AcceptOne(Accept(Idle, close).value, ping);
    assert [close] + [ping] == fs;
    assert MessagesOf(CloseThenPing)[0] == Message(8, []);
    hide AcceptAll, ParseAll, Reading, OnData, AnyClosing, Feed, MessagesOf;
    FirstChunk(json, CloseThenPing);
    FirstChunk(json, a);
    HasClosing(json, MessagesOf(a), 0);
    TwoChunks(json, a, b);
    ClosedIgnores(json, Feed(json, [a]), b);
  }

  lemma TwoFrames(a: Bytes, b: Bytes, f: Frame, g: Frame)
    requires a == [128 + f.opcode, 0] && b == [128 + g.opcode, 0]
    requires f.opcode < 16 && g.opcode < 16 && f == Frame(true, f.opcode, []) && g == Frame(true, g.opcode, [])
    ensures ParseAll(a) == Frames([f], []) && ParseAll(a + b) == Frames([f, g], [])
  {
    hide ParseOne, ParseAll;
    assert a == Encode(f, None) && b == Encode(g, None);
    hide Encode;
    var one: seq<Option<Bytes>>, two: seq<Option<Bytes>> := [None], [None, None];
    CodecRoundTrip([f], one);
    CodecRoundTrip([f, g], two);
    OneFrame(f);
    OneFrame(g);
    assert [f, g][1..] == [g] && two[1..] == one;
    assert EncodeAll([f, g], two) == a + EncodeAll([g], one);
  }

  lemma OneFrame(f: Frame)
    requires Sendable(f)
    ensures EncodeAll([f], [None]) == Encode(f, None)
  {
    hide Encode;
    assert Encode(f, None) + [] == Encode(f, None);
  }

  // ----- fragmentation -----

  /** A message sent in fragments; `controls[i]` are the control frames sent before fragment `i`. */
  datatype Outgoing = Outgoing(opcode: nat, parts: seq<Bytes>, controls: seq<seq<Frame>>)

  predicate Control(f: Frame) {
    3 <= f.opcode < 16 && |f.payload| <= MAX_FRAME_PAYLOAD_BYTES
  }

  ghost predicate Proper(o: Outgoing) {
    && |o.parts| == |o.controls| && (o.opcode == 1 || o.opcode == 2) && |o.parts| > 0
    && |Concat(o.parts)| <= MAX_FRAME_PAYLOAD_BYTES
    && forall i, j :: 0 <= i < |o.controls| && 0 <= j < |o.controls[i]| ==> Control(o.controls[i][j])
  }

  function PartFrame(o: Outgoing, i: nat): Frame
    requires i < |o.parts|
  {
    Frame(i == |o.parts| - 1, if i == 0 then o.opcode else 0, o.parts[i])
  }

  /** The frames up to fragment `k`. */
  function FramesFirst(o: Outgoing, k: nat): seq<Frame> {
    if k == 0 || k > |o.parts| || k > |o.controls| then [] else FramesFirst(o, k - 1) + (o.controls[k - 1] + [PartFrame(o, k - 1)])
  }

  function Messages(fs: seq<Frame>): (r: seq<Message>)
    ensures |r| == |fs|
  {
    if fs == [] then [] else [Message(fs[0].opcode, fs[0].payload)] + Messages(fs[1..])
  }

  function ControlsFirst(o: Outgoing, k: nat): seq<Message> {
    if k == 0 || k > |o.controls| then [] else ControlsFirst(o, k - 1) + Messages(o.controls[k - 1])
  }

  lemma {:induction false} ControlsPass(a: Assembler, fs: seq<Frame>)
    requires forall j :: 0 <= j < |fs| ==> Control(fs[j])
    ensures AcceptAll(a, fs) == Progress(a.(out := a.out + Messages(fs)), true)
    decreases |fs|
  {
    if fs != [] {
      var b := Accept(a, fs[0]).value;
      ControlsPass(b, fs[1..]);
      assert a.out + ([Message(fs[0].opcode, fs[0].payload)] + Messages(fs[1..])) == b.out + Messages(fs[1..]);
    }
  }

  /** The fragments so far wait as one message; control frames between them go out at once. */
  lemma {:induction false} FragmentsGather(o: Outgoing, k: nat, out: seq<Message>)
    requires Proper(o) && k <= |o.parts|
    ensures AcceptAll(Assembler(None, out), FramesFirst(o, k)) == Progress(Gathered(o, k, out), true)
  {
    hide Accept, AcceptAll, Messages;
    if k == 0 {
      assert AcceptAll(Assembler(None, out), []) == Progress(Assembler(None, out), true) by { AcceptNone(Assembler(None, out)); }
    } else {
      var a := Gathered(o, k - 1, out);
      FragmentsGather(o, k - 1, out);
      var b := a.(out := a.out + Messages(o.controls[k - 1]));
      AcceptSplit(Assembler(None, out), FramesFirst(o, k - 1), o.controls[k - 1] + [PartFrame(o, k - 1)]);
      AcceptSplit(a, o.controls[k - 1], [PartFrame(o, k - 1)]);
      ControlsPass(a, o.controls[k - 1]);
      FragmentJoins(o, k, out);
      AcceptOne(b, PartFrame(o, k - 1));
    }
  }

  lemma AcceptNone(a: Assembler)
    ensures AcceptAll(a, []) == Progress(a, true)
  {
  }

  lemma AcceptOne(a: Assembler, f: Frame)
    requires Accept(a, f).Some?
    ensures AcceptAll(a, [f]) == Progress(Accept(a, f).value, true)
  {
    assert [f][1..] == [];
  }

  function Gathered(o: Outgoing, k: nat, out: seq<Message>): Assembler
    requires k <= |o.parts| == |o.controls|
  {
    var joined := Message(o.opcode, Concat(o.parts[..k]));
    if 0 < k < |o.parts| then Assembler(Some(joined), out + ControlsFirst(o, k))
    else Assembler(None, out + ControlsFirst(o, k) + if k == 0 then [] else [joined])
  }

  lemma FragmentJoins(o: Outgoing, k: nat, out: seq<Message>)
    requires Proper(o) && 0 < k <= |o.parts|
    ensures var a := Gathered(o, k - 1, out);
      Accept(a.(out := a.out + Messages(o.controls[k - 1])), PartFrame(o, k - 1)) == Some(Gathered(o, k, out))
  {
    hide Messages;
    var before, part := Concat(o.parts[..k - 1]), o.parts[k - 1];
    assert o.parts[..k] == o.parts[..k - 1] + [part];
    ConcatSnoc(o.parts[..k - 1], part);
    assert o.parts == o.parts[..k] + o.parts[k..];
    ConcatAppend(o.parts[..k], o.parts[k..]);
    hide Concat;
    var a := Gathered(o, k - 1, out);
    assert a.out + Messages(o.controls[k - 1]) == out + ControlsFirst(o, k) by {
      assert out + ControlsFirst(o, k - 1) + Messages(o.controls[k - 1]) == out + ControlsFirst(o, k);
      assert out + ControlsFirst(o, k - 1) + [] == out + ControlsFirst(o, k - 1);
    }
    if k == 1 {
      assert o.parts[..0] == [];
      NoBytes();
      assert before + part == part;
    }
    assert out + ControlsFirst(o, k) + [] == out + ControlsFirst(o, k);
  }

  lemma NoBytes()
    ensures Concat<Byte>([]) == []
  {
  }

  // ----- end to end -----

  function AllFrames(os: seq<Outgoing>): seq<Frame>
  {
    if os == [] then [] else AllFrames(os[..|os| - 1]) + FramesFirst(os[|os| - 1], |os[|os| - 1].parts|)
  }

  /** What a receiver is to see: for each message its control frames, then the message in one piece. */
  function AllMessages(os: seq<Outgoing>): seq<Message>
  {
    if os == [] then []
    else
      var o := os[|os| - 1];
      AllMessages(os[..|os| - 1]) + ControlsFirst(o, |o.parts|) + [Message(o.opcode, Concat(o.parts))]
  }

  lemma {:induction false} FragmentsJoin(os: seq<Outgoing>)
    requires forall i :: 0 <= i < |os| ==> Proper(os[i])
    ensures AcceptAll(Idle, AllFrames(os)) == Progress(Assembler(None, AllMessages(os)), true)
  {
    hide AcceptAll, FramesFirst, ControlsFirst, Concat;
    if os == [] {
      AcceptNone(Idle);
    } else {
      var n := |os| - 1;
      FragmentsJoin(os[..n]);
      AcceptSplit(Idle, AllFrames(os[..n]), FramesFirst(os[n], |os[n].parts|));
      FragmentsGather(os[n], |os[n].parts|, AllMessages(os[..n]));
      assert os[n].parts[..|os[n].parts|] == os[n].parts;
    }
  }

  /** From one end of the socket to the other: messages, each in any fragments, with control frames in
      between, every frame masked with any key or not, the bytes cut into any chunks within the limit,
      arrive as exactly those messages, as long as nothing follows one that closes. */
  lemma MessagesArrive(json: Bytes -> bool, os: seq<Outgoing>, masks: seq<Option<Bytes>>, chunks: seq<Bytes>)
    requires forall i :: 0 <= i < |os| ==> Proper(os[i])
    requires var fs := AllFrames(os);
      && |masks| == |fs| && (forall i :: 0 <= i < |fs| ==> Sendable(fs[i]) && Key(masks[i]))
      && Concat(chunks) == EncodeAll(fs, masks)
    requires WithinCap(json, chunks) && ClosesLast(json, AllMessages(os))
    ensures var c := Feed(json, chunks);
      && !c.failed && c.asm.out == AllMessages(os)
      && (c.open <==> !AnyClosing(json, AllMessages(os))) && (c.open ==> c.pending == [])
  {
    hide AcceptAll, ParseAll, Reading, Feed, AnyClosing, AllFrames, EncodeAll, Concat, ClosesLast, WithinCap;
    CodecRoundTrip(AllFrames(os), masks);
    ReadingIsParse(Concat(chunks));
    FragmentsJoin(os);
    SplitsAgree(json, chunks);
  }
}
