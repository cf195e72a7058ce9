/** Two parties: a receiving engine, and one honest peer that serves its requests over a FIFO channel.

    The peer answers one request at a time (`queueRequestedPiece`) and sends every chunk as a header
    and a binary frame, which are two separate steps; anything may happen at the receiver in between.
    Each send may fail, which abandons the answer wherever it stands: the next one begins all the same. */
module TransferProtocol {
  import opened Common
  import opened Pieces
  import opened ChunkAssembly
  import opened Availability
  import opened Engine
  import opened EngineSteps
  import opened EngineRuns
  import opened EngineEndings

  datatype Frame = HeaderFrame(header: Header) | BinaryFrame(bytes: Bytes) | RefusalFrame(id: RequestId)

  /** The serving peer: who it is, how it cuts pieces, and what each piece holds. */
  datatype Link = Link(peer: PeerId, chunkBytes: nat, content: Piece -> Bytes)

  /** `arrived` are the PIECE_REQUESTs that reached the peer, `jobs` those it has not begun to serve,
      `unsent` the rest of the current answer, `channel` what is under way. The rest is only observed:
      the frames sent and handled last, and the headers that were sent without their chunk. */
  datatype World = World(
    e: Engine, arrived: set<RequestId>, jobs: seq<RequestId>,
    unsent: seq<Frame>, channel: seq<Frame>,
    lastSent: Option<Frame>, lastTaken: Option<Frame>, torn: set<Header>)

  function Parts(link: Link, piece: Piece): seq<Bytes>
    requires link.chunkBytes > 0
  {
    var data := link.content(piece);
    Split(data, ChunkSize(link.chunkBytes, |data|))
  }

  function FrameAt(piece: Piece, id: RequestId, parts: seq<Bytes>, k: nat): Frame
    requires k < 2 * |parts|
  {
    if k % 2 == 0 then HeaderFrame(HeaderFor(piece, id, parts, k / 2)) else BinaryFrame(parts[k / 2])
  }

  /** Header, chunk, header, chunk, and so on. */
  function Frames(piece: Piece, id: RequestId, parts: seq<Bytes>): (r: seq<Frame>)
    ensures |r| == 2 * |parts|
    ensures forall k :: 0 <= k < |r| ==> r[k] == FrameAt(piece, id, parts, k)
  {
    seq(2 * |parts|, k requires 0 <= k < 2 * |parts| => FrameAt(piece, id, parts, k))
  }

  /** The send loop of `sendRequestedPiece`. */
  method ChunkFrames(piece: Piece, id: RequestId, data: Bytes, transferChunkBytes: nat) returns (frames: seq<Frame>)
    requires transferChunkBytes > 0
    ensures frames == Frames(piece, id, Split(data, ChunkSize(transferChunkBytes, |data|)))
  {
    var chunkSize := ChunkSize(transferChunkBytes, |data|);
    var totalChunks := TotalChunks(chunkSize, |data|);
    ghost var parts := Split(data, chunkSize);
    SplitJoins(data, chunkSize);
    hide Split, Frames, TotalChunks, Concat;
    frames := [];
    for chunkIndex := 0 to totalChunks
      invariant frames == Frames(piece, id, parts)[..2 * chunkIndex]
    {
      SplitAt(data, chunkSize, chunkIndex);
      var offset := chunkIndex * chunkSize;
      var chunk := data[offset..offset + Min(chunkSize, |data| - offset)];
      assert chunk == parts[chunkIndex];
      frames := frames + [HeaderFrame(Header(piece, id, chunkIndex, totalChunks, |chunk|))];
      frames := frames + [BinaryFrame(chunk)];
      FramesStep(piece, id, parts, chunkIndex);
    }
    assert Frames(piece, id, parts)[..2 * totalChunks] == Frames(piece, id, parts);
  }

  lemma FramesStep(piece: Piece, id: RequestId, parts: seq<Bytes>, i: nat)
    requires i < |parts|
    ensures Frames(piece, id, parts)[..2 * i + 2]
         == Frames(piece, id, parts)[..2 * i] + [HeaderFrame(HeaderFor(piece, id, parts, i))] + [BinaryFrame(parts[i])]
  {
    var f := Frames(piece, id, parts);
    assert f[2 * i] == FrameAt(piece, id, parts, 2 * i);
    assert f[2 * i + 1] == FrameAt(piece, id, parts, 2 * i + 1);
    assert f[..2 * i + 2] == f[..2 * i] + [f[2 * i]] + [f[2 * i + 1]];
  }

  datatype Move =
    | Receiver(action: Action)   // anything else the receiving engine does
    | Arrive(id: RequestId)      // a PIECE_REQUEST reaches the peer
    | Begin(has: bool)           // the peer turns to its next job, and has the piece or not
    | Send                       // the next frame of the answer is sent
    | GiveUp                     // sending the next frame fails: the answer is abandoned
    | Take                       // the receiver handles the next frame

  /** What reaches the receiver from the serving peer comes through the channel only. */
  predicate Elsewhere(a: Action, peer: PeerId) {
    match a
    case DoHeader(q, _) => q != peer
    case DoBinary(q, _) => q != peer
    case DoAck(q, _, _) => q != peer
    case DoReject(q, _) => q != peer
    case _ => true
  }

  predicate Can(link: Link, w: World, m: Move) {
    match m
    case Receiver(a) => Elsewhere(a, link.peer)
    case Arrive(id) => id < |w.e.issued| && w.e.issued[id].request.peer == link.peer && id !in w.arrived
    case Begin(_) => w.unsent == [] && w.jobs != [] && w.jobs[0] < |w.e.issued|
    case Send => w.unsent != []
    case GiveUp => w.unsent != []
    case Take => w.channel != []
  }

  function TakeAction(link: Link, f: Frame): Action {
    match f
    case HeaderFrame(h) => DoHeader(link.peer, h)
    case BinaryFrame(bytes) => DoBinary(link.peer, bytes)
    case RefusalFrame(id) => DoReject(link.peer, id)
  }

  /** The header just sent, if it is its chunk that is due. */
  function LeftAlone(w: World): set<Header> {
    if w.unsent != [] && w.unsent[0].BinaryFrame? && w.lastSent.Some? && w.lastSent.value.HeaderFrame?
    then {w.lastSent.value.header} else {}
  }

  function Next(link: Link, w: World, m: Move, env: Env): World
    requires link.chunkBytes > 0 && Can(link, w, m)
  {
    match m
    case Receiver(a) => w.(e := Step(w.e, a, env))
    case Arrive(id) => w.(arrived := w.arrived + {id}, jobs := w.jobs + [id])
    case Begin(has) =>
      var id, piece := w.jobs[0], w.e.issued[w.jobs[0]].request.piece;
      w.(jobs := w.jobs[1..], unsent := if has then Frames(piece, id, Parts(link, piece)) else [RefusalFrame(id)])
    case Send => w.(unsent := w.unsent[1..], channel := w.channel + [w.unsent[0]], lastSent := Some(w.unsent[0]))
    case GiveUp => w.(unsent := [], torn := w.torn + LeftAlone(w))
    case Take =>
      w.(e := Step(w.e, TakeAction(link, w.channel[0]), env), channel := w.channel[1..], lastTaken := Some(w.channel[0]))
  }

  // ----- what is on the wire -----

  /** One answer's frames that the receiver has yet to handle: positions `from` to `to` of the answer. */
  datatype Segment = Answer(piece: Piece, id: RequestId, parts: seq<Bytes>, from: nat, to: nat) | Refusing(id: RequestId)

  predicate Whole(link: Link, s: Segment)
    requires link.chunkBytes > 0
  {
    s.Answer? ==> s.from < s.to <= 2 * |s.parts| && s.parts == Parts(link, s.piece)
  }

  function SegmentFrames(s: Segment): seq<Frame> {
    match s
    case Answer(piece, id, parts, from, to) => if from <= to <= 2 * |parts| then Frames(piece, id, parts)[from..to] else []
    case Refusing(id) => [RefusalFrame(id)]
  }

  function Wire(plan: seq<Segment>): seq<Frame> {
    if plan == [] then [] else SegmentFrames(plan[0]) + Wire(plan[1..])
  }

  lemma {:induction false} WireSnoc(plan: seq<Segment>, s: Segment)
    ensures Wire(plan + [s]) == Wire(plan) + SegmentFrames(s)
  {
    hide SegmentFrames;
    if plan == [] {
      assert [s][1..] == [];
      assert Wire([s]) == SegmentFrames(s) + Wire([]);
    } else {
      assert (plan + [s])[1..] == plan[1..] + [s];
      WireSnoc(plan[1..], s);
    }
  }

  // ----- the invariant -----

  ghost predicate Scheduled(link: Link, w: World, plan: seq<Segment>)
    requires link.chunkBytes > 0
  {
    && (forall i :: 0 <= i < |plan| ==> Whole(link, plan[i]) && plan[i].id in w.arrived && plan[i].id !in w.jobs)
    && (forall i :: 0 <= i < |plan| && plan[i].Answer? ==>
          plan[i].id < |w.e.issued| && w.e.issued[plan[i].id].request.piece == plan[i].piece)
    && (forall i :: 1 <= i < |plan| && plan[i].Answer? ==> plan[i].from == 0)
    && (forall i, j :: 0 <= i < j < |plan| ==> plan[i].id != plan[j].id)
    && Distinct(w.jobs) && (forall id :: id in w.jobs ==> id in w.arrived)
    && (forall id :: id in w.arrived ==> id < |w.e.issued| && w.e.issued[id].request.peer == link.peer)
  }

  /** The frames under way and still to be sent are those of the plan; the latter end the last answer. */
  ghost predicate Laid(w: World, plan: seq<Segment>) {
    && Wire(plan) == w.channel + w.unsent
    && (w.unsent != [] ==> plan != [] && |w.unsent| <= |SegmentFrames(plan[|plan| - 1])|)
  }

  /** An answer still being sent is to be sent in full, and the frame before the next one went last. */
  ghost predicate Sending(w: World, plan: seq<Segment>) {
    w.unsent != [] && plan != [] && plan[|plan| - 1].Answer? ==>
      var s := plan[|plan| - 1];
      && s.to == 2 * |s.parts|
      && (|w.unsent| < s.to ==> w.lastSent == Some(FrameAt(s.piece, s.id, s.parts, s.to - |w.unsent| - 1)))
  }

  /** A segment that ends with a header whose chunk was never sent. */
  predicate Torn(s: Segment) {
    s.Answer? && s.to % 2 == 1 && s.to < 2 * |s.parts|
  }

  function LastHeader(s: Segment): Header
    requires Torn(s)
  {
    HeaderFor(s.piece, s.id, s.parts, s.to / 2)
  }

  /** Headers without a chunk end the answers they belong to, as far as those are still on the wire. */
  ghost predicate TornPlaced(w: World, plan: seq<Segment>) {
    && (forall h :: h in w.torn ==> h.id in w.arrived && h.id !in w.jobs && 0 <= h.chunkIndex < h.totalChunks)
    && (forall i :: 0 <= i < |plan| && Torn(plan[i]) ==> LastHeader(plan[i]) in w.torn)
    && (forall i, h :: 0 <= i < |plan| && h in w.torn && plan[i].id == h.id ==> Torn(plan[i]) && h == LastHeader(plan[i]))
  }

  /** When a chunk is next, its header was taken last. */
  ghost predicate InStep(w: World, plan: seq<Segment>) {
    plan != [] && plan[0].Answer? && plan[0].from % 2 == 1 && plan[0].from < 2 * |plan[0].parts| ==>
      w.lastTaken == Some(FrameAt(plan[0].piece, plan[0].id, plan[0].parts, plan[0].from - 1))
  }

  /** The chunk announced by the waiting header is next. */
  predicate Waiting(h: Header, plan: seq<Segment>) {
    && plan != [] && plan[0].Answer? && plan[0].from % 2 == 1 && plan[0].from < 2 * |plan[0].parts|
    && h == HeaderFor(plan[0].piece, plan[0].id, plan[0].parts, plan[0].from / 2)
  }

  /** The place of the announced chunk is empty. */
  predicate SlotFree(e: Engine, h: Header) {
    h.id in e.incoming ==>
      var a := e.incoming[h.id];
      a.totalChunks == h.totalChunks == |a.chunks| && 0 <= h.chunkIndex < |a.chunks| && a.chunks[h.chunkIndex].None?
  }

  /** The waiting header is one without a chunk, and nothing more of its answer will come. */
  ghost predicate LeftWaiting(w: World, h: Header, plan: seq<Segment>) {
    h in w.torn && (forall i :: 0 <= i < |plan| ==> plan[i].id != h.id) && SlotFree(w.e, h)
  }

  ghost predicate Slot(link: Link, w: World, plan: seq<Segment>) {
    link.peer in w.e.pending ==> Waiting(w.e.pending[link.peer], plan) || LeftWaiting(w, w.e.pending[link.peer], plan)
  }

  /** Only chunks that were taken are in place, and they are the right ones. */
  ghost predicate Prefixed(a: Assembly, s: Segment) {
    && s.Answer? && a.totalChunks == |s.parts| && |a.chunks| == |s.parts|
    && forall i :: 0 <= i < |a.chunks| && a.chunks[i].Some? ==> 2 * i + 2 <= s.from && a.chunks[i] == Some(s.parts[i])
  }

  predicate Ours(link: Link, e: Engine, id: RequestId) {
    id < |e.issued| && e.issued[id].request.peer == link.peer
  }

  ghost predicate ArrivalsInOrder(link: Link, w: World, plan: seq<Segment>) {
    forall id :: id in w.e.incoming && Ours(link, w.e, id) ==>
      && id in w.arrived && id !in w.jobs
      && (forall i :: 1 <= i < |plan| ==> plan[i].id != id)
      && (plan != [] && plan[0].id == id ==> Prefixed(w.e.incoming[id], plan[0]))
  }

  ghost predicate Tracks(link: Link, w: World, plan: seq<Segment>)
    requires link.chunkBytes > 0
  {
    && Scheduled(link, w, plan) && Laid(w, plan) && Sending(w, plan) && TornPlaced(w, plan)
    && InStep(w, plan) && Slot(link, w, plan) && ArrivalsInOrder(link, w, plan)
  }

  ghost predicate Inv(link: Link, w: World)
    requires link.chunkBytes > 0
  {
    Books(w.e) && (w.e.disposed || exists plan :: Tracks(link, w, plan))
  }

  // ----- the receiver does something else -----

  /** Nothing that has to do with the serving peer is added. */
  ghost predicate Apart(link: Link, a: Engine, b: Engine) {
    && a.issued <= b.issued
    && (link.peer in b.pending ==> link.peer in a.pending && a.pending[link.peer] == b.pending[link.peer])
    && (forall id :: id in b.incoming && Ours(link, b, id) ==> Ours(link, a, id) && id in a.incoming && a.incoming[id] == b.incoming[id])
  }

  lemma GoesApart(link: Link, a: Engine, b: Engine)
    requires Goes(a, b) && Arrivals(a)
    ensures Apart(link, a, b)
  {
    forall id | id in b.incoming && Ours(link, b, id)
      ensures Ours(link, a, id)
    {
      assert Arrives(a, id, a.incoming[id]);
    }
  }

  lemma ApartTrans(link: Link, a: Engine, b: Engine, c: Engine)
    requires Apart(link, a, b) && Apart(link, b, c)
    ensures Apart(link, a, c)
  {
  }

  lemma HeaderApart(link: Link, e: Engine, q: PeerId, h: Header, env: Env)
    requires Books(e) && q != link.peer
    ensures Apart(link, e, ReceiveHeader(e, q, h, env))
  {
    hide RejectChunk, Goes, Active;
    RejectChunkGoes(e, q, h, env);
    GoesApart(link, e, RejectChunk(e, q, h, env));
  }

  lemma ThenApart(link: Link, e: Engine, m: Engine, b: Engine)
    requires Apart(link, e, m) && Arrivals(m) && Goes(m, b)
    ensures Apart(link, e, b)
  {
    hide Apart, Goes, Arrivals;
    GoesApart(link, m, b);
    ApartTrans(link, e, m, b);
  }

  lemma BinaryApart(link: Link, e: Engine, q: PeerId, frame: Bytes, env: Env)
    requires Books(e) && q != link.peer
    ensures Apart(link, e, ReceiveBinary(e, q, frame, env))
  {
    if q in e.pending {
      ChunkApart(link, e, q, frame, env);
    } else {
      SameApart(link, e);
    }
    hide Books, Apart, RejectChunk, Deliver, AppendChunk;
  }

  lemma ChunkApart(link: Link, e: Engine, q: PeerId, frame: Bytes, env: Env)
    requires Books(e) && q != link.peer && q in e.pending
    ensures Apart(link, e, ReceiveBinary(e, q, frame, env))
  {
    hide Goes, ReceiveBinary, RejectChunk, Deliver, AppendChunk, Books, Arrivals, Apart, Sound;
    BooksArrivals(e);
    var h := e.pending[q];
    var e1 := e.(pending := e.pending - {q});
    FrameTaken(e, q, frame);
    var r := AppendChunk(if h.id in e.incoming then Some(e.incoming[h.id]) else None, q, h, frame);
    BinaryIs(e, q, frame, env, h, r);
    match r
    case Reject =>
      PendingApart(link, e, q, e1);
      RejectChunkGoes(e1, q, h, env);
      ThenApart(link, e, e1, RejectChunk(e1, q, h, env));
    case Incomplete(a) =>
      assert e.incoming[h.id := a] - {h.id} == e.incoming - {h.id};
      PendingApart(link, e, q, e.(pending := e.pending - {q}, incoming := e.incoming[h.id := a]));
    case Complete(data) =>
      var e2 := e.(pending := e.pending - {q}, incoming := e.incoming - {h.id});
      assert e2.incoming - {h.id} == e.incoming - {h.id};
      PendingApart(link, e, q, e2);
      DeliverGoes(e2, q, h, data, env);
      ThenApart(link, e, e2, Deliver(e2, q, h, data, env));
  }

  lemma PendingApart(link: Link, e: Engine, q: PeerId, b: Engine)
    requires Arrivals(e) && q != link.peer && q in e.pending
    requires b == e.(pending := e.pending - {q}, incoming := b.incoming)
    requires b.incoming - {e.pending[q].id} == e.incoming - {e.pending[q].id}
    ensures Apart(link, e, b)
  {
    var id := e.pending[q].id;
    assert Announces(e, q, e.pending[q]);
    forall i | i in b.incoming && Ours(link, b, i)
      ensures i in e.incoming && e.incoming[i] == b.incoming[i]
    {
      assert i in b.incoming - {id};
    }
  }

  lemma StepApart(link: Link, e: Engine, a: Action, env: Env)
    requires Books(e) && Elsewhere(a, link.peer)
    ensures Apart(link, e, Step(e, a, env))
  {
    hide Books, Goes, Apart, Arrivals, Trims, ReceiveHeader, ReceiveBinary, CancelDirect;
    StayKeeps(e);
    BooksArrivals(e);
    GoesApart(link, e, e);
    if a.DoHeader? {
      HeaderApart(link, e, a.peer, a.header, env);
    } else if a.DoBinary? {
      BinaryApart(link, e, a.peer, a.frame, env);
    } else if a.DoDispose? {
      if !e.disposed {
        var c := CancelDirect(e, Everything);
        CancelGoes(e, Everything);
        GoesApart(link, e, c);
        SameArrivalsApart(link, e, c, Dispose(e));
      }
    } else {
      OtherStepGoes(e, a, env);
      GoesApart(link, e, Step(e, a, env));
    }
  }

  lemma SameArrivalsApart(link: Link, e: Engine, c: Engine, d: Engine)
    requires Apart(link, e, c) && d.issued == c.issued && d.pending == c.pending && d.incoming == c.incoming
    ensures Apart(link, e, d)
  {
  }

  lemma ApartKeepsTracks(link: Link, w: World, e: Engine, plan: seq<Segment>)
    requires link.chunkBytes > 0 && Tracks(link, w, plan) && Apart(link, w.e, e)
    ensures Tracks(link, w.(e := e), plan)
  {
    hide Scheduled, Slot, ArrivalsInOrder, Apart, Laid, Sending, TornPlaced, InStep;
    ApartSchedules(link, w, e, plan);
    ApartArrivals(link, w, e, plan);
    ApartSlot(link, w, e, plan);
    SameFrames(w, w.(e := e), plan);
    SameTorn(w, w.(e := e), plan);
  }

  lemma ApartSchedules(link: Link, w: World, e: Engine, plan: seq<Segment>)
    requires link.chunkBytes > 0 && Scheduled(link, w, plan) && Apart(link, w.e, e)
    ensures Scheduled(link, w.(e := e), plan)
  {
    hide Whole;
    assert forall id :: 0 <= id < |w.e.issued| ==> e.issued[id] == w.e.issued[id];
  }

  lemma ApartArrivals(link: Link, w: World, e: Engine, plan: seq<Segment>)
    requires ArrivalsInOrder(link, w, plan) && Apart(link, w.e, e)
    ensures ArrivalsInOrder(link, w.(e := e), plan)
  {
    hide Prefixed;
  }

  lemma ApartSlot(link: Link, w: World, e: Engine, plan: seq<Segment>)
    requires link.chunkBytes > 0 && Slot(link, w, plan) && TornPlaced(w, plan) && Scheduled(link, w, plan) && Apart(link, w.e, e)
    ensures Slot(link, w.(e := e), plan)
  {
    if link.peer in e.pending && LeftWaiting(w, e.pending[link.peer], plan) {
      OursLater(link, w, e, plan, e.pending[link.peer]);
    }
    hide Waiting, Scheduled, TornPlaced;
  }

  lemma SameFrames(w: World, n: World, plan: seq<Segment>)
    requires Laid(w, plan) && Sending(w, plan) && InStep(w, plan)
    requires n.unsent == w.unsent && n.channel == w.channel && n.lastSent == w.lastSent && n.lastTaken == w.lastTaken
    ensures Laid(n, plan) && Sending(n, plan) && InStep(n, plan)
  {
    hide Wire, SegmentFrames, FrameAt;
  }

  // ----- the serving peer -----

  lemma ArriveTracks(link: Link, w: World, id: RequestId, env: Env, plan: seq<Segment>)
    requires link.chunkBytes > 0 && Tracks(link, w, plan) && Can(link, w, Arrive(id))
    ensures Tracks(link, Next(link, w, Arrive(id), env), plan)
  {
    hide Scheduled, Slot, ArrivalsInOrder, Laid, Sending, TornPlaced, InStep, Frames, Parts, Step;
    ArriveSchedules(link, w, id, env, plan);
    ArriveArrivals(link, w, id, env, plan);
    SameFrames(w, Next(link, w, Arrive(id), env), plan);
    ArriveSlot(link, w, id, env, plan);
  }

  lemma ArriveSchedules(link: Link, w: World, id: RequestId, env: Env, plan: seq<Segment>)
    requires link.chunkBytes > 0 && Scheduled(link, w, plan) && TornPlaced(w, plan) && Can(link, w, Arrive(id))
    ensures Scheduled(link, Next(link, w, Arrive(id), env), plan) && TornPlaced(Next(link, w, Arrive(id), env), plan)
  {
    hide Whole, Torn, LastHeader, Frames, Parts, Step;
  }

  lemma ArriveArrivals(link: Link, w: World, id: RequestId, env: Env, plan: seq<Segment>)
    requires link.chunkBytes > 0 && ArrivalsInOrder(link, w, plan) && Can(link, w, Arrive(id))
    ensures ArrivalsInOrder(link, Next(link, w, Arrive(id), env), plan)
  {
    hide Prefixed, Frames, Parts, Step;
  }

  lemma ArriveSlot(link: Link, w: World, id: RequestId, env: Env, plan: seq<Segment>)
    requires link.chunkBytes > 0 && Slot(link, w, plan) && Can(link, w, Arrive(id))
    ensures Slot(link, Next(link, w, Arrive(id), env), plan)
  {
    hide Waiting, SlotFree, Frames, Parts, Step;
  }

  /** The frames still to be sent end the last segment. */
  lemma UnsentEnds(w: World, plan: seq<Segment>)
    requires Laid(w, plan) && w.unsent != [] && plan != []
    ensures var n, f := |plan| - 1, SegmentFrames(plan[|plan| - 1]);
      && |w.unsent| <= |f| && w.unsent == f[|f| - |w.unsent|..]
      && w.channel == Wire(plan[..n]) + f[..|f| - |w.unsent|]
  {
    hide SegmentFrames, Wire;
    var n := |plan| - 1;
    assert plan == plan[..n] + [plan[n]];
    WireSnoc(plan[..n], plan[n]);
    SplitEnd(Wire(plan[..n]), SegmentFrames(plan[n]), w.channel, w.unsent);
  }

  /** The next frame to send. */
  lemma UnsentHead(link: Link, w: World, plan: seq<Segment>)
    requires link.chunkBytes > 0 && Laid(w, plan) && w.unsent != [] && plan != [] && Whole(link, plan[|plan| - 1])
    ensures var s := plan[|plan| - 1];
      && (s.Answer? ==>
            && s.from + |w.unsent| <= s.to
            && w.unsent[0] == FrameAt(s.piece, s.id, s.parts, s.to - |w.unsent|))
      && (s.Refusing? ==> |w.unsent| == 1 && w.unsent[0] == RefusalFrame(s.id))
  {
    hide SegmentFrames, Wire, Parts, FrameAt, Laid;
    UnsentEnds(w, plan);
    EndOfSegment(plan[|plan| - 1], w.unsent);
  }

  lemma EndOfSegment(s: Segment, end: seq<Frame>)
    requires s.Answer? ==> s.from < s.to <= 2 * |s.parts|
    requires 0 < |end| <= |SegmentFrames(s)| && end == SegmentFrames(s)[|SegmentFrames(s)| - |end|..]
    ensures s.Answer? ==> s.from + |end| <= s.to && end[0] == FrameAt(s.piece, s.id, s.parts, s.to - |end|)
    ensures s.Refusing? ==> |end| == 1 && end[0] == RefusalFrame(s.id)
  {
    hide SegmentFrames, FrameAt;
    if s.Answer? {
      SegmentTake(s, s.from);
      SegmentTake(s, s.to - |end|);
    } else {
      RefusalWire(s);
    }
  }

  lemma LastWhole(link: Link, w: World, plan: seq<Segment>)
    requires link.chunkBytes > 0 && Tracks(link, w, plan) && w.unsent != []
    ensures plan != [] && Whole(link, plan[|plan| - 1])
  {
  }

  lemma SendTracks(link: Link, w: World, env: Env, plan: seq<Segment>)
    requires link.chunkBytes > 0 && Tracks(link, w, plan) && Can(link, w, Send)
    ensures Tracks(link, Next(link, w, Send, env), plan)
  {
    LastWhole(link, w, plan);
    hide Wire, SegmentFrames, Whole, Scheduled, InStep, Slot, Waiting, LeftWaiting, Laid, Sending, TornPlaced, ArrivalsInOrder;
    var n := Next(link, w, Send, env);
    SendLaid(link, w, env, plan);
    SameTorn(w, n, plan);
    SameArrivalsInOrder(link, w, n, plan);
    SameRest(link, w, n, plan);
  }

  lemma SendLaid(link: Link, w: World, env: Env, plan: seq<Segment>)
    requires link.chunkBytes > 0 && Laid(w, plan) && Sending(w, plan) && w.unsent != [] && plan != [] && Whole(link, plan[|plan| - 1])
    ensures Laid(Next(link, w, Send, env), plan) && Sending(Next(link, w, Send, env), plan)
  {
    hide Wire, SegmentFrames, Whole, FrameAt;
    UnsentHead(link, w, plan);
    assert w.channel + w.unsent == (w.channel + [w.unsent[0]]) + w.unsent[1..];
  }

  /** What does not look at the frames still to be sent. */
  lemma SameRest(link: Link, w: World, n: World, plan: seq<Segment>)
    requires link.chunkBytes > 0 && Scheduled(link, w, plan) && InStep(w, plan) && Slot(link, w, plan)
    requires n.e == w.e && n.arrived == w.arrived && n.jobs == w.jobs && n.lastTaken == w.lastTaken && n.torn == w.torn
    ensures Scheduled(link, n, plan) && InStep(n, plan) && Slot(link, n, plan)
  {
    hide Whole, SlotFree, FrameAt, Waiting;
  }

  lemma SameTorn(w: World, n: World, plan: seq<Segment>)
    requires TornPlaced(w, plan) && n.torn == w.torn && n.arrived == w.arrived && n.jobs == w.jobs
    ensures TornPlaced(n, plan)
  {
    hide Torn, LastHeader;
  }

  lemma SameArrivalsInOrder(link: Link, w: World, n: World, plan: seq<Segment>)
    requires ArrivalsInOrder(link, w, plan) && n.e == w.e && n.arrived == w.arrived && n.jobs == w.jobs
    ensures ArrivalsInOrder(link, n, plan)
  {
    hide Prefixed;
  }

  function NextAnswer(link: Link, w: World, has: bool): Segment
    requires link.chunkBytes > 0 && w.jobs != [] && w.jobs[0] < |w.e.issued|
  {
    var id, piece := w.jobs[0], w.e.issued[w.jobs[0]].request.piece;
    if has then Answer(piece, id, Parts(link, piece), 0, 2 * |Parts(link, piece)|) else Refusing(id)
  }

  lemma BeginSends(link: Link, w: World, has: bool, env: Env)
    requires link.chunkBytes > 0 && Can(link, w, Begin(has))
    ensures Next(link, w, Begin(has), env).unsent == SegmentFrames(NextAnswer(link, w, has))
  {
    hide Parts, FrameAt;
    var id, piece := w.jobs[0], w.e.issued[w.jobs[0]].request.piece;
    var f := Frames(piece, id, Parts(link, piece));
    assert f[0..2 * |Parts(link, piece)|] == f;
  }

  lemma BeginTracks(link: Link, w: World, has: bool, env: Env, plan: seq<Segment>)
    requires link.chunkBytes > 0 && Tracks(link, w, plan) && Can(link, w, Begin(has))
    ensures Tracks(link, Next(link, w, Begin(has), env), plan + [NextAnswer(link, w, has)])
  {
    hide Scheduled, ArrivalsInOrder, Parts, NextAnswer, Laid, Sending, TornPlaced, InStep, Slot;
    BeginSchedules(link, w, has, env, plan);
    BeginArrivals(link, w, has, env, plan);
    BeginLaid(link, w, has, env, plan);
    BeginTorn(link, w, has, env, plan);
    BeginSlot(link, w, has, env, plan);
  }

  lemma BeginLaid(link: Link, w: World, has: bool, env: Env, plan: seq<Segment>)
    requires link.chunkBytes > 0 && Laid(w, plan) && Can(link, w, Begin(has))
    ensures Laid(Next(link, w, Begin(has), env), plan + [NextAnswer(link, w, has)])
    ensures Sending(Next(link, w, Begin(has), env), plan + [NextAnswer(link, w, has)])
  {
    BeginSends(link, w, has, env);
    WireSnoc(plan, NextAnswer(link, w, has));
    assert w.channel + w.unsent == w.channel;
    var s := NextAnswer(link, w, has);
    assert s.Answer? ==> s.from == 0 && s.to == 2 * |s.parts|;
    AnswerLength(s);
    hide Wire, SegmentFrames, Parts, NextAnswer, FrameAt;
  }

  lemma AnswerLength(s: Segment)
    requires s.Answer? ==> s.from <= s.to <= 2 * |s.parts|
    ensures s.Answer? ==> |SegmentFrames(s)| == s.to - s.from
  {
    hide FrameAt;
  }

  lemma BeginTorn(link: Link, w: World, has: bool, env: Env, plan: seq<Segment>)
    requires link.chunkBytes > 0 && TornPlaced(w, plan) && InStep(w, plan) && Can(link, w, Begin(has))
    ensures TornPlaced(Next(link, w, Begin(has), env), plan + [NextAnswer(link, w, has)])
    ensures InStep(Next(link, w, Begin(has), env), plan + [NextAnswer(link, w, has)])
  {
    var n, s := Next(link, w, Begin(has), env), NextAnswer(link, w, has);
    assert !Torn(s) && s.id == w.jobs[0] && (s.Answer? ==> s.from == 0);
    hide Parts, Frames, NextAnswer, Torn, LastHeader, FrameAt;
    var after := plan + [s];
    assert forall i :: 0 <= i < |plan| ==> after[i] == plan[i];
    assert forall h :: h in w.torn ==> h.id != s.id;
  }

  lemma BeginSlot(link: Link, w: World, has: bool, env: Env, plan: seq<Segment>)
    requires link.chunkBytes > 0 && Slot(link, w, plan) && TornPlaced(w, plan) && Can(link, w, Begin(has))
    ensures Slot(link, Next(link, w, Begin(has), env), plan + [NextAnswer(link, w, has)])
  {
    assert NextAnswer(link, w, has).id == w.jobs[0];
    hide Parts, Frames, NextAnswer, SlotFree, Torn, LastHeader;
    var after := plan + [NextAnswer(link, w, has)];
    assert forall i :: 0 <= i < |plan| ==> after[i] == plan[i];
  }

  lemma BeginArrivals(link: Link, w: World, has: bool, env: Env, plan: seq<Segment>)
    requires link.chunkBytes > 0 && ArrivalsInOrder(link, w, plan) && Can(link, w, Begin(has))
    ensures ArrivalsInOrder(link, Next(link, w, Begin(has), env), plan + [NextAnswer(link, w, has)])
  {
    hide Parts, Frames, Prefixed;
    var n, after := Next(link, w, Begin(has), env), plan + [NextAnswer(link, w, has)];
    forall id | id in n.e.incoming && Ours(link, n.e, id)
      ensures id !in n.jobs && forall i :: 1 <= i < |after| ==> after[i].id != id
      ensures after[0].id == id ==> Prefixed(n.e.incoming[id], after[0])
    {
      assert id != w.jobs[0];
    }
  }

  lemma BeginSchedules(link: Link, w: World, has: bool, env: Env, plan: seq<Segment>)
    requires link.chunkBytes > 0 && Scheduled(link, w, plan) && Can(link, w, Begin(has))
    ensures Scheduled(link, Next(link, w, Begin(has), env), plan + [NextAnswer(link, w, has)])
  {
    hide Parts, Frames;
    var jobs, s, after := w.jobs[1..], NextAnswer(link, w, has), plan + [NextAnswer(link, w, has)];
    forall j, k | 0 <= j < k < |jobs|
      ensures jobs[j] != jobs[k]
    {
      assert jobs[j] == w.jobs[j + 1] && jobs[k] == w.jobs[k + 1];
    }
    assert forall k :: 0 <= k < |jobs| ==> jobs[k] == w.jobs[k + 1];
    assert s.id == w.jobs[0] && s.id in w.jobs;
    assert Whole(link, s) by { PartsNonEmpty(link, w.e.issued[w.jobs[0]].request.piece); }
    forall i | 0 <= i < |after|
      ensures Whole(link, after[i]) && after[i].id in w.arrived && after[i].id !in jobs
    {
    }
  }

  lemma PartsNonEmpty(link: Link, piece: Piece)
    requires link.chunkBytes > 0
    ensures |Parts(link, piece)| > 0
  {
  }

  /** What is left of a plan when the frames not yet sent are given up. */
  function Cut(plan: seq<Segment>, unsent: nat): seq<Segment>
    requires plan != []
  {
    var n := |plan| - 1;
    var s := plan[n];
    if s.Answer? && s.from + unsent < s.to then plan[..n] + [s.(to := s.to - unsent)] else plan[..n]
  }

  lemma SplitEnd<T>(a: seq<T>, s: seq<T>, channel: seq<T>, unsent: seq<T>)
    requires a + s == channel + unsent && |unsent| <= |s|
    ensures unsent == s[|s| - |unsent|..]
    ensures channel == a + s[..|s| - |unsent|]
  {
    var k := |s| - |unsent|;
    assert |channel| == |a| + k;
    assert unsent == (channel + unsent)[|channel|..];
    assert unsent == (a + s)[|a| + k..];
    assert channel == (channel + unsent)[..|channel|];
    assert channel == (a + s)[..|a| + k];
  }

  /** The first frames of a segment, and the frame after them. */
  lemma SegmentTake(s: Segment, k: nat)
    requires s.Answer? && s.from <= k < s.to <= 2 * |s.parts|
    ensures |SegmentFrames(s)| == s.to - s.from
    ensures SegmentFrames(s)[..k - s.from] == SegmentFrames(s.(to := k))
    ensures SegmentFrames(s)[k - s.from] == FrameAt(s.piece, s.id, s.parts, k)
  {
    hide FrameAt;
    var f := Frames(s.piece, s.id, s.parts);
    assert f[s.from..s.to][..k - s.from] == f[s.from..k];
  }

  /** What is left of a segment without its last frames. */
  lemma KeptFrames(s: Segment, unsent: nat)
    requires s.Answer? ==> s.from < s.to <= 2 * |s.parts|
    requires 0 < unsent <= |SegmentFrames(s)|
    ensures s.Answer? ==> s.from + unsent <= s.to
    ensures SegmentFrames(s)[..|SegmentFrames(s)| - unsent]
         == if s.Answer? && s.from + unsent < s.to then SegmentFrames(s.(to := s.to - unsent)) else []
  {
    hide SegmentFrames, FrameAt;
    if s.Answer? {
      SegmentTake(s, s.from);
      SegmentTake(s, s.to - unsent);
    } else {
      RefusalWire(s);
    }
  }

  lemma CutWire(link: Link, w: World, plan: seq<Segment>)
    requires link.chunkBytes > 0 && Laid(w, plan) && w.unsent != [] && plan != [] && Whole(link, plan[|plan| - 1])
    ensures Wire(Cut(plan, |w.unsent|)) == w.channel
  {
    hide SegmentFrames, Wire, Parts, FrameAt, Laid, Frames;
    UnsentEnds(w, plan);
    var n, u := |plan| - 1, |w.unsent|;
    KeptFrames(plan[n], u);
    hide Whole;
    if plan[n].Answer? && plan[n].from + u < plan[n].to {
      WireSnoc(plan[..n], plan[n].(to := plan[n].to - u));
    } else {
      assert Wire(plan[..n]) + [] == Wire(plan[..n]);
    }
  }

  lemma RefusalWire(s: Segment)
    requires s.Refusing?
    ensures SegmentFrames(s) == [RefusalFrame(s.id)]
  {
  }

  /** Everything but its end stays as it was. */
  lemma CutPlan(plan: seq<Segment>, unsent: nat)
    requires plan != []
    ensures var after, n := Cut(plan, unsent), |plan| - 1;
      && n <= |after| <= n + 1 && (forall i :: 0 <= i < n ==> after[i] == plan[i])
      && (|after| == n + 1 <==> plan[n].Answer? && plan[n].from + unsent < plan[n].to)
      && (|after| == n + 1 ==> after[n] == plan[n].(to := plan[n].to - unsent))
  {
  }

  lemma GiveUpSchedules(link: Link, w: World, plan: seq<Segment>, unsent: nat)
    requires link.chunkBytes > 0 && Scheduled(link, w, plan) && plan != []
    ensures Scheduled(link, w.(unsent := [], torn := w.torn + LeftAlone(w)), Cut(plan, unsent))
  {
    hide Parts, Cut, LeftAlone;
    CutPlan(plan, unsent);
    var after := Cut(plan, unsent);
    assert forall i :: 0 <= i < |after| ==> after[i].id == plan[i].id;
  }

  lemma GiveUpArrivals(link: Link, w: World, plan: seq<Segment>, unsent: nat)
    requires ArrivalsInOrder(link, w, plan) && plan != []
    ensures ArrivalsInOrder(link, w.(unsent := [], torn := w.torn + LeftAlone(w)), Cut(plan, unsent))
  {
    hide Cut, LeftAlone;
    CutPlan(plan, unsent);
    var after := Cut(plan, unsent);
    assert forall i :: 0 <= i < |after| ==> after[i].id == plan[i].id;
    assert after != [] && plan[0].Answer? ==> after[0].Answer? && after[0].from == plan[0].from && after[0].parts == plan[0].parts;
  }

  /** What is given up: the rest of the last answer, with a header left alone if a chunk was due. */
  lemma WhatIsLeft(link: Link, w: World, plan: seq<Segment>)
    requires link.chunkBytes > 0 && Laid(w, plan) && Sending(w, plan) && w.unsent != [] && plan != [] && Whole(link, plan[|plan| - 1])
    ensures var s := plan[|plan| - 1];
      && (s.Refusing? ==> LeftAlone(w) == {})
      && (s.Answer? ==>
            var k := s.to - |w.unsent|;
            && s.from <= k < s.to == 2 * |s.parts|
            && LeftAlone(w) == if k % 2 == 1 then {HeaderFor(s.piece, s.id, s.parts, k / 2)} else {})
  {
    hide Wire, SegmentFrames, Parts;
    UnsentHead(link, w, plan);
  }

  lemma GiveUpTorn(link: Link, w: World, plan: seq<Segment>)
    requires link.chunkBytes > 0 && Scheduled(link, w, plan) && Laid(w, plan) && Sending(w, plan) && TornPlaced(w, plan)
    requires w.unsent != [] && plan != []
    ensures TornPlaced(w.(unsent := [], torn := w.torn + LeftAlone(w)), Cut(plan, |w.unsent|))
  {
    hide Scheduled, Laid, Sending, TornPlaced, Whole, Cut, LeftAlone, FrameAt, Wire, SegmentFrames, Torn, LastHeader, Parts;
    AllWhole(link, w, plan);
    WhatIsLeft(link, w, plan);
    CutPlan(plan, |w.unsent|);
    LastSegment(link, w, plan);
    var s := plan[|plan| - 1];
    CutTorn(w, w.(unsent := [], torn := w.torn + LeftAlone(w)), plan, Cut(plan, |w.unsent|), LeftAlone(w),
            if s.Answer? then s.to - |w.unsent| else 0);
  }

  lemma LastSegment(link: Link, w: World, plan: seq<Segment>)
    requires link.chunkBytes > 0 && Scheduled(link, w, plan) && plan != []
    ensures var s := plan[|plan| - 1]; s.id in w.arrived && s.id !in w.jobs && forall i :: 0 <= i < |plan| - 1 ==> plan[i].id != s.id
  {
    hide Whole;
  }

  /** The last answer, still to be sent in full, is cut short before its frame `k`. */
  lemma CutTorn(w: World, n: World, plan: seq<Segment>, after: seq<Segment>, left: set<Header>, k: nat)
    requires TornPlaced(w, plan) && plan != [] && n.arrived == w.arrived && n.jobs == w.jobs && n.torn == w.torn + left
    requires |after| <= |plan| && (forall i :: 0 <= i < |after| && i < |plan| - 1 ==> after[i] == plan[i])
    requires var s := plan[|plan| - 1];
      && s.id in w.arrived && s.id !in w.jobs && (forall i :: 0 <= i < |plan| - 1 ==> plan[i].id != s.id)
      && (s.Refusing? ==> left == {} && (|after| == |plan| ==> after[|plan| - 1] == s))
      && (s.Answer? ==>
            && k < s.to == 2 * |s.parts|
            && left == (if k % 2 == 1 then {HeaderFor(s.piece, s.id, s.parts, k / 2)} else {})
            && (|after| == |plan| ==> after[|plan| - 1] == s.(to := k)))
    ensures TornPlaced(n, after)
  {
    var m := |plan| - 1;
    var s := plan[m];
    forall h | h in n.torn
      ensures h.id in n.arrived && h.id !in n.jobs && 0 <= h.chunkIndex < h.totalChunks
      ensures h in w.torn ==> h.id != s.id
    {
    }
    forall i | 0 <= i < |after| && Torn(after[i])
      ensures LastHeader(after[i]) in n.torn
    {
      if i < m {
        assert Torn(plan[i]);
      }
    }
    forall i, h | 0 <= i < |after| && h in n.torn && after[i].id == h.id
      ensures Torn(after[i]) && h == LastHeader(after[i])
    {
      if i < m {
        assert plan[i].id == h.id;
      }
    }
  }

  lemma GiveUpInStep(w: World, plan: seq<Segment>)
    requires InStep(w, plan) && plan != []
    ensures InStep(w.(unsent := [], torn := w.torn + LeftAlone(w)), Cut(plan, |w.unsent|))
  {
    hide FrameAt, LeftAlone;
    CutPlan(plan, |w.unsent|);
    hide Cut;
  }

  /** A header left waiting keeps its empty place. */
  lemma GiveUpSlot(link: Link, w: World, plan: seq<Segment>)
    requires link.chunkBytes > 0 && Tracks(link, w, plan) && w.unsent != [] && plan != []
    ensures Slot(link, w.(unsent := [], torn := w.torn + LeftAlone(w)), Cut(plan, |w.unsent|))
  {
    if link.peer in w.e.pending {
      var h := w.e.pending[link.peer];
      ChunkSlot(link, w, plan);
      hide Tracks, Cut, Waiting, LeftWaiting, LeftAlone;
      if Waiting(h, plan) {
        GiveUpWaiting(link, w, plan, h);
      } else {
        GiveUpLeft(w, w.(unsent := [], torn := w.torn + LeftAlone(w)), plan, h);
      }
    }
  }

  lemma GiveUpLeft(w: World, n: World, plan: seq<Segment>, h: Header)
    requires plan != [] && LeftWaiting(w, h, plan) && n.e == w.e && w.torn <= n.torn
    ensures LeftWaiting(n, h, Cut(plan, |w.unsent|))
  {
    CutPlan(plan, |w.unsent|);
    hide Cut, SlotFree;
    var after := Cut(plan, |w.unsent|);
    assert forall i :: 0 <= i < |after| ==> after[i].id == plan[i].id;
  }

  lemma GiveUpWaiting(link: Link, w: World, plan: seq<Segment>, h: Header)
    requires link.chunkBytes > 0 && Tracks(link, w, plan) && w.unsent != [] && plan != [] && Waiting(h, plan)
    ensures var n := w.(unsent := [], torn := w.torn + LeftAlone(w));
      Waiting(h, Cut(plan, |w.unsent|)) || LeftWaiting(n, h, Cut(plan, |w.unsent|))
  {
    hide Tracks, Cut, Scheduled, Laid, Sending, TornPlaced, InStep, Slot, ArrivalsInOrder, Whole, LeftAlone, SlotFree;
    TracksParts(link, w, plan);
    AllWhole(link, w, plan);
    WhatIsLeft(link, w, plan);
    FreeBefore(link, w, plan);
    CutPlan(plan, |w.unsent|);
  }

  lemma TracksParts(link: Link, w: World, plan: seq<Segment>)
    requires link.chunkBytes > 0 && Tracks(link, w, plan)
    ensures Scheduled(link, w, plan) && Laid(w, plan) && Sending(w, plan) && TornPlaced(w, plan)
    ensures InStep(w, plan) && Slot(link, w, plan) && ArrivalsInOrder(link, w, plan)
  {
    hide Scheduled, Laid, Sending, TornPlaced, InStep, Slot, ArrivalsInOrder;
  }

  /** The place of the next chunk is empty. */
  lemma FreeBefore(link: Link, w: World, plan: seq<Segment>)
    requires link.chunkBytes > 0 && Scheduled(link, w, plan) && ArrivalsInOrder(link, w, plan) && plan != []
    requires plan[0].Answer? && plan[0].from % 2 == 1 && plan[0].from < 2 * |plan[0].parts|
    ensures SlotFree(w.e, HeaderFor(plan[0].piece, plan[0].id, plan[0].parts, plan[0].from / 2))
  {
    hide Whole;
    assert Ours(link, w.e, plan[0].id);
  }

  lemma GiveUpTracks(link: Link, w: World, env: Env, plan: seq<Segment>)
    requires link.chunkBytes > 0 && Tracks(link, w, plan) && Can(link, w, GiveUp)
    ensures Tracks(link, Next(link, w, GiveUp, env), Cut(plan, |w.unsent|))
  {
    hide Scheduled, Laid, Sending, Whole, Cut, ArrivalsInOrder, Slot, TornPlaced, InStep, LeftAlone, Frames, Parts, Step;
    LastWhole(link, w, plan);
    GiveUpSlot(link, w, plan);
    GiveUpLaid(link, w, plan);
    GiveUpSchedules(link, w, plan, |w.unsent|);
    GiveUpArrivals(link, w, plan, |w.unsent|);
    GiveUpTorn(link, w, plan);
    GiveUpInStep(w, plan);
  }

  lemma GiveUpLaid(link: Link, w: World, plan: seq<Segment>)
    requires link.chunkBytes > 0 && Laid(w, plan) && w.unsent != [] && plan != [] && Whole(link, plan[|plan| - 1])
    ensures var n := w.(unsent := [], torn := w.torn + LeftAlone(w));
      Laid(n, Cut(plan, |w.unsent|)) && Sending(n, Cut(plan, |w.unsent|))
  {
    CutWire(link, w, plan);
    hide Wire, SegmentFrames, Whole, Cut, LeftAlone, FrameAt;
    assert w.channel + [] == w.channel;
  }

  lemma AllWhole(link: Link, w: World, plan: seq<Segment>)
    requires link.chunkBytes > 0 && Scheduled(link, w, plan)
    ensures forall i :: 0 <= i < |plan| ==> Whole(link, plan[i])
  {
  }

  // ----- the receiver takes a frame -----

  /** The plan after its first frame has been handled. */
  function Advance(plan: seq<Segment>): seq<Segment>
    requires plan != []
  {
    var s := plan[0];
    if s.Answer? && s.from + 1 < s.to then [s.(from := s.from + 1)] + plan[1..] else plan[1..]
  }

  lemma HeadOff<T>(a: seq<T>, b: seq<T>)
    requires a != []
    ensures (a + b)[0] == a[0] && (a + b)[1..] == a[1..] + b
  {
  }

  lemma SegmentDrop(s: Segment)
    requires s.Answer? && s.from < s.to <= 2 * |s.parts|
    ensures |SegmentFrames(s)| == s.to - s.from
    ensures SegmentFrames(s)[0] == FrameAt(s.piece, s.id, s.parts, s.from)
    ensures SegmentFrames(s)[1..] == SegmentFrames(s.(from := s.from + 1))
  {
    hide FrameAt;
    var f := Frames(s.piece, s.id, s.parts);
    assert f[s.from..s.to][1..] == f[s.from + 1..s.to];
  }

  lemma WireFirst(plan: seq<Segment>, s: Segment)
    ensures Wire([s] + plan) == SegmentFrames(s) + Wire(plan)
  {
    assert ([s] + plan)[1..] == plan;
  }

  /** The first segment without its first frame. */
  lemma AdvanceFirst(s: Segment, rest: seq<Segment>)
    requires s.Answer? ==> s.from < s.to <= 2 * |s.parts|
    ensures SegmentFrames(s) != []
    ensures s.Answer? ==> SegmentFrames(s)[0] == FrameAt(s.piece, s.id, s.parts, s.from)
    ensures s.Refusing? ==> SegmentFrames(s)[0] == RefusalFrame(s.id)
    ensures Wire(Advance([s] + rest)) == SegmentFrames(s)[1..] + Wire(rest)
    ensures rest == [] && |SegmentFrames(s)| > 1 ==>
      Advance([s] + rest) != [] && |SegmentFrames(Advance([s] + rest)[0])| == |SegmentFrames(s)| - 1
  {
    hide SegmentFrames, FrameAt;
    var plan := [s] + rest;
    assert plan[1..] == rest;
    if s.Answer? {
      SegmentDrop(s);
      if s.from + 1 < s.to {
        WireFirst(rest, s.(from := s.from + 1));
      } else {
        assert SegmentFrames(s)[1..] == [];
      }
    } else {
      RefusalWire(s);
    }
  }

  lemma AdvanceWire(link: Link, w: World, plan: seq<Segment>)
    requires link.chunkBytes > 0 && Laid(w, plan) && w.channel != []
    requires forall i :: 0 <= i < |plan| ==> Whole(link, plan[i])
    ensures plan != []
    ensures plan[0].Answer? ==>
      plan[0].from < 2 * |plan[0].parts| && w.channel[0] == FrameAt(plan[0].piece, plan[0].id, plan[0].parts, plan[0].from)
    ensures plan[0].Refusing? ==> w.channel[0] == RefusalFrame(plan[0].id)
    ensures Wire(Advance(plan)) == w.channel[1..] + w.unsent
    ensures w.unsent != [] ==> Advance(plan) != [] && |w.unsent| <= |SegmentFrames(Advance(plan)[|Advance(plan)| - 1])|
  {
    hide SegmentFrames, Parts, FrameAt, Laid, Wire;
    LaidStarts(w, plan);
    var s, rest := plan[0], plan[1..];
    assert Whole(link, s);
    assert plan == [s] + rest;
    WireFirst(rest, s);
    AdvanceFirst(s, rest);
    HeadOff(w.channel, w.unsent);
    HeadOff(SegmentFrames(s), Wire(rest));
    if rest == [] {
      EmptyWire();
    } else {
      assert Advance(plan)[|Advance(plan)| - 1] == plan[|plan| - 1];
    }
  }

  lemma LaidStarts(w: World, plan: seq<Segment>)
    requires Laid(w, plan) && w.channel != []
    ensures plan != [] && Wire(plan) == w.channel + w.unsent
    ensures w.unsent != [] ==> |w.unsent| <= |SegmentFrames(plan[|plan| - 1])|
  {
    hide SegmentFrames;
  }

  lemma EmptyWire()
    ensures Wire([]) == []
  {
  }

  /** The header now waiting: the one just taken, or one that waited before and is not to be answered. */
  ghost predicate TakenSlot(link: Link, w: World, h: Header, plan: seq<Segment>)
    requires plan != []
  {
    || (&& plan[0].Answer? && plan[0].from % 2 == 0 && plan[0].from < 2 * |plan[0].parts|
        && h == HeaderFor(plan[0].piece, plan[0].id, plan[0].parts, plan[0].from / 2))
    || (link.peer in w.e.pending && w.e.pending[link.peer] == h && LeftWaiting(w, h, plan))
  }

  /** A half-arrived piece of another answer: as it was, unless a header without a chunk just got one. */
  ghost predicate Kept(link: Link, w: World, e: Engine, id: RequestId, plan: seq<Segment>)
    requires id in e.incoming
  {
    || (id in w.e.incoming && e.incoming[id] == w.e.incoming[id])
    || (link.peer !in e.pending && link.peer in w.e.pending && w.e.pending[link.peer].id == id && LeftWaiting(w, w.e.pending[link.peer], plan))
  }

  /** The engine in which the receiver has handled the frame at the head of the plan. */
  ghost predicate Taken(link: Link, w: World, e: Engine, plan: seq<Segment>)
    requires plan != []
  {
    && w.e.issued <= e.issued
    && (link.peer in e.pending ==> TakenSlot(link, w, e.pending[link.peer], plan))
    && forall id :: id in e.incoming && Ours(link, e, id) ==>
         if plan[0].id == id then plan[0].Answer? && Prefixed(e.incoming[id], plan[0].(from := plan[0].from + 1))
         else Ours(link, w.e, id) && Kept(link, w, e, id, plan)
  }

  lemma TakeArrivals(link: Link, w: World, e: Engine, plan: seq<Segment>)
    requires link.chunkBytes > 0 && plan != [] && w.channel != [] && ArrivalsInOrder(link, w, plan) && Taken(link, w, e, plan) && TornPlaced(w, plan)
    requires plan[0].id in w.arrived && plan[0].id !in w.jobs
    requires forall j :: 1 <= j < |plan| ==> plan[j].id != plan[0].id
    ensures ArrivalsInOrder(link, w.(e := e, channel := w.channel[1..], lastTaken := Some(w.channel[0])), Advance(plan))
  {
    hide Prefixed, TakenSlot, SlotFree, Torn, LastHeader;
    var after := Advance(plan);
    forall id | id in e.incoming && Ours(link, e, id)
      ensures id in w.arrived && id !in w.jobs
      ensures forall i :: 1 <= i < |after| ==> after[i].id != id
      ensures after != [] && after[0].id == id ==> Prefixed(e.incoming[id], after[0])
    {
      if plan[0].id != id {
        assert Kept(link, w, e, id, plan);
        assert forall i :: 1 <= i < |plan| ==> plan[i].id != id;
      }
    }
  }

  /** Advancing leaves identity and end of every answer alone. */
  lemma AdvancePlan(plan: seq<Segment>)
    requires plan != []
    ensures var after := Advance(plan);
      && |plan| - 1 <= |after| <= |plan|
      && (|after| == |plan| ==> plan[0].Answer? && plan[0].from + 1 < plan[0].to && after == [plan[0].(from := plan[0].from + 1)] + plan[1..])
      && (|after| < |plan| ==> after == plan[1..] && (plan[0].Answer? ==> plan[0].from + 1 >= plan[0].to))
  {
  }

  lemma TakeTorn(w: World, n: World, plan: seq<Segment>)
    requires plan != [] && TornPlaced(w, plan) && n.torn == w.torn && n.arrived == w.arrived && n.jobs == w.jobs
    ensures TornPlaced(n, Advance(plan))
  {
    AdvancePlan(plan);
    hide Advance;
    var after := Advance(plan);
    var d := |plan| - |after|;
    assert forall i :: 0 <= i < |after| ==> after[i].id == plan[i + d].id && (Torn(after[i]) <==> Torn(plan[i + d]));
    assert forall i :: 0 <= i < |after| && Torn(after[i]) ==> LastHeader(after[i]) == LastHeader(plan[i + d]);
    hide Torn, LastHeader;
    forall i | 0 <= i < |after| && Torn(after[i])
      ensures LastHeader(after[i]) in n.torn
    {
      assert Torn(plan[i + d]);
    }
    forall i, h | 0 <= i < |after| && h in n.torn && after[i].id == h.id
      ensures Torn(after[i]) && h == LastHeader(after[i])
    {
      assert plan[i + d].id == h.id;
    }
  }

  lemma TakeSending(w: World, n: World, plan: seq<Segment>)
    requires plan != [] && Sending(w, plan) && n.unsent == w.unsent && n.lastSent == w.lastSent
    ensures Sending(n, Advance(plan))
  {
    hide FrameAt;
    AdvancePlan(plan);
    var after := Advance(plan);
    hide Advance;
    if after != [] {
      assert after[|after| - 1] == plan[|plan| - 1] || (|plan| == 1 && after[0] == plan[0].(from := plan[0].from + 1));
    }
  }

  lemma TakeInStep(link: Link, w: World, n: World, plan: seq<Segment>)
    requires link.chunkBytes > 0 && plan != [] && Scheduled(link, w, plan) && w.channel != [] && n.lastTaken == Some(w.channel[0])
    requires plan[0].Answer? && plan[0].from < 2 * |plan[0].parts| ==> w.channel[0] == FrameAt(plan[0].piece, plan[0].id, plan[0].parts, plan[0].from)
    ensures InStep(n, Advance(plan))
  {
    hide Whole, FrameAt;
    AdvancePlan(plan);
    hide Advance;
  }

  lemma TakeSlot(link: Link, w: World, e: Engine, plan: seq<Segment>)
    requires link.chunkBytes > 0 && plan != [] && w.channel != [] && Taken(link, w, e, plan) && Scheduled(link, w, plan) && TornPlaced(w, plan)
    ensures Slot(link, w.(e := e, channel := w.channel[1..], lastTaken := Some(w.channel[0])), Advance(plan))
  {
    if link.peer in e.pending {
      FirstSegment(link, w, plan);
      if link.peer in w.e.pending && w.e.pending[link.peer] == e.pending[link.peer] && LeftWaiting(w, e.pending[link.peer], plan) {
        StillStale(link, w, e, plan);
      } else {
        NewlyWaiting(link, w, e, plan);
      }
      hide Taken, Scheduled, TornPlaced, Waiting, LeftWaiting, Advance;
    }
  }

  lemma StillStale(link: Link, w: World, e: Engine, plan: seq<Segment>)
    requires link.chunkBytes > 0 && plan != [] && Taken(link, w, e, plan) && Scheduled(link, w, plan) && TornPlaced(w, plan)
    requires link.peer in e.pending && LeftWaiting(w, e.pending[link.peer], plan)
    ensures w.channel != [] ==>
      LeftWaiting(w.(e := e, channel := w.channel[1..], lastTaken := Some(w.channel[0])), e.pending[link.peer], Advance(plan))
  {
    AdvancePlan(plan);
    var h, after := e.pending[link.peer], Advance(plan);
    OursLater(link, w, e, plan, h);
    hide Scheduled, TornPlaced, Advance, Prefixed;
    assert forall i :: 0 <= i < |after| ==> after[i].id == plan[i + |plan| - |after|].id;
    if h.id in e.incoming {
      assert plan[0].id != h.id;
      assert Kept(link, w, e, h.id, plan);
    }
  }

  lemma NewlyWaiting(link: Link, w: World, e: Engine, plan: seq<Segment>)
    requires link.chunkBytes > 0 && plan != [] && Taken(link, w, e, plan) && Scheduled(link, w, plan) && TornPlaced(w, plan)
    requires Whole(link, plan[0]) && forall j :: 1 <= j < |plan| ==> plan[j].id != plan[0].id
    requires link.peer in e.pending && w.channel != []
    requires plan[0].Answer? && plan[0].from % 2 == 0 && plan[0].from < 2 * |plan[0].parts|
    requires e.pending[link.peer] == HeaderFor(plan[0].piece, plan[0].id, plan[0].parts, plan[0].from / 2)
    ensures var n, h := w.(e := e, channel := w.channel[1..], lastTaken := Some(w.channel[0])), e.pending[link.peer];
      Waiting(h, Advance(plan)) || LeftWaiting(n, h, Advance(plan))
  {
    var h, s, after := e.pending[link.peer], plan[0], Advance(plan);
    AdvancePlan(plan);
    assert s.from < s.to <= 2 * |s.parts|;
    if |after| < |plan| {
      assert Torn(s) && h == LastHeader(s);
      assert h in w.torn;
      OursLater(link, w, e, plan, h);
      hide Scheduled, TornPlaced, Advance, Whole, Parts, Kept, TakenSlot;
      assert forall i :: 0 <= i < |after| ==> after[i] == plan[i + 1];
      if h.id in e.incoming {
        assert Prefixed(e.incoming[h.id], s.(from := s.from + 1));
      }
    }
  }

  lemma OursLater(link: Link, w: World, e: Engine, plan: seq<Segment>, h: Header)
    requires link.chunkBytes > 0 && Scheduled(link, w, plan) && TornPlaced(w, plan) && h in w.torn && w.e.issued <= e.issued
    ensures Ours(link, e, h.id)
  {
    hide Whole, Torn, LastHeader;
    assert h.id in w.arrived;
  }

  lemma TakeTracks(link: Link, w: World, e: Engine, plan: seq<Segment>)
    requires link.chunkBytes > 0 && Tracks(link, w, plan) && w.channel != [] && plan != [] && Taken(link, w, e, plan)
    ensures Tracks(link, w.(e := e, channel := w.channel[1..], lastTaken := Some(w.channel[0])), Advance(plan))
  {
    hide Wire, SegmentFrames, Scheduled, ArrivalsInOrder, Whole, Advance, FrameAt, Sending, TornPlaced, InStep, Slot;
    var n := w.(e := e, channel := w.channel[1..], lastTaken := Some(w.channel[0]));
    AllWhole(link, w, plan);
    AdvanceWire(link, w, plan);
    assert w.e.issued <= e.issued;
    hide Taken;
    TakeSchedules(link, w, e, plan);
    FirstSegment(link, w, plan);
    TakeArrivals(link, w, e, plan);
    TakeTorn(w, n, plan);
    TakeSending(w, n, plan);
    TakeInStep(link, w, n, plan);
    TakeSlot(link, w, e, plan);
  }

  lemma FirstSegment(link: Link, w: World, plan: seq<Segment>)
    requires link.chunkBytes > 0 && Scheduled(link, w, plan) && plan != []
    ensures Whole(link, plan[0]) && plan[0].id in w.arrived && plan[0].id !in w.jobs
    ensures forall j :: 1 <= j < |plan| ==> plan[j].id != plan[0].id
  {
  }

  lemma LaterSchedules(link: Link, w: World, e: Engine, plan: seq<Segment>)
    requires link.chunkBytes > 0 && Scheduled(link, w, plan) && w.channel != [] && w.e.issued <= e.issued
    ensures Scheduled(link, w.(e := e, channel := w.channel[1..], lastTaken := Some(w.channel[0])), plan)
  {
    hide Whole;
    assert forall k :: 0 <= k < |w.e.issued| ==> e.issued[k] == w.e.issued[k];
  }

  lemma TailSchedules(link: Link, w: World, plan: seq<Segment>)
    requires link.chunkBytes > 0 && Scheduled(link, w, plan) && plan != []
    ensures Scheduled(link, w, plan[1..])
  {
    hide Whole;
    var after := plan[1..];
    assert forall i :: 0 <= i < |after| ==> after[i] == plan[i + 1];
  }

  lemma HeadSchedules(link: Link, w: World, plan: seq<Segment>)
    requires link.chunkBytes > 0 && Scheduled(link, w, plan) && plan != [] && plan[0].Answer? && plan[0].from + 1 < plan[0].to
    ensures Scheduled(link, w, [plan[0].(from := plan[0].from + 1)] + plan[1..])
  {
    hide Parts;
    var t := plan[0].(from := plan[0].from + 1);
    assert Whole(link, plan[0]);
    assert Whole(link, t);
    hide Whole;
    var after := [t] + plan[1..];
    assert forall i :: 1 <= i < |after| ==> after[i] == plan[i];
    assert forall i :: 0 <= i < |after| ==> after[i].id == plan[i].id;
  }

  lemma TakeSchedules(link: Link, w: World, e: Engine, plan: seq<Segment>)
    requires link.chunkBytes > 0 && Scheduled(link, w, plan) && plan != [] && w.channel != [] && w.e.issued <= e.issued
    ensures Scheduled(link, w.(e := e, channel := w.channel[1..], lastTaken := Some(w.channel[0])), Advance(plan))
  {
    hide Scheduled;
    var n := w.(e := e, channel := w.channel[1..], lastTaken := Some(w.channel[0]));
    LaterSchedules(link, w, e, plan);
    TailSchedules(link, n, plan);
    if plan[0].Answer? && plan[0].from + 1 < plan[0].to {
      HeadSchedules(link, n, plan);
    }
  }

  lemma HeadOfWire(link: Link, w: World, plan: seq<Segment>)
    requires link.chunkBytes > 0 && Tracks(link, w, plan) && w.channel != []
    ensures plan != [] && Whole(link, plan[0])
    ensures plan[0].Refusing? ==> w.channel[0] == RefusalFrame(plan[0].id)
    ensures plan[0].Answer? ==>
      && plan[0].from < 2 * |plan[0].parts|
      && w.channel[0] == FrameAt(plan[0].piece, plan[0].id, plan[0].parts, plan[0].from)
      && Ours(link, w.e, plan[0].id) && w.e.issued[plan[0].id].request.piece == plan[0].piece
  {
    hide Wire, SegmentFrames, ArrivalsInOrder, Sending, TornPlaced, InStep, Slot, Whole, FrameAt, Parts;
    AllWhole(link, w, plan);
    AdvanceWire(link, w, plan);
  }

  /** A refusal, a frame the receiver drops, or a refused chunk. */
  lemma TakenApart(link: Link, w: World, e: Engine, plan: seq<Segment>)
    requires link.chunkBytes > 0 && Tracks(link, w, plan) && w.channel != [] && plan != []
    requires Apart(link, w.e, e)
    requires link.peer in e.pending ==> LeftWaiting(w, e.pending[link.peer], plan)
    ensures Taken(link, w, e, plan)
  {
    hide Wire, SegmentFrames, Laid, Parts, Sending, TornPlaced, InStep, Slot, SlotFree;
    FirstSegment(link, w, plan);
    forall id | id in e.incoming && Ours(link, e, id) && id == plan[0].id
      ensures plan[0].Answer? && Prefixed(e.incoming[id], plan[0].(from := plan[0].from + 1))
    {
      assert Prefixed(w.e.incoming[id], plan[0]);
    }
  }

  /** Unless a chunk is next, a header that waits is one without a chunk. */
  lemma OnlyStale(link: Link, w: World, plan: seq<Segment>)
    requires link.chunkBytes > 0 && Tracks(link, w, plan) && w.channel != [] && !w.channel[0].BinaryFrame? && link.peer in w.e.pending
    ensures plan != [] && LeftWaiting(w, w.e.pending[link.peer], plan)
  {
    hide Scheduled, Laid, ArrivalsInOrder, Whole, Parts, Sending, TornPlaced, InStep, LeftWaiting;
    HeadOfWire(link, w, plan);
  }

  lemma RefusalTaken(link: Link, w: World, env: Env, plan: seq<Segment>)
    requires link.chunkBytes > 0 && Tracks(link, w, plan) && Books(w.e) && w.channel != [] && w.channel[0].RefusalFrame?
    ensures plan != [] && Taken(link, w, Step(w.e, TakeAction(link, w.channel[0]), env), plan)
  {
    hide Tracks, Books, Arrivals, Goes, ReceiveReject, Taken, LeftWaiting;
    HeadOfWire(link, w, plan);
    if link.peer in w.e.pending {
      OnlyStale(link, w, plan);
    }
    var a := TakeAction(link, w.channel[0]);
    OtherStepGoes(w.e, a, env);
    BooksArrivals(w.e);
    GoesApart(link, w.e, Step(w.e, a, env));
    TakenApart(link, w, Step(w.e, a, env), plan);
  }

  /** A header that finds the slot free is ignored or starts to wait. */
  lemma HeaderTaken(link: Link, w: World, env: Env, plan: seq<Segment>)
    requires link.chunkBytes > 0 && Tracks(link, w, plan) && Books(w.e) && w.channel != [] && w.channel[0].HeaderFrame?
    ensures var b := Step(w.e, TakeAction(link, w.channel[0]), env); var h := w.channel[0].header;
      && plan != [] && Taken(link, w, b, plan)
      && (link.peer !in w.e.pending || !Active(w.e, link.peer, h) ==>
            b == w.e || (Active(w.e, link.peer, h) && b == w.e.(pending := w.e.pending[link.peer := h])))
  {
    hide Books, Tracks, Taken, RejectChunk, Active, Whole, FrameAt, Apart, LeftWaiting;
    var e, b := w.e, Step(w.e, TakeAction(link, w.channel[0]), env);
    HeadOfWire(link, w, plan);
    assert plan[0].Answer?;
    SameApart(link, e);
    if link.peer in e.pending {
      OnlyStale(link, w, plan);
      TakenApart(link, w, e, plan);
      HeaderRefused(link, w, env, plan);
    } else {
      TakenApart(link, w, e, plan);
      TakenPending(link, w, e, b, plan);
    }
  }

  /** An active header that finds another waiting is refused. */
  lemma HeaderRefused(link: Link, w: World, env: Env, plan: seq<Segment>)
    requires link.chunkBytes > 0 && Tracks(link, w, plan) && Books(w.e) && w.channel != [] && w.channel[0].HeaderFrame?
    requires plan != [] && link.peer in w.e.pending && LeftWaiting(w, w.e.pending[link.peer], plan)
    ensures Taken(link, w, RejectChunk(w.e, link.peer, w.channel[0].header, env), plan)
    ensures w.channel[0].header != w.e.pending[link.peer]
  {
    hide Books, Arrivals, Laid, RejectChunk, Apart, SlotFree, Goes, Taken, TornPlaced, InStep, Slot, Sending, ArrivalsInOrder, Whole, Prefixed;
    var e, h := w.e, w.channel[0].header;
    HeadOfWire(link, w, plan);
    assert h.id == plan[0].id;
    RejectChunkGoes(e, link.peer, h, env);
    var b := RejectChunk(e, link.peer, h, env);
    GoesSlot(e, b, link.peer);
    BooksArrivals(e);
    GoesApart(link, e, b);
    TakenApart(link, w, b, plan);
  }

  lemma GoesSlot(a: Engine, b: Engine, peer: PeerId)
    requires Goes(a, b)
    ensures peer in b.pending ==> peer in a.pending && b.pending[peer] == a.pending[peer]
  {
  }

  lemma SameApart(link: Link, e: Engine)
    ensures Apart(link, e, e)
  {
  }

  lemma TakenPending(link: Link, w: World, e: Engine, b: Engine, plan: seq<Segment>)
    requires plan != [] && Taken(link, w, e, plan) && w.channel != [] && w.channel[0].HeaderFrame?
    requires link.chunkBytes > 0 && Whole(link, plan[0]) && plan[0].Answer? && link.peer !in w.e.pending
    requires w.channel[0] == FrameAt(plan[0].piece, plan[0].id, plan[0].parts, plan[0].from)
    requires b == e || b == e.(pending := e.pending[link.peer := w.channel[0].header])
    ensures Taken(link, w, b, plan)
  {
    hide Prefixed, Parts, LeftWaiting;
  }

  /** The chunk handled next under the header that announced it: it is not refused, and if it completes
      the piece the bytes are the peer's. */
  lemma HonestChunk(link: Link, w: World, plan: seq<Segment>)
    requires link.chunkBytes > 0 && Tracks(link, w, plan) && Arrivals(w.e)
    requires w.channel != [] && w.channel[0].BinaryFrame? && link.peer in w.e.pending && Waiting(w.e.pending[link.peer], plan)
    ensures Announced(link, w, w.e.pending[link.peer], w.channel[0].bytes)
    ensures var e, h, frame := w.e, w.e.pending[link.peer], w.channel[0].bytes;
      var r := AppendChunk(if h.id in e.incoming then Some(e.incoming[h.id]) else None, link.peer, h, frame);
      && plan[0].Answer? && h.id == plan[0].id
      && (r.Incomplete? ==> Prefixed(r.assembly, plan[0].(from := plan[0].from + 1)))
  {
    hide Tracks, Arrivals, Parts, AppendChunk, Prefixed, Sound, Whole;
    ChunkFacts(link, w, plan);
    var e, h, s := w.e, w.e.pending[link.peer], plan[0];
    AppendFits(if h.id in e.incoming then Some(e.incoming[h.id]) else None, link.peer, h, s, s.from / 2);
    AllParts(link, s);
    WholeParts(link, s);
  }

  /** What is known of the next chunk, its header and the assembly it is for. */
  lemma ChunkFacts(link: Link, w: World, plan: seq<Segment>)
    requires link.chunkBytes > 0 && Tracks(link, w, plan) && Arrivals(w.e)
    requires w.channel != [] && w.channel[0].BinaryFrame? && link.peer in w.e.pending && Waiting(w.e.pending[link.peer], plan)
    ensures plan[0].Answer? && Whole(link, plan[0]) && Ours(link, w.e, plan[0].id) && w.e.issued[plan[0].id].request.piece == plan[0].piece
    ensures w.channel[0] == BinaryFrame(plan[0].parts[plan[0].from / 2]) && w.lastTaken == Some(HeaderFrame(w.e.pending[link.peer]))
    ensures plan[0].id in w.e.incoming ==>
      var a := w.e.incoming[plan[0].id];
      Sound(a) && a.peer == link.peer && a.piece == plan[0].piece && Prefixed(a, plan[0])
  {
    hide Tracks, Scheduled, Laid, Sending, TornPlaced, InStep, Slot, ArrivalsInOrder, Arrivals, Parts, Sound, Whole, Prefixed;
    HeadOfWire(link, w, plan);
    TracksParts(link, w, plan);
    TookHeader(w, plan, w.e.pending[link.peer]);
    HalfArrived(link, w, plan);
  }

  lemma TookHeader(w: World, plan: seq<Segment>, h: Header)
    requires InStep(w, plan) && Waiting(h, plan)
    ensures w.lastTaken == Some(HeaderFrame(h))
  {
  }

  lemma HalfArrived(link: Link, w: World, plan: seq<Segment>)
    requires ArrivalsInOrder(link, w, plan) && Arrivals(w.e) && plan != [] && plan[0].Answer?
    requires Ours(link, w.e, plan[0].id) && w.e.issued[plan[0].id].request.piece == plan[0].piece
    ensures plan[0].id in w.e.incoming ==>
      var a := w.e.incoming[plan[0].id];
      Sound(a) && a.peer == link.peer && a.piece == plan[0].piece && Prefixed(a, plan[0])
  {
    hide Sound, Prefixed;
    if plan[0].id in w.e.incoming {
      assert Arrives(w.e, plan[0].id, w.e.incoming[plan[0].id]);
    }
  }

  lemma WholeParts(link: Link, s: Segment)
    requires link.chunkBytes > 0 && Whole(link, s) && s.Answer?
    ensures s.parts == Parts(link, s.piece)
  {
  }

  /** The chunk joins the request whose header came immediately before it on the wire: it is the chunk
      announced, it is not refused, and a piece it completes holds exactly the bytes the peer has for it. */
  predicate Announced(link: Link, w: World, h: Header, frame: Bytes)
    requires link.chunkBytes > 0
  {
    var r := AppendChunk(if h.id in w.e.incoming then Some(w.e.incoming[h.id]) else None, link.peer, h, frame);
    && w.lastTaken == Some(HeaderFrame(h))
    && Ours(link, w.e, h.id) && w.e.issued[h.id].request.piece == h.piece
    && 0 <= h.chunkIndex < |Parts(link, h.piece)| && frame == Parts(link, h.piece)[h.chunkIndex]
    && !r.Reject? && (r.Complete? ==> r.data == link.content(h.piece))
  }

  lemma AllParts(link: Link, s: Segment)
    requires link.chunkBytes > 0 && Whole(link, s) && s.Answer?
    ensures Concat(s.parts) == link.content(s.piece)
  {
    var data := link.content(s.piece);
    SplitJoins(data, ChunkSize(link.chunkBytes, |data|));
  }

  lemma AppendFits(existing: Option<Assembly>, peer: PeerId, h: Header, s: Segment, c: nat)
    requires s.Answer? && c < |s.parts| && s.from == 2 * c + 1 && h == HeaderFor(s.piece, s.id, s.parts, c)
    requires existing.Some? ==> Sound(existing.value) && existing.value.peer == peer && existing.value.piece == h.piece && Prefixed(existing.value, s)
    ensures var r := AppendChunk(existing, peer, h, s.parts[c]);
      && !r.Reject?
      && (r.Incomplete? ==> Prefixed(r.assembly, s.(from := s.from + 1)))
      && (r.Complete? ==> r.data == Concat(s.parts))
  {
    AppendKeepsSound(existing, peer, h, s.parts[c]);
    hide Sound, Concat;
    var a := if existing.Some? then existing.value else Fresh(peer, h);
    var filled := a.chunks[c := Some(s.parts[c])];
    if AllFilled(filled) {
      JoinIsConcat(filled, s.parts);
    }
  }

  lemma ChunkKept(link: Link, w: World, b: Engine, id: RequestId, plan: seq<Segment>)
    requires link.chunkBytes > 0 && Tracks(link, w, plan) && plan != [] && id in b.incoming
    requires link.peer in w.e.pending && w.e.pending[link.peer].id == id
    requires b == w.e.(pending := w.e.pending - {link.peer}, incoming := w.e.incoming[id := b.incoming[id]])
    requires || (plan[0].Answer? && plan[0].id == id && Prefixed(b.incoming[id], plan[0].(from := plan[0].from + 1)))
             || LeftWaiting(w, w.e.pending[link.peer], plan)
    ensures Taken(link, w, b, plan)
  {
    hide Prefixed, Scheduled, Laid, Slot, Sending, TornPlaced, InStep, SlotFree;
    assert LeftWaiting(w, w.e.pending[link.peer], plan) ==> plan[0].id != id;
    forall i | i in b.incoming && Ours(link, b, i) && i == plan[0].id
      ensures plan[0].Answer? && Prefixed(b.incoming[i], plan[0].(from := plan[0].from + 1))
    {
      if i != id {
        assert Prefixed(w.e.incoming[i], plan[0]);
        FirstSegment(link, w, plan);
        LongerPrefix(w.e.incoming[i], plan[0]);
      }
    }
  }

  lemma LongerPrefix(a: Assembly, s: Segment)
    requires Prefixed(a, s)
    ensures s.Answer? && Prefixed(a, s.(from := s.from + 1))
  {
  }

  lemma PendingFreed(link: Link, e: Engine, b: Engine)
    requires b.issued == e.issued && b.pending == e.pending - {link.peer}
    requires forall id :: id in b.incoming ==> id in e.incoming && b.incoming[id] == e.incoming[id]
    ensures Apart(link, e, b)
  {
  }

  lemma GoesPending(a: Engine, b: Engine, peer: PeerId)
    requires Goes(a, b) && peer !in a.pending
    ensures peer !in b.pending
  {
  }

  lemma ChunkCompletes(link: Link, w: World, env: Env, plan: seq<Segment>, h: Header, data: Bytes)
    requires link.chunkBytes > 0 && Tracks(link, w, plan) && Books(w.e) && w.channel != [] && plan != []
    requires link.peer in w.e.pending && h == w.e.pending[link.peer]
    ensures var e2 := w.e.(pending := w.e.pending - {link.peer}).(incoming := w.e.incoming - {h.id});
      Taken(link, w, Deliver(e2, link.peer, h, data, env), plan)
  {
    hide Tracks, Taken, Deliver, Goes, Apart, Books, Arrivals, AppendChunk, Sound;
    var e2 := w.e.(pending := w.e.pending - {link.peer}).(incoming := w.e.incoming - {h.id});
    var b := Deliver(e2, link.peer, h, data, env);
    BooksArrivals(w.e);
    FrameTaken(w.e, link.peer, []);
    PendingFreed(link, w.e, e2);
    DeliverGoes(e2, link.peer, h, data, env);
    ThenApart(link, w.e, e2, b);
    GoesPending(e2, b, link.peer);
    TakenApart(link, w, b, plan);
  }

  /** A chunk taken under a header without one: refused, or it joins a request that is not served any more. */
  lemma StaleTaken(link: Link, w: World, env: Env, plan: seq<Segment>)
    requires link.chunkBytes > 0 && Tracks(link, w, plan) && Books(w.e) && w.channel != [] && w.channel[0].BinaryFrame? && !w.e.disposed
    requires plan != [] && link.peer in w.e.pending && LeftWaiting(w, w.e.pending[link.peer], plan)
    ensures Taken(link, w, Step(w.e, TakeAction(link, w.channel[0]), env), plan)
  {
    hide Tracks, Arrivals, Books, Taken, RejectChunk, Deliver, AppendChunk, Apart, Ours, LeftWaiting, Goes, Sound;
    var e, h, frame := w.e, w.e.pending[link.peer], w.channel[0].bytes;
    BooksArrivals(e);
    match AppendChunk(if h.id in e.incoming then Some(e.incoming[h.id]) else None, link.peer, h, frame)
    case Reject =>
      var e1 := e.(pending := e.pending - {link.peer});
      var b := RejectChunk(e1, link.peer, h, env);
      PendingFreed(link, e, e1);
      FrameTaken(e, link.peer, frame);
      RejectChunkGoes(e1, link.peer, h, env);
      ThenApart(link, e, e1, b);
      GoesPending(e1, b, link.peer);
      TakenApart(link, w, b, plan);
    case Incomplete(a) => ChunkKept(link, w, e.(pending := e.pending - {link.peer}).(incoming := e.incoming[h.id := a]), h.id, plan);
    case Complete(data) => ChunkCompletes(link, w, env, plan, h, data);
  }

  /** The slot before a chunk: empty, or with a header of one of the two kinds. */
  lemma ChunkSlot(link: Link, w: World, plan: seq<Segment>)
    requires link.chunkBytes > 0 && Tracks(link, w, plan)
    ensures link.peer in w.e.pending ==> Waiting(w.e.pending[link.peer], plan) || LeftWaiting(w, w.e.pending[link.peer], plan)
  {
    hide Scheduled, Laid, Sending, TornPlaced, InStep, ArrivalsInOrder, Waiting, LeftWaiting;
  }

  lemma HonestTaken(link: Link, w: World, env: Env, plan: seq<Segment>)
    requires link.chunkBytes > 0 && Tracks(link, w, plan) && Books(w.e) && w.channel != [] && w.channel[0].BinaryFrame? && !w.e.disposed
    requires plan != [] && link.peer in w.e.pending && Waiting(w.e.pending[link.peer], plan)
    ensures Taken(link, w, Step(w.e, TakeAction(link, w.channel[0]), env), plan)
  {
    hide Tracks, Arrivals, Books, Taken, RejectChunk, Deliver, AppendChunk, Parts, Prefixed, Ours, LeftWaiting, Waiting;
    var e, h, frame := w.e, w.e.pending[link.peer], w.channel[0].bytes;
    BooksArrivals(e);
    HonestChunk(link, w, plan);
    match AppendChunk(if h.id in e.incoming then Some(e.incoming[h.id]) else None, link.peer, h, frame)
    case Reject => assert false;
    case Incomplete(a) => ChunkKept(link, w, e.(pending := e.pending - {link.peer}).(incoming := e.incoming[h.id := a]), h.id, plan);
    case Complete(data) => ChunkCompletes(link, w, env, plan, h, data);
  }

  lemma BinaryTaken(link: Link, w: World, env: Env, plan: seq<Segment>)
    requires link.chunkBytes > 0 && Tracks(link, w, plan) && Books(w.e) && w.channel != [] && w.channel[0].BinaryFrame? && !w.e.disposed
    ensures plan != [] && Taken(link, w, Step(w.e, TakeAction(link, w.channel[0]), env), plan)
  {
    hide Tracks, Books, Taken, AppendChunk, Parts, Apart, Ours, Whole, FrameAt, LeftWaiting, Waiting, RejectChunk, Deliver;
    HeadOfWire(link, w, plan);
    ChunkSlot(link, w, plan);
    if link.peer !in w.e.pending {
      SameApart(link, w.e);
      TakenApart(link, w, w.e, plan);
    } else if LeftWaiting(w, w.e.pending[link.peer], plan) {
      StaleTaken(link, w, env, plan);
    } else {
      HonestTaken(link, w, env, plan);
    }
  }

  // ----- runs -----

  lemma DisposedStays(e: Engine, a: Action, env: Env)
    requires e.disposed
    ensures Step(e, a, env).disposed
  {
    hide Goes, OpenWindow, RunTask, FireTimer, ExpireAll, CancelDirect, GridRound, ExpireLeases, Update;
    if !a.DoHeader? && !a.DoBinary? && !a.DoDispose? {
      OtherStepGoes(e, a, env);
      FlagStays(e, Step(e, a, env));
    }
  }

  lemma FlagStays(a: Engine, b: Engine)
    requires Goes(a, b)
    ensures a.disposed == b.disposed
  {
  }

  lemma StepIssued(e: Engine, a: Action, env: Env)
    requires Books(e)
    ensures e.issued <= Step(e, a, env).issued && e.terminals <= Step(e, a, env).terminals && Books(Step(e, a, env))
  {
    hide Step, Books;
    StepKeeps(e, a, env);
  }

  lemma TakeKeeps(link: Link, w: World, env: Env, plan: seq<Segment>)
    requires link.chunkBytes > 0 && Tracks(link, w, plan) && Books(w.e) && Can(link, w, Take) && !w.e.disposed
    ensures plan != [] && Tracks(link, Next(link, w, Take, env), Advance(plan))
  {
    hide Tracks, Taken, Step, Advance, Books;
    match w.channel[0] {
      case HeaderFrame(_) => HeaderTaken(link, w, env, plan);
      case BinaryFrame(_) => BinaryTaken(link, w, env, plan);
      case RefusalFrame(_) => RefusalTaken(link, w, env, plan);
    }
    TakeTracks(link, w, Step(w.e, TakeAction(link, w.channel[0]), env), plan);
  }

  lemma MoveKeeps(link: Link, w: World, m: Move, env: Env)
    requires link.chunkBytes > 0 && Inv(link, w) && Can(link, w, m)
    ensures Inv(link, Next(link, w, m, env))
  {
    hide Tracks, Step, Books, Cut, Advance, NextAnswer;
    var n := Next(link, w, m, env);
    match m {
      case Receiver(a) => StepKeepsBooks(w.e, a, env);
      case Take => StepKeepsBooks(w.e, TakeAction(link, w.channel[0]), env);
      case _ =>
    }
    assert Books(n.e);
    if !w.e.disposed {
      var plan :| Tracks(link, w, plan);
      match m
      case Receiver(a) =>
        StepApart(link, w.e, a, env);
        ApartKeepsTracks(link, w, n.e, plan);
        assert Tracks(link, n, plan);
      case Arrive(id) =>
        ArriveTracks(link, w, id, env, plan);
        assert Tracks(link, n, plan);
      case Begin(has) =>
        BeginTracks(link, w, has, env, plan);
        assert Tracks(link, n, plan + [NextAnswer(link, w, has)]);
      case Send =>
        SendTracks(link, w, env, plan);
        assert Tracks(link, n, plan);
      case GiveUp =>
        GiveUpTracks(link, w, env, plan);
        assert plan != [] by { UnsentHasPlan(link, w, plan); }
        assert Tracks(link, n, Cut(plan, |w.unsent|));
      case Take =>
        TakeKeeps(link, w, env, plan);
        assert Tracks(link, n, Advance(plan));
    } else {
      match m
      case Receiver(a) => DisposedStays(w.e, a, env);
      case Take => DisposedStays(w.e, TakeAction(link, w.channel[0]), env);
      case _ =>
    }
  }

  lemma UnsentHasPlan(link: Link, w: World, plan: seq<Segment>)
    requires link.chunkBytes > 0 && Tracks(link, w, plan) && w.unsent != []
    ensures plan != []
  {
  }

  lemma StepKeepsBooks(e: Engine, a: Action, env: Env)
    requires Books(e)
    ensures Books(Step(e, a, env))
  {
    hide Books, Step;
    StepKeeps(e, a, env);
  }

  datatype Happening = Happening(move: Move, env: Env)

  /** The world after a run, in which every move must have been possible. */
  ghost predicate Possible(link: Link, w: World, run: seq<Happening>)
    requires link.chunkBytes > 0
    decreases |run|, 0
  {
    run == [] ||
      var n := |run| - 1;
      Possible(link, w, run[..n]) && Can(link, Play(link, w, run[..n]), run[n].move)
  }

  ghost function Play(link: Link, w: World, run: seq<Happening>): World
    requires link.chunkBytes > 0 && Possible(link, w, run)
    decreases |run|, 1
  {
    if run == [] then w
    else Next(link, Play(link, w, run[..|run| - 1]), run[|run| - 1].move, run[|run| - 1].env)
  }

  ghost predicate Quiet(w: World) {
    && Start(w.e) && w.arrived == {} && w.jobs == [] && w.unsent == [] && w.channel == []
    && w.lastSent == None && w.lastTaken == None && w.torn == {}
  }

  lemma {:induction false} PlayKeeps(link: Link, w: World, run: seq<Happening>)
    requires link.chunkBytes > 0 && Quiet(w) && Possible(link, w, run)
    ensures Inv(link, Play(link, w, run))
  {
    hide Next, Can, Inv;
    if run == [] {
      assert Inv(link, w) by { QuietInv(link, w); }
    } else {
      var n := |run| - 1;
      PlayKeeps(link, w, run[..n]);
      MoveKeeps(link, Play(link, w, run[..n]), run[n].move, run[n].env);
    }
  }

  lemma QuietInv(link: Link, w: World)
    requires link.chunkBytes > 0 && Quiet(w)
    ensures Inv(link, w)
  {
    StartBooks(w.e);
    assert Tracks(link, w, []);
  }
}
