/** That transfers come to an end: from any quiet world, a run without a failure fetches a whole file from an
    honest peer, whatever the file, the chunk size and the cap of the window. */
module TransferDelivery {
  import opened Common
  import opened Pieces
  import opened ChunkAssembly
  import opened Availability
  import opened Engine
  import E = Engine
  import opened EngineOutcomes
  import opened EngineFill
  import opened EngineHandlers
  import opened EngineSweeps
  import opened TransferProtocol
  import opened TransferPairing
  import opened TransferExceptions
  import opened Resume
  import opened Delivery

  // ----- one answer, as the engine sees it -----

  /** The frames handled one after the other. */
  function HandleAll(link: Link, e: Engine, frames: seq<Frame>, env: Env): Engine
    decreases |frames|
  {
    if frames == [] then e else HandleAll(link, Step(e, TakeAction(link, frames[0]), env), frames[1..], env)
  }

  lemma {:induction false} HandleAppend(link: Link, e: Engine, a: seq<Frame>, b: seq<Frame>, env: Env)
    ensures HandleAll(link, e, a + b, env) == HandleAll(link, HandleAll(link, e, a, env), b, env)
    decreases |a|
  {
    hide Step, TakeAction;
    if a == [] {
      assert a + b == b;
    } else {
      assert (a + b)[1..] == a[1..] + b;
      HandleAppend(link, Step(e, TakeAction(link, a[0]), env), a[1..], b, env);
    }
  }

  lemma HandleOne(link: Link, e: Engine, f: Frame, env: Env)
    ensures HandleAll(link, e, [f], env) == Step(e, TakeAction(link, f), env)
  {
    hide Step, TakeAction;
    assert [f][1..] == [];
  }

  /** A request to the peer whose answer has not begun to arrive. */
  ghost predicate Awaits(link: Link, e: Engine, id: RequestId, piece: Piece) {
    && id in e.outstanding && e.outstanding[id].peer == link.peer && e.outstanding[id].piece == piece
    && id !in e.tombstones && id !in e.incoming && link.peer !in e.pending && !e.disposed && Registered(e, piece)
  }

  predicate Calm(env: Env) {
    env.deleteOk && env.writeOk && env.persistOk && env.broadcastOk && env.replyOk
  }

  /** `a` is what arrived of the piece once the first `n` chunks did. */
  ghost predicate Begun(link: Link, a: Assembly, piece: Piece, parts: seq<Bytes>, n: nat) {
    Slots(a, link.peer, piece, parts, seq(n, i => i))
  }

  /** A header and its chunk, when it is not the last one. */
  lemma ChunkJoins(link: Link, e: Engine, id: RequestId, piece: Piece, parts: seq<Bytes>, n: nat, x: Engine, env: Env) returns (a: Assembly)
    requires Awaits(link, e, id, piece) && n + 1 < |parts|
    requires n == 0 ==> x == e
    requires n > 0 ==> id in x.incoming && x == e.(incoming := e.incoming[id := x.incoming[id]]) && Begun(link, x.incoming[id], piece, parts, n)
    ensures Begun(link, a, piece, parts, n + 1)
    ensures HandleAll(link, x, [FrameAt(piece, id, parts, 2 * n), FrameAt(piece, id, parts, 2 * n + 1)], env) == e.(incoming := e.incoming[id := a])
  {
    hide Step, ReceiveHeader, ReceiveBinary, AppendChunk, Slots, HandleAll, Fresh;
    var h := HeaderFor(piece, id, parts, n);
    a := ChunkAppended(link, id, piece, parts, n, if n == 0 then None else Some(x.incoming[id]));
    var y := x.(pending := x.pending[link.peer := h]);
    HeaderHandled(x, link.peer, h, env);
    assert ReceiveHeader(x, link.peer, h, env) == y;
    TwoFrames(link, x, h, parts[n], env);
    EngineStepsBinary(y, link.peer, parts[n], env, h, Incomplete(a));
    assert y.pending - {link.peer} == e.pending;
    assert x.incoming[id := a] == e.incoming[id := a];
    assert HandleAll(link, x, [HeaderFrame(h), BinaryFrame(parts[n])], env) == e.(incoming := e.incoming[id := a]);
  }

  lemma EngineStepsBinary(e: Engine, peer: PeerId, frame: Bytes, env: Env, h: Header, r: Appended)
    requires peer in e.pending && h == e.pending[peer] && r.Incomplete?
    requires r == AppendChunk(if h.id in e.incoming then Some(e.incoming[h.id]) else None, peer, h, frame)
    ensures ReceiveBinary(e, peer, frame, env) == e.(pending := e.pending - {peer}, incoming := e.incoming[h.id := r.assembly])
  {
    hide RejectChunk, Deliver, AppendChunk;
  }

  /** The chunk after the first `n` ones. */
  lemma ChunkAppended(link: Link, id: RequestId, piece: Piece, parts: seq<Bytes>, n: nat, before: Option<Assembly>) returns (a: Assembly)
    requires n + 1 < |parts| && (n == 0 <==> before.None?) && (n > 0 ==> Begun(link, before.value, piece, parts, n))
    ensures AppendChunk(before, link.peer, HeaderFor(piece, id, parts, n), parts[n]) == Incomplete(a) && Begun(link, a, piece, parts, n + 1)
  {
    hide AppendChunk, Slots, Fresh;
    var first: seq<nat> := seq(n, i => i);
    var h := HeaderFor(piece, id, parts, n);
    assert first + [n] == seq(n + 1, i => i);
    if n == 0 {
      ReceiveFirst(link.peer, piece, id, parts, 0);
      assert first == [];
    }
    var was := if n == 0 then Fresh(link.peer, h) else before.value;
    ReceiveNext(was, link.peer, piece, id, parts, first, n);
    a := AppendChunk(Some(was), link.peer, h, parts[n]).assembly;
  }

  lemma LastAppended(link: Link, id: RequestId, piece: Piece, parts: seq<Bytes>, n: nat, before: Option<Assembly>)
    requires n + 1 == |parts| && (n == 0 <==> before.None?) && (n > 0 ==> Begun(link, before.value, piece, parts, n))
    ensures AppendChunk(before, link.peer, HeaderFor(piece, id, parts, n), parts[n]) == Appended.Complete(Concat(parts))
  {
    hide AppendChunk, Slots, Fresh, Concat;
    var first: seq<nat> := seq(n, i => i);
    var h := HeaderFor(piece, id, parts, n);
    if n == 0 {
      ReceiveFirst(link.peer, piece, id, parts, 0);
      assert first == [];
    }
    ReceiveNext(if n == 0 then Fresh(link.peer, h) else before.value, link.peer, piece, id, parts, first, n);
  }

  lemma TwoFrames(link: Link, e: Engine, h: Header, chunk: Bytes, env: Env)
    requires !e.disposed && ReceiveHeader(e, link.peer, h, env).disposed == e.disposed
    ensures HandleAll(link, e, [HeaderFrame(h), BinaryFrame(chunk)], env)
         == ReceiveBinary(ReceiveHeader(e, link.peer, h, env), link.peer, chunk, env)
  {
    hide Step, ReceiveHeader, ReceiveBinary, HandleAll;
    assert [HeaderFrame(h)] + [BinaryFrame(chunk)] == [HeaderFrame(h), BinaryFrame(chunk)];
    HandleAppend(link, e, [HeaderFrame(h)], [BinaryFrame(chunk)], env);
    HandleOne(link, e, HeaderFrame(h), env);
    FramesHandled(e, link.peer, h, chunk, env);
    var y := ReceiveHeader(e, link.peer, h, env);
    HandleOne(link, y, BinaryFrame(chunk), env);
    FramesHandled(y, link.peer, h, chunk, env);
  }

  /** The first `n` chunks of an answer, each under its header. */
  lemma {:induction false} ChunksJoin(link: Link, e: Engine, id: RequestId, piece: Piece, parts: seq<Bytes>, n: nat, env: Env) returns (a: Option<Assembly>)
    requires Awaits(link, e, id, piece) && n < |parts|
    ensures a.Some? <==> n > 0
    ensures n > 0 ==> Begun(link, a.value, piece, parts, n)
    ensures HandleAll(link, e, Frames(piece, id, parts)[..2 * n], env) == if n == 0 then e else e.(incoming := e.incoming[id := a.value])
  {
    hide Step, Begun, Frames;
    if n == 0 {
      a := None;
      assert Frames(piece, id, parts)[..0] == [];
    } else {
      var before := ChunksJoin(link, e, id, piece, parts, n - 1, env);
      var x := HandleAll(link, e, Frames(piece, id, parts)[..2 * (n - 1)], env);
      var b := ChunkJoins(link, e, id, piece, parts, n - 1, x, env);
      FramesPair(piece, id, parts, n - 1);
      HandleAppend(link, e, Frames(piece, id, parts)[..2 * (n - 1)], [FrameAt(piece, id, parts, 2 * (n - 1)), FrameAt(piece, id, parts, 2 * n - 1)], env);
      a := Some(b);
    }
  }

  lemma FramesPair(piece: Piece, id: RequestId, parts: seq<Bytes>, n: nat)
    requires n < |parts|
    ensures Frames(piece, id, parts)[..2 * n + 2]
         == Frames(piece, id, parts)[..2 * n] + [FrameAt(piece, id, parts, 2 * n), FrameAt(piece, id, parts, 2 * n + 1)]
    ensures FrameAt(piece, id, parts, 2 * n) == HeaderFrame(HeaderFor(piece, id, parts, n)) && FrameAt(piece, id, parts, 2 * n + 1) == BinaryFrame(parts[n])
  {
    var f := Frames(piece, id, parts);
    assert f[..2 * n + 2] == f[..2 * n] + [f[2 * n], f[2 * n + 1]];
  }

  /** A whole answer: the piece is verified and stored, and its request is over. */
  ghost predicate Answered(link: Link, a: Engine, b: Engine, id: RequestId, piece: Piece)
    requires Registered(a, piece)
  {
    && OnlyPiece(a, b, piece, EngineOutcomes.Complete(a.managers[piece.file][piece.index]))
    && b.storage == a.storage[piece := link.content(piece)] && NoLongerAsked(a, b, piece, id)
    && b.terminals == a.terminals + Reported(a, id, VerifiedOk)
    && ReceiptFrame(a, b) && OnlyDropped(a, b, piece, id)
  }

  lemma AnswerVerifies(link: Link, e: Engine, id: RequestId, piece: Piece, env: Env)
    requires link.chunkBytes > 0 && Awaits(link, e, id, piece) && Genuine(e, piece, link.content(piece)) && Calm(env)
    ensures Answered(link, e, HandleAll(link, e, Frames(piece, id, Parts(link, piece)), env), id, piece)
  {
    hide Step, Begun, Frames, FrameAt, Genuine, Answered, Parts, Concat, HandleAll, Awaits;
    var parts := Parts(link, piece);
    PartsNonEmpty(link, piece);
    PartsJoin(link, piece);
    var n := |parts| - 1;
    var a := ChunksJoin(link, e, id, piece, parts, n, env);
    var f := Frames(piece, id, parts);
    FramesPair(piece, id, parts, n);
    assert f[..2 * n + 2] == f;
    HandleAppend(link, e, f[..2 * n], [HeaderFrame(HeaderFor(piece, id, parts, n)), BinaryFrame(parts[n])], env);
    LastJoins(link, e, id, piece, parts, n, a, HandleAll(link, e, f[..2 * n], env), env);
  }

  /** The last header and its chunk. */
  lemma LastJoins(link: Link, e: Engine, id: RequestId, piece: Piece, parts: seq<Bytes>, n: nat, a: Option<Assembly>, x: Engine, env: Env)
    requires Awaits(link, e, id, piece) && Genuine(e, piece, link.content(piece)) && Calm(env)
    requires n + 1 == |parts| && Concat(parts) == link.content(piece)
    requires (n == 0 <==> a.None?) && (n > 0 ==> Begun(link, a.value, piece, parts, n))
    requires x == if n == 0 then e else e.(incoming := e.incoming[id := a.value])
    ensures Answered(link, e, HandleAll(link, x, [HeaderFrame(HeaderFor(piece, id, parts, n)), BinaryFrame(parts[n])], env), id, piece)
  {
    hide Step, Begun, AppendChunk, ReceiveHeader, ReceiveBinary, Genuine, OnlyPiece, NoLongerAsked, OnlyDropped, ReceiptFrame, Released, Concat, HandleAll, Reported, Answered;
    var h := HeaderFor(piece, id, parts, n);
    LastAppended(link, id, piece, parts, n, a);
    HeaderHandled(x, link.peer, h, env);
    var y := x.(pending := x.pending[link.peer := h]);
    assert ReceiveHeader(x, link.peer, h, env) == y;
    TwoFrames(link, x, h, parts[n], env);
    GenuineFrame(e, y, piece, link.content(piece));
    LastChunkVerifies(y, link.peer, parts[n], env, h, link.content(piece));
    AnswerFrame(link, e, y, ReceiveBinary(y, link.peer, parts[n], env), id, piece);
  }

  lemma PartsJoin(link: Link, piece: Piece)
    requires link.chunkBytes > 0
    ensures Concat(Parts(link, piece)) == link.content(piece)
  {
    var data := link.content(piece);
    hide ChunkAssembly.Split, Concat;
    SplitJoins(data, ChunkSize(link.chunkBytes, |data|));
  }

  /** Only the header and the chunks of this request came in between. */
  lemma AnswerFrame(link: Link, a: Engine, b: Engine, c: Engine, id: RequestId, piece: Piece)
    requires Registered(a, piece) && link.peer !in a.pending
    requires b == a.(pending := b.pending, incoming := b.incoming)
    requires link.peer in b.pending && b.pending == a.pending[link.peer := b.pending[link.peer]] && link.peer !in c.pending
    requires b.incoming - {id} == a.incoming - {id}
    requires OnlyPiece(b, c, piece, EngineOutcomes.Complete(b.managers[piece.file][piece.index]))
    requires c.storage == b.storage[piece := link.content(piece)] && NoLongerAsked(b, c, piece, id)
    requires c.terminals == b.terminals + Reported(b, id, VerifiedOk)
    requires ReceiptFrame(b, c) && OnlyDropped(b, c, piece, id)
    ensures Answered(link, a, c, id, piece)
  {
    hide OnlyPiece, NoLongerAsked, OnlyDropped, ReceiptFrame;
    SameStart(a, b, c, piece, EngineOutcomes.Complete(a.managers[piece.file][piece.index]));
    NoLongerFrame(a, b, c, piece, id);
    DroppedFrame(link, a, b, c, piece, id);
    ReceiptFrames(a, b, c);
  }

  lemma NoLongerFrame(a: Engine, b: Engine, c: Engine, p: Piece, id: RequestId)
    requires b.outstanding == a.outstanding && NoLongerAsked(b, c, p, id)
    ensures NoLongerAsked(a, c, p, id)
  {
  }

  lemma ReceiptFrames(a: Engine, b: Engine, c: Engine)
    requires b == a.(pending := b.pending, incoming := b.incoming) && ReceiptFrame(b, c)
    ensures ReceiptFrame(a, c)
  {
  }

  lemma DroppedFrame(link: Link, a: Engine, b: Engine, c: Engine, p: Piece, id: RequestId)
    requires b.outstanding == a.outstanding && b.tombstones == a.tombstones && link.peer in b.pending
    requires b.pending == a.pending[link.peer := b.pending[link.peer]] && link.peer !in c.pending
    requires b.incoming - {id} == a.incoming - {id} && OnlyDropped(b, c, p, id)
    ensures OnlyDropped(a, c, p, id)
  {
    forall i | i in c.incoming
      ensures i in a.incoming && i != id && c.incoming[i] == a.incoming[i]
    {
      assert i in b.incoming - {id};
    }
  }

  // ----- a window asks -----

  /** The pieces of the file up to `m` are verified, those up to `r` asked for, and the others never were. */
  ghost predicate Marked(s: States, m: nat, r: nat) {
    && m <= r <= |s|
    && (forall i :: 0 <= i < m ==> s[i].status == Verified) && (forall i :: m <= i < r ==> s[i].status == Requested)
    && (forall i :: r <= i < |s| ==> s[i].status == Missing && s[i].retryCount == 0)
  }

  /** What a fill asks for when nothing is under way: the next pieces, one after the other. */
  lemma FilledInOrder(p: Engine, b: Engine, peer: PeerId, file: FileId, o: DirectOptions, cap: nat, now: int, r: nat)
    requires file in p.managers && o.window in p.windows && Filled(p, b, peer, file, o, cap, now) && cap > 0
    requires |p.issued| == r < |p.managers[file]| && Marked(p.managers[file], r, r) && Load(p, o.window) == 0
    ensures r < |b.issued| <= |p.managers[file]|
    ensures forall k :: r <= k < |b.issued| ==> b.issued[k].request.piece == Piece(file, k)
  {
    hide Load, MarkedAsked;
    var s := p.managers[file];
    assert forall i: nat :: i < |s| ==> (EngineFill.Askable(s[i], p.cfg.maxRetries) <==> i >= r);
    AskedInOrder(p, b, peer, file, o, cap, now, r, |b.issued|);
    NobodyAsks(b, r, r);
    if |b.issued| > r {
      assert MadeFor(p, b, peer, file, o, now, |b.issued| - 1);
    }
  }

  lemma NobodyAsks(b: Engine, i: nat, n: nat)
    requires n <= |b.issued|
    ensures !Asks(b, i, n, n)
  {
  }

  lemma {:induction false} AskedInOrder(p: Engine, b: Engine, peer: PeerId, file: FileId, o: DirectOptions, cap: nat, now: int, r: nat, n: nat)
    requires file in p.managers && o.window in p.windows && Filled(p, b, peer, file, o, cap, now)
    requires |p.issued| == r <= n <= |b.issued|
    requires forall i: nat :: i < |p.managers[file]| ==> (EngineFill.Askable(p.managers[file][i], p.cfg.maxRetries) <==> i >= r)
    ensures forall k :: r <= k < n ==> b.issued[k].request.piece == Piece(file, k)
  {
    hide Load, MarkedAsked, EngineFill.Askable;
    if n > r {
      AskedInOrder(p, b, peer, file, o, cap, now, r, n - 1);
      var k := n - 1;
      assert MadeFor(p, b, peer, file, o, now, k);
      var i := b.issued[k].request.piece.index;
      assert i >= r;
      if k > r {
        assert b.issued[k - 1].request.piece.index == k - 1;
      }
      assert i > k ==> Asks(b, k, r, k);
    }
  }

  // ----- the state between answers -----

  /** The engine with `r` pieces asked for and `m` of them received, when nothing is arriving. */
  ghost predicate Received(link: Link, e0: Engine, e: Engine, file: FileId, m: nat, r: nat) {
    && e.cfg == e0.cfg && e.manifests == e0.manifests && !e.disposed
    && e.tombstones == {} && e.pending == map[] && e.incoming == map[]
    && |e.issued| == r && (forall k :: 0 <= k < r ==> e.issued[k].request.piece == Piece(file, k) && e.issued[k].request.peer == link.peer && e.issued[k].request.kind.Direct?)
    && (forall id: RequestId :: id in e.outstanding <==> m <= id < r) && (forall id :: id in e.outstanding ==> e.outstanding[id] == e.issued[id].request)
    && |e.terminals| == m && (forall k :: 0 <= k < m ==> e.terminals[k].id == k && e.terminals[k].reason == VerifiedOk)
    && file in e.manifests && file in e.managers && |e.managers[file]| == |e.manifests[file]| && Marked(e.managers[file], m, r)
    && forall i: nat :: i < m ==> Piece(file, i) in e.storage && e.storage[Piece(file, i)] == link.content(Piece(file, i))
  }

  /** The window is not known yet, or has nothing to do. */
  predicate Resting(e: Engine, link: Link, file: FileId, o: DirectOptions, cap: nat) {
    o.window in e.windows ==>
      var w := e.windows[o.window];
      w.file == file && w.peer == link.peer && w.controller == o.controller && w.cap == cap && !w.disabled && w.queue == []
  }

  ghost predicate Between(link: Link, w0: World, w: World, file: FileId, o: DirectOptions, cap: nat, m: nat, r: nat) {
    && Received(link, w0.e, w.e, file, m, r) && Resting(w.e, link, file, o, cap)
    && (forall id: RequestId :: id in w.arrived <==> id < m) && w.jobs == [] && w.unsent == [] && w.channel == [] && w.torn == {}
  }

  lemma AtFirst(link: Link, w0: World, file: FileId, o: DirectOptions, cap: nat)
    requires Quiet(w0) && file in w0.e.manifests
    ensures Between(link, w0, w0, file, o, cap, 0, 0)
  {
  }

  /** The peer holds what the manifest describes. */
  ghost predicate Honest(link: Link, e: Engine, file: FileId) {
    file in e.manifests && file in e.managers && |e.manifests[file]| == |e.managers[file]|
    && forall i: nat :: i < |e.manifests[file]| ==> Genuine(e, Piece(file, i), link.content(Piece(file, i)))
  }

  // ----- asking for more -----

  /** Opening the window and running its fill asks for the next pieces. */
  lemma MoreAsked(link: Link, e0: Engine, e: Engine, file: FileId, o: DirectOptions, cap: nat, r: nat, env: Env)
    requires Received(link, e0, e, file, r, r) && Resting(e, link, file, o, cap) && r < |e.manifests[file]|
    requires cap > 0 && o.timeoutMs > 0
    requires forall id: RequestId :: env.sendOk(id) && env.saveOk(id)
    ensures var b := Step(Step(e, DoOpen(link.peer, file, o, cap), env), DoTask(o.window), env);
      r < |b.issued| <= |e.manifests[file]| && Received(link, e0, b, file, r, |b.issued|) && Resting(b, link, file, o, cap)
  {
    hide Step, RunTask, Filled, FillFrame, Load, Marked;
    var key, fill := o.window, o.(retryCount := 0);
    var e1 := Step(e, DoOpen(link.peer, file, o, cap), env);
    OpensWith(e, link, file, o, cap, env);
    var w := e1.windows[key];
    var p := e1.(windows := e1.windows[key := w.(queue := w.queue[1..])]);
    assert FreshIds(e1);
    TaskFills(e1, key, fill, env);
    OthersHandled(e1, Everything, 0, key, env);
    var b := RunTask(e1, key, env);
    assert Load(p, key) == 0 by { NoLoad(p, key); }
    FilledInOrder(p, b, link.peer, file, fill, cap, env.view.now, r);
    SameReceived(link, e0, e, p, file, r);
    MoreReceived(link, e0, p, b, file, fill, cap, env.view.now, r);
    FillRests(p, b);
  }

  lemma SameReceived(link: Link, e0: Engine, a: Engine, b: Engine, file: FileId, r: nat)
    requires Received(link, e0, a, file, r, r) && b == a.(windows := b.windows, windowOrder := b.windowOrder, nextGeneration := b.nextGeneration)
    ensures Received(link, e0, b, file, r, r)
  {
  }

  lemma FillRests(a: Engine, b: Engine)
    requires FillFrame(a, b)
    ensures b.windows == a.windows
  {
  }

  lemma NoLoad(e: Engine, key: WindowKey)
    requires e.outstanding == map[]
    ensures Load(e, key) == 0
  {
    assert (set id | id in e.outstanding && e.outstanding[id].kind.Direct? && e.outstanding[id].kind.info.window == key) == {};
  }

  lemma OpensWith(e: Engine, link: Link, file: FileId, o: DirectOptions, cap: nat, env: Env)
    requires Resting(e, link, file, o, cap) && cap > 0 && !e.disposed
    ensures var b, key := Step(e, DoOpen(link.peer, file, o, cap), env), o.window;
      && key in b.windows && b.windows[key].queue == [Fill(o.(retryCount := 0))] && !b.windows[key].disabled
      && b.windows[key].file == file && b.windows[key].peer == link.peer && b.windows[key].controller == o.controller && b.windows[key].cap == cap
      && b == e.(windows := b.windows, windowOrder := b.windowOrder, nextGeneration := b.nextGeneration)
  {
    hide Step;
    OpenMeaning(e, link.peer, file, o, cap, env);
    assert [] + [Fill(o.(retryCount := 0))] == [Fill(o.(retryCount := 0))];
  }

  lemma MoreReceived(link: Link, e0: Engine, p: Engine, b: Engine, file: FileId, o: DirectOptions, cap: nat, now: int, r: nat)
    requires Received(link, e0, p, file, r, r) && o.window in p.windows && r < |p.managers[file]|
    requires Filled(p, b, link.peer, file, o, cap, now) && FillFrame(p, b)
    requires r < |b.issued| <= |p.managers[file]|
    requires forall k :: r <= k < |b.issued| ==> b.issued[k].request.piece == Piece(file, k)
    ensures Received(link, e0, b, file, r, |b.issued|)
  {
    hide Load;
    var n := |b.issued|;
    forall k | 0 <= k < n
      ensures b.issued[k].request.piece == Piece(file, k) && b.issued[k].request.peer == link.peer && b.issued[k].request.kind.Direct?
      ensures k >= r ==> k in b.outstanding && b.outstanding[k] == b.issued[k].request
    {
      if k < r {
        assert b.issued[k] == p.issued[k];
      } else {
        assert MadeFor(p, b, link.peer, file, o, now, k);
      }
    }
    MoreMarked(p, b, link.peer, file, r);
  }

  lemma MoreMarked(p: Engine, b: Engine, peer: PeerId, file: FileId, r: nat)
    requires file in p.managers && Marked(p.managers[file], r, r) && MarkedAsked(p, b, peer, file)
    requires |p.issued| == r < |b.issued| <= |p.managers[file]|
    requires forall k :: r <= k < |b.issued| ==> b.issued[k].request.piece == Piece(file, k)
    ensures Marked(b.managers[file], r, |b.issued|)
  {
    var n := |b.issued|;
    forall i: nat | i < |p.managers[file]|
      ensures Asks(b, i, r, n) <==> r <= i < n
    {
      assert r <= i < n ==> b.issued[i].request.piece.index == i;
    }
  }

  // ----- one request served -----

  /** The frames to be sent, each sent and handled. */
  lemma {:induction false} SentAndHandled(link: Link, w0: World, run: seq<Happening>, env: Env) returns (longer: seq<Happening>)
    requires link.chunkBytes > 0 && Possible(link, w0, run) && Play(link, w0, run).channel == []
    ensures Possible(link, w0, longer)
    ensures var w, v := Play(link, w0, run), Play(link, w0, longer);
      && v.e == HandleAll(link, w.e, w.unsent, env) && v.unsent == [] && v.channel == []
      && v.arrived == w.arrived && v.jobs == w.jobs && v.torn == w.torn
    decreases |Play(link, w0, run).unsent|
  {
    hide Step, TakeAction, Possible, Play;
    longer := run;
    var w := Play(link, w0, run);
    if w.unsent != [] {
      longer := Moved(link, w0, longer, Send, env);
      assert Play(link, w0, longer).channel == [w.unsent[0]];
      longer := Moved(link, w0, longer, Take, env);
      longer := SentAndHandled(link, w0, longer, env);
    }
  }

  /** The next request reaches the peer, is answered, and its piece is received. */
  lemma NextServed(link: Link, w0: World, run: seq<Happening>, file: FileId, o: DirectOptions, cap: nat, m: nat, r: nat, env: Env)
    returns (longer: seq<Happening>)
    requires link.chunkBytes > 0 && Possible(link, w0, run) && Between(link, w0, Play(link, w0, run), file, o, cap, m, r) && m < r
    requires Honest(link, w0.e, file) && Calm(env)
    ensures Possible(link, w0, longer) && Between(link, w0, Play(link, w0, longer), file, o, cap, m + 1, r)
  {
    hide Step, HandleAll, Possible, Play, Parts, Frames, Answered, Received, Resting, Honest;
    var w, piece := Play(link, w0, run), Piece(file, m);
    UnderWay(link, w0.e, w.e, file, m, r);
    longer := Moved(link, w0, run, Arrive(m), env);
    longer := Moved(link, w0, longer, Begin(true), env);
    longer := SentAndHandled(link, w0, longer, env);
    HonestPiece(link, w0.e, w.e, file, m, r);
    AnswerVerifies(link, w.e, m, piece, env);
    var b := HandleAll(link, w.e, Frames(piece, m, Parts(link, piece)), env);
    AnswerReceived(link, w0.e, w.e, b, file, m, r);
    AnswerRests(link, w.e, b, m, piece, file, o, cap);
  }

  lemma UnderWay(link: Link, e0: Engine, e: Engine, file: FileId, m: nat, r: nat)
    requires Received(link, e0, e, file, m, r) && m < r
    ensures Awaits(link, e, m, Piece(file, m)) && m < |e.issued| && e.issued[m].request.peer == link.peer && e.issued[m].request.piece == Piece(file, m)
  {
  }

  lemma HonestPiece(link: Link, e0: Engine, e: Engine, file: FileId, m: nat, r: nat)
    requires Honest(link, e0, file) && Received(link, e0, e, file, m, r) && m < r
    ensures Registered(e, Piece(file, m)) && Genuine(e, Piece(file, m), link.content(Piece(file, m)))
  {
    assert Genuine(e0, Piece(file, m), link.content(Piece(file, m)));
  }

  lemma AnswerRests(link: Link, a: Engine, b: Engine, id: RequestId, piece: Piece, file: FileId, o: DirectOptions, cap: nat)
    requires Registered(a, piece) && Answered(link, a, b, id, piece) && Resting(a, link, file, o, cap)
    ensures Resting(b, link, file, o, cap)
  {
    hide OnlyPiece, NoLongerAsked, OnlyDropped;
  }

  lemma AnswerReceived(link: Link, e0: Engine, a: Engine, b: Engine, file: FileId, m: nat, r: nat)
    requires Received(link, e0, a, file, m, r) && m < r && Registered(a, Piece(file, m)) && Answered(link, a, b, m, Piece(file, m))
    ensures Received(link, e0, b, file, m + 1, r)
  {
    hide OnlyPiece, Marked, NoLongerAsked, OnlyDropped;
    AnswerOutstanding(link, e0, a, b, file, m, r);
    AnswerDropped(link, e0, a, b, file, m, r);
    AnswerMarked(a, b, file, m, r);
    assert m in a.outstanding && a.outstanding[m] == a.issued[m].request;
    forall i: nat | i < m + 1
      ensures Piece(file, i) in b.storage && b.storage[Piece(file, i)] == link.content(Piece(file, i))
    {
    }
  }

  lemma AnswerOutstanding(link: Link, e0: Engine, a: Engine, b: Engine, file: FileId, m: nat, r: nat)
    requires Received(link, e0, a, file, m, r) && m < r && NoLongerAsked(a, b, Piece(file, m), m)
    ensures forall id: RequestId :: id in b.outstanding <==> m + 1 <= id < r
    ensures forall id :: id in b.outstanding ==> b.outstanding[id] == a.issued[id].request
  {
    hide Marked;
    forall id: RequestId | id in a.outstanding
      ensures a.outstanding[id].piece == Piece(file, id)
    {
    }
  }

  lemma AnswerDropped(link: Link, e0: Engine, a: Engine, b: Engine, file: FileId, m: nat, r: nat)
    requires Received(link, e0, a, file, m, r) && m < r && OnlyDropped(a, b, Piece(file, m), m)
    ensures b.tombstones == {} && b.pending == map[] && b.incoming == map[]
  {
    hide Marked;
    forall id: RequestId | id in a.outstanding
      ensures a.outstanding[id].piece == Piece(file, id)
    {
    }
    assert forall q :: q !in b.pending;
    assert forall i :: i !in b.incoming;
  }

  lemma AnswerMarked(a: Engine, b: Engine, file: FileId, m: nat, r: nat)
    requires file in a.managers && m < r && Marked(a.managers[file], m, r)
    requires OnlyPiece(a, b, Piece(file, m), EngineOutcomes.Complete(a.managers[file][m]))
    ensures file in b.managers && |b.managers[file]| == |a.managers[file]| && Marked(b.managers[file], m + 1, r)
  {
  }

  // ----- the whole file -----

  /** From between two answers to the end: fill the window when it is empty, else serve the next request. */
  lemma {:induction false} Fetch(link: Link, w0: World, run: seq<Happening>, file: FileId, o: DirectOptions, cap: nat, m: nat, r: nat, env: Env)
    returns (longer: seq<Happening>)
    requires link.chunkBytes > 0 && Possible(link, w0, run) && Between(link, w0, Play(link, w0, run), file, o, cap, m, r)
    requires Honest(link, w0.e, file) && Calm(env) && cap > 0 && o.timeoutMs > 0
    requires forall id: RequestId :: env.sendOk(id) && env.saveOk(id)
    ensures var n := |w0.e.manifests[file]|;
      Possible(link, w0, longer) && Between(link, w0, Play(link, w0, longer), file, o, cap, n, n)
    decreases 2 * |w0.e.manifests[file]| - m - r
  {
    hide Step, Possible, Play, Received, Resting, Honest;
    longer := run;
    var w := Play(link, w0, run);
    BetweenBounds(link, w0.e, w.e, file, m, r);
    var n := |w0.e.manifests[file]|;
    if m < r {
      longer := NextServed(link, w0, longer, file, o, cap, m, r, env);
      longer := Fetch(link, w0, longer, file, o, cap, m + 1, r, env);
    } else if r < n {
      MoreAsked(link, w0.e, w.e, file, o, cap, r, env);
      longer := Acts(link, w0, longer, DoOpen(link.peer, file, o, cap), env);
      longer := Acts(link, w0, longer, DoTask(o.window), env);
      longer := Fetch(link, w0, longer, file, o, cap, m, |Play(link, w0, longer).e.issued|, env);
    }
  }

  lemma BetweenBounds(link: Link, e0: Engine, e: Engine, file: FileId, m: nat, r: nat)
    requires Received(link, e0, e, file, m, r)
    ensures file in e0.manifests && e.manifests == e0.manifests && m <= r <= |e0.manifests[file]|
  {
  }

  /** A header whose chunk was never sent stays on record. */
  lemma {:induction false} TornGrows(link: Link, w0: World, run: seq<Happening>, k: nat)
    requires link.chunkBytes > 0 && Possible(link, w0, run) && k <= |run|
    ensures Possible(link, w0, run[..k]) && Play(link, w0, run[..k]).torn <= Play(link, w0, run).torn
    decreases |run|
  {
    hide Step, Frames, Parts;
    if k == |run| {
      assert run[..k] == run;
    } else {
      var n := |run| - 1;
      TornGrows(link, w0, run[..n], k);
      assert run[..n][..k] == run[..k];
      assert Play(link, w0, run) == Next(link, Play(link, w0, run[..n]), run[n].move, run[n].env);
    }
  }

  /** From any quiet world, with a peer that holds the pieces its manifest describes: there is a run, in
      which nothing fails and no header meets another, after which every piece of the file is verified and
      stored with the peer's bytes, each having been asked for once and reported verified, and nothing is
      under way any more. */
  lemma EveryPieceArrives(link: Link, w0: World, file: FileId, o: DirectOptions, cap: nat, env: Env) returns (run: seq<Happening>)
    requires link.chunkBytes > 0 && Quiet(w0) && Honest(link, w0.e, file)
    requires cap > 0 && o.timeoutMs > 0 && Calm(env) && forall id: RequestId :: env.sendOk(id) && env.saveOk(id)
    ensures Possible(link, w0, run)
    ensures forall k :: 0 <= k <= |run| ==> Possible(link, w0, run[..k]) && !Clash(link, Play(link, w0, run[..k]))
    ensures var w, n := Play(link, w0, run), |w0.e.manifests[file]|;
      && file in w.e.managers && |w.e.managers[file]| == n
      && (forall i: nat :: i < n ==>
            && w.e.managers[file][i].status == Verified
            && Piece(file, i) in w.e.storage && w.e.storage[Piece(file, i)] == link.content(Piece(file, i)))
      && |w.e.issued| == n && (forall i: nat :: i < n ==> w.e.issued[i].request.piece == Piece(file, i))
      && |w.e.terminals| == n && (forall i: nat :: i < n ==> w.e.terminals[i].id == i && w.e.terminals[i].reason == VerifiedOk)
      && w.e.outstanding == map[] && w.jobs == [] && w.unsent == [] && w.channel == []
  {
    hide Possible, Play, Step, Clash, Honest;
    NoMoves(link, w0);
    HonestKnows(link, w0.e, file);
    AtFirst(link, w0, file, o, cap);
    run := Fetch(link, w0, [], file, o, cap, 0, 0, env);
    var w := Play(link, w0, run);
    assert forall id: RequestId :: id !in w.e.outstanding;
    forall k | 0 <= k <= |run|
      ensures Possible(link, w0, run[..k]) && !Clash(link, Play(link, w0, run[..k]))
    {
      TornGrows(link, w0, run, k);
      NothingTorn(link, Play(link, w0, run[..k]));
    }
  }

  lemma HonestKnows(link: Link, e: Engine, file: FileId)
    requires Honest(link, e, file)
    ensures file in e.manifests && file in e.managers
  {
  }

  lemma NothingTorn(link: Link, w: World)
    requires w.torn == {}
    ensures !Clash(link, w)
  {
  }

  /** If the peer holds the owner's file, the assembled file is the owner's, byte for byte. */
  lemma WholeFileArrives(link: Link, w0: World, file: FileId, owner: Bytes, pieceSize: nat, o: DirectOptions, cap: nat, env: Env)
    returns (run: seq<Happening>)
    requires link.chunkBytes > 0 && Quiet(w0) && pieceSize > 0
    requires file in w0.e.manifests && w0.e.manifests[file] == ManifestOf(w0.e.cfg.hash, owner, pieceSize)
    requires forall i: nat :: i < PieceCount(|owner|, pieceSize) ==> link.content(Piece(file, i)) == Slice(owner, pieceSize, i)
    requires cap > 0 && o.timeoutMs > 0 && Calm(env) && forall id: RequestId :: env.sendOk(id) && env.saveOk(id)
    ensures Possible(link, w0, run)
    ensures Assemble(Play(link, w0, run).e.storage, file, PieceCount(|owner|, pieceSize)) == Some(owner)
  {
    hide Possible, Play, Slice, PieceCount, ManifestOf;
    OwnerIsHonest(link, w0, file, owner, pieceSize);
    hide Honest, Quiet;
    run := EveryPieceArrives(link, w0, file, o, cap, env);
    AssembleExactly(Play(link, w0, run).e.storage, file, owner, pieceSize, PieceCount(|owner|, pieceSize));
    PiecesMakeFile(owner, pieceSize);
  }

  lemma OwnerIsHonest(link: Link, w0: World, file: FileId, owner: Bytes, pieceSize: nat)
    requires Quiet(w0) && pieceSize > 0
    requires file in w0.e.manifests && w0.e.manifests[file] == ManifestOf(w0.e.cfg.hash, owner, pieceSize)
    requires forall i: nat :: i < PieceCount(|owner|, pieceSize) ==> link.content(Piece(file, i)) == Slice(owner, pieceSize, i)
    ensures Honest(link, w0.e, file) && |w0.e.manifests[file]| == PieceCount(|owner|, pieceSize)
  {
    hide Slice, PieceCount;
  }

  lemma {:induction false} AssembleExactly(storage: Stored, file: FileId, owner: Bytes, pieceSize: nat, n: nat)
    requires pieceSize > 0 && n <= PieceCount(|owner|, pieceSize)
    requires forall i: nat :: i < n ==> Piece(file, i) in storage && storage[Piece(file, i)] == Slice(owner, pieceSize, i)
    ensures Assemble(storage, file, n) == Some(Concat(Slices(owner, pieceSize, n)))
  {
    hide PieceCount, Concat, Slice;
    if n > 0 {
      AssembleExactly(storage, file, owner, pieceSize, n - 1);
      ConcatSnoc(Slices(owner, pieceSize, n - 1), Slice(owner, pieceSize, n - 1));
    } else {
      NoParts();
    }
  }

  // ----- a piece that is stored and failed -----

  /** The answer comes in whole, is stored and saved, but the new piece map does not reach everybody. */
  ghost predicate Unannounced(link: Link, a: Engine, b: Engine, id: RequestId, piece: Piece) {
    && Registered(b, piece) && b.managers[piece.file][piece.index].status == Failed
    && piece in b.storage && b.storage[piece] == link.content(piece)
    && b.terminals == a.terminals + Reported(a, id, VerifiedOk)
  }

  lemma AnswerUnannounced(link: Link, e: Engine, id: RequestId, piece: Piece, env: Env)
    requires link.chunkBytes > 0 && Awaits(link, e, id, piece) && Genuine(e, piece, link.content(piece))
    requires env.writeOk && env.persistOk && !env.broadcastOk
    ensures Unannounced(link, e, HandleAll(link, e, Frames(piece, id, Parts(link, piece)), env), id, piece)
  {
    hide Step, Begun, Frames, FrameAt, Genuine, Parts, Concat, HandleAll, Awaits, Unannounced;
    var parts := Parts(link, piece);
    PartsNonEmpty(link, piece);
    PartsJoin(link, piece);
    var n := |parts| - 1;
    var a := ChunksJoin(link, e, id, piece, parts, n, env);
    var f := Frames(piece, id, parts);
    FramesPair(piece, id, parts, n);
    assert f[..2 * n + 2] == f;
    HandleAppend(link, e, f[..2 * n], [HeaderFrame(HeaderFor(piece, id, parts, n)), BinaryFrame(parts[n])], env);
    LastUnannounced(link, e, id, piece, parts, n, a, HandleAll(link, e, f[..2 * n], env), env);
  }

  lemma LastUnannounced(link: Link, e: Engine, id: RequestId, piece: Piece, parts: seq<Bytes>, n: nat, a: Option<Assembly>, x: Engine, env: Env)
    requires Awaits(link, e, id, piece) && Genuine(e, piece, link.content(piece))
    requires env.writeOk && env.persistOk && !env.broadcastOk
    requires n + 1 == |parts| && Concat(parts) == link.content(piece)
    requires (n == 0 <==> a.None?) && (n > 0 ==> Begun(link, a.value, piece, parts, n))
    requires x == if n == 0 then e else e.(incoming := e.incoming[id := a.value])
    ensures Unannounced(link, e, HandleAll(link, x, [HeaderFrame(HeaderFor(piece, id, parts, n)), BinaryFrame(parts[n])], env), id, piece)
  {
    hide Step, Begun, AppendChunk, ReceiveHeader, ReceiveBinary, Genuine, Concat, HandleAll, Reported;
    var h := HeaderFor(piece, id, parts, n);
    LastAppended(link, id, piece, parts, n, a);
    HeaderHandled(x, link.peer, h, env);
    var y := x.(pending := x.pending[link.peer := h]);
    assert ReceiveHeader(x, link.peer, h, env) == y;
    TwoFrames(link, x, h, parts[n], env);
    GenuineFrame(e, y, piece, link.content(piece));
    VerifiedExactly(y, link.peer, parts[n], env, h, link.content(piece));
    ReportedAlike(e, y, id);
  }

  /** From any quiet world with a piece to fetch: a run after which the right bytes of the piece are stored and
      its request was reported verified, but the piece has failed. Only the announcement of the new piece map
      did not succeed. */
  lemma UnannouncedRun(link: Link, w0: World, file: FileId, o: DirectOptions, cap: nat, env: Env, silent: Env) returns (run: seq<Happening>)
    requires link.chunkBytes > 0 && Quiet(w0) && Honest(link, w0.e, file) && |w0.e.manifests[file]| > 0
    requires cap > 0 && o.timeoutMs > 0 && forall id: RequestId :: env.sendOk(id) && env.saveOk(id)
    requires silent.writeOk && silent.persistOk && !silent.broadcastOk
    ensures Possible(link, w0, run)
    ensures var e := Play(link, w0, run).e;
      && file in e.managers && |e.managers[file]| > 0 && e.managers[file][0].status == Failed
      && Piece(file, 0) in e.storage && e.storage[Piece(file, 0)] == link.content(Piece(file, 0))
      && |e.terminals| == 1 && e.terminals[0].id == 0 && e.terminals[0].reason == VerifiedOk
  {
    hide Step, HandleAll, Possible, Play, Parts, Frames, Resting, Honest;
    HonestKnows(link, w0.e, file);
    NoMoves(link, w0);
    AtFirst(link, w0, file, o, cap);
    MoreAsked(link, w0.e, w0.e, file, o, cap, 0, env);
    run := Acts(link, w0, [], DoOpen(link.peer, file, o, cap), env);
    run := Acts(link, w0, run, DoTask(o.window), env);
    var w, piece := Play(link, w0, run), Piece(file, 0);
    var r := |w.e.issued|;
    UnderWay(link, w0.e, w.e, file, 0, r);
    FirstIsDirect(link, w0.e, w.e, file, r);
    HonestPiece(link, w0.e, w.e, file, 0, r);
    hide Received;
    run := Moved(link, w0, run, Arrive(0), silent);
    run := Moved(link, w0, run, Begin(true), silent);
    run := SentAndHandled(link, w0, run, silent);
    AnswerUnannounced(link, w.e, 0, piece, silent);
  }

  lemma FirstIsDirect(link: Link, e0: Engine, e: Engine, file: FileId, r: nat)
    requires Received(link, e0, e, file, 0, r) && r > 0
    ensures |Reported(e, 0, VerifiedOk)| == 1 && Reported(e, 0, VerifiedOk)[0].id == 0 && Reported(e, 0, VerifiedOk)[0].reason == VerifiedOk
    ensures e.terminals == []
  {
    assert 0 in e.outstanding && e.outstanding[0] == e.issued[0].request;
  }
}
