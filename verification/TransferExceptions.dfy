/** A run on which pairing does fail: the meeting named in `TransferPairing.Clash` is reachable from any
    quiet world in which two pieces can be asked for. */
module TransferExceptions {
  import opened Common
  import opened Pieces
  import opened ChunkAssembly
  import opened Availability
  import opened Engine
  import E = Engine
  import opened EngineSteps
  import opened EngineRuns
  import opened EngineEndings
  import opened TransferProtocol
  import opened TransferPairing

  /** `n` goes on from `e` with one more request, direct, to the peer and for the file. */
  ghost predicate OneMore(e: Engine, n: Engine, peer: PeerId, file: FileId, key: WindowKey, piece: Piece) {
    var id := |e.issued|;
    && |n.issued| == id + 1 && n.issued[..id] == e.issued
    && n.issued[id].request.piece == piece && n.issued[id].request.peer == peer
    && n.issued[id].request.kind.Direct? && n.issued[id].request.kind.info.window == key
    && n.outstanding == e.outstanding[id := n.issued[id].request]
    && n.pending == e.pending && n.tombstones == e.tombstones && n.terminals == e.terminals
    && n.cfg == e.cfg && n.disposed == e.disposed
    && n.windows.Keys == e.windows.Keys + {key}
    && file in e.managers && file in n.managers && piece.file == file && piece.index < |e.managers[file]|
    && n.managers[file] == e.managers[file][piece.index := MarkRequested(e.managers[file][piece.index], peer)]
  }

  lemma {:induction false} SomePiece(s: States, missing: seq<nat>, maxRetries: nat, i: nat)
    requires forall k :: 0 <= k < |missing| ==> missing[k] < |s| && Wanted(s[missing[k]])
    requires i in missing && s[i].retryCount <= maxRetries
    ensures NextAmong(s, missing, maxRetries).Some?
  {
    if s[missing[0]].retryCount > maxRetries {
      SomePiece(s, missing[1..], maxRetries, i);
    }
  }

  /** A window with room for one asks for one piece. */
  lemma WindowAsks(e: Engine, peer: PeerId, file: FileId, o: DirectOptions, env: Env, i: nat) returns (piece: Piece)
    requires !e.disposed && o.window !in e.windows && o.timeoutMs > 0 && InWindow(e, o.window) == {}
    requires file in e.managers && i < |e.managers[file]|
    requires Wanted(e.managers[file][i]) && e.managers[file][i].retryCount <= e.cfg.maxRetries
    requires env.sendOk(|e.issued|) && env.saveOk(|e.issued|)
    ensures OneMore(e, Step(Step(e, DoOpen(peer, file, o, 1), env), DoTask(o.window), env), peer, file, o.window, piece)
  {
    hide NextPiece, Record, SameShape, OneMore, Opened, E.Begin, RequestNext;
    var p, fill := Opened(e, peer, file, o, env), o.(retryCount := 0);
    NextIsSome(p.managers[file], p.cfg.maxRetries, i);
    piece := Piece(file, NextPiece(p.managers[file], p.cfg.maxRetries).value);
    RecordsOne(e, p, peer, file, fill, env, piece);
    var b := E.Begin(p, peer, file, Some(fill), None, env).value;
    FillStops(e, p, b, peer, file, fill, env, piece);
  }

  /** The window is full after one request. */
  lemma FillStops(e: Engine, p: Engine, b: Engine, peer: PeerId, file: FileId, o: DirectOptions, env: Env, piece: Piece)
    requires InWindow(e, o.window) == {} && p.outstanding == e.outstanding && OneMore(e, b, peer, file, o.window, piece)
    requires RequestNext(p, peer, file, Some(o), None, env) == (b, true)
    ensures FillLoop(p, peer, file, o, 1, env) == b
  {
    hide RequestNext;
    assert InWindow(p, o.window) == {};
    assert InWindow(b, o.window) == {|e.issued|};
  }

  lemma NextIsSome(s: States, maxRetries: nat, i: nat)
    requires i < |s| && Wanted(s[i]) && s[i].retryCount <= maxRetries
    ensures NextPiece(s, maxRetries).Some?
  {
    SomePiece(s, MissingPieces(s), maxRetries, i);
  }

  /** The engine in which the window has just been opened and its fill is under way. */
  function Opened(e: Engine, peer: PeerId, file: FileId, o: DirectOptions, env: Env): (p: Engine)
    requires !e.disposed && o.window !in e.windows
    ensures Step(Step(e, DoOpen(peer, file, o, 1), env), DoTask(o.window), env) == FillLoop(p, peer, file, o.(retryCount := 0), 1, env)
    ensures p == e.(windows := p.windows, windowOrder := p.windowOrder, nextGeneration := p.nextGeneration)
    ensures p.windows.Keys == e.windows.Keys + {o.window}
  {
    PopTask(OpenWindow(e, peer, file, o.(retryCount := 0), 1).0, o.window)
  }

  lemma RecordsOne(e: Engine, p: Engine, peer: PeerId, file: FileId, o: DirectOptions, env: Env, piece: Piece)
    requires p == e.(windows := p.windows, windowOrder := p.windowOrder, nextGeneration := p.nextGeneration)
    requires p.windows.Keys == e.windows.Keys + {o.window} && o.timeoutMs > 0
    requires file in p.managers && NextPiece(p.managers[file], p.cfg.maxRetries) == Some(piece.index) && piece.file == file
    requires env.sendOk(|e.issued|) && env.saveOk(|e.issued|)
    ensures E.Begin(p, peer, file, Some(o), None, env).Some?
    ensures var b := E.Begin(p, peer, file, Some(o), None, env).value;
      && OneMore(e, b, peer, file, o.window, piece)
      && RequestNext(p, peer, file, Some(o), None, env) == (b, true)
  {
    hide NextPiece, SameShape;
  }

  lemma PlaySnoc(link: Link, w: World, run: seq<Happening>, h: Happening)
    requires link.chunkBytes > 0 && Possible(link, w, run) && Can(link, Play(link, w, run), h.move)
    ensures Possible(link, w, run + [h]) && Play(link, w, run + [h]) == Next(link, Play(link, w, run), h.move, h.env)
  {
    hide Next, Can;
    assert (run + [h])[..|run|] == run;
  }

  /** The first four moves: two requests to the peer are under way, in two windows. */
  ghost predicate TwoAsked(link: Link, w0: World, w: World) {
    && w == w0.(e := w.e) && |w.e.issued| == 2 && !w.e.disposed && w.e.pending == map[] && w.e.tombstones == {} && w.e.terminals == []
    && w.e.outstanding == map[0 := w.e.issued[0].request, 1 := w.e.issued[1].request]
    && w.e.issued[0].request.peer == link.peer && w.e.issued[1].request.peer == link.peer
    && w.e.issued[0].request.kind.Direct? && w.e.issued[1].request.kind.Direct?
  }

  /** Two requests are made, their answers begun one after the other, and the chunk of the first is never
      sent: the second ends as `invalid_chunk` when its header comes, and its chunk comes next, while the
      header of the first waits. */
  lemma TornAnswerRun(link: Link, w0: World, file: FileId, a: DirectOptions, b: DirectOptions, env: Env) returns (run: seq<Happening>)
    requires link.chunkBytes > 0 && Quiet(w0) && file in w0.e.manifests && |w0.e.manifests[file]| >= 2
    requires a.window != b.window && a.timeoutMs > 0 && b.timeoutMs > 0
    requires forall id: RequestId :: id < 2 ==> env.sendOk(id) && env.saveOk(id)
    ensures Possible(link, w0, run)
    ensures var w := Play(link, w0, run);
      && Clash(link, w) && |w.e.issued| == 2 && |w.e.terminals| == 1
      && w.e.terminals[0].id == 1 && w.e.terminals[0].reason.InvalidChunk?
      && w.channel != [] && PartsOf(link, w.e.issued[1].request.piece)
      && w.channel[0] == BinaryFrame(Parts(link, w.e.issued[1].request.piece)[0])
      && w.e.pending[link.peer].id == 0 && !Paired(link, w, env)
  {
    hide Step, Possible, Play, TwoAsked, Clash, Parts, Paired, Quiet;
    assert |w0.e.manifests[file]| >= 2;
    run := Ask(link, w0, file, a, b, env);
    run := Serve(link, w0, run, env);
    run := Meet(link, w0, run, env);
    ClashesAreLive(link, Play(link, w0, run));
    PairingExactly(link, w0, run, env);
  }

  lemma ClashesAreLive(link: Link, w: World)
    requires Clash(link, w)
    ensures w.channel != [] && !w.e.disposed
  {
  }

  lemma NoMoves(link: Link, w0: World)
    requires link.chunkBytes > 0
    ensures Possible(link, w0, []) && Play(link, w0, []) == w0
  {
  }

  /** The receiver does something of its own. */
  lemma Acts(link: Link, w0: World, run: seq<Happening>, a: Action, env: Env) returns (longer: seq<Happening>)
    requires link.chunkBytes > 0 && Possible(link, w0, run) && Elsewhere(a, link.peer)
    ensures Possible(link, w0, longer)
    ensures Play(link, w0, longer) == Play(link, w0, run).(e := Step(Play(link, w0, run).e, a, env))
  {
    hide Step, Possible, Play;
    longer := run + [Happening(Move.Receiver(a), env)];
    PlaySnoc(link, w0, run, Happening(Move.Receiver(a), env));
  }

  /** The requests are made. */
  lemma Ask(link: Link, w0: World, file: FileId, a: DirectOptions, b: DirectOptions, env: Env) returns (run: seq<Happening>)
    requires link.chunkBytes > 0 && Quiet(w0) && file in w0.e.manifests && |w0.e.manifests[file]| >= 2
    requires a.window != b.window && a.timeoutMs > 0 && b.timeoutMs > 0
    requires forall id: RequestId :: id < 2 ==> env.sendOk(id) && env.saveOk(id)
    ensures Possible(link, w0, run) && TwoAsked(link, w0, Play(link, w0, run))
  {
    hide Step, Possible, Play;
    var e := w0.e;
    var p := WindowAsks(e, link.peer, file, a, env, 0);
    var c := Step(Step(e, DoOpen(link.peer, file, a, 1), env), DoTask(a.window), env);
    assert InWindow(c, b.window) == {};
    var q := WindowAsks(c, link.peer, file, b, env, if p.index == 0 then 1 else 0);
    var d := Step(Step(c, DoOpen(link.peer, file, b, 1), env), DoTask(b.window), env);
    assert d.issued[..1] == c.issued && d.issued[0] == c.issued[0];
    assert d.outstanding == map[0 := d.issued[0].request, 1 := d.issued[1].request];
    run := [];
    NoMoves(link, w0);
    run := Acts(link, w0, run, DoOpen(link.peer, file, a, 1), env);
    run := Acts(link, w0, run, DoTask(a.window), env);
    run := Acts(link, w0, run, DoOpen(link.peer, file, b, 1), env);
    run := Acts(link, w0, run, DoTask(b.window), env);
  }

  /** The header of the first chunk of an answer. */
  function FirstHeader(link: Link, w: World, id: RequestId): Header
    requires link.chunkBytes > 0 && id < |w.e.issued|
  {
    var piece := w.e.issued[id].request.piece;
    PartsNonEmpty(link, piece);
    HeaderFor(piece, id, Parts(link, piece), 0)
  }

  /** The peer turns to its next job and sends the first header; the chunk is due. */
  lemma BeginAndSend(link: Link, w: World, env: Env)
    requires link.chunkBytes > 0 && Can(link, w, Begin(true))
    ensures var b := Next(link, w, Begin(true), env);
      Can(link, b, Send) &&
      var n, h := Next(link, b, Send, env), FirstHeader(link, w, w.jobs[0]);
      && n == w.(jobs := w.jobs[1..], unsent := n.unsent, channel := w.channel + [HeaderFrame(h)], lastSent := Some(HeaderFrame(h)))
      && n.unsent != [] && n.unsent[0] == BinaryFrame(Parts(link, w.e.issued[w.jobs[0]].request.piece)[0])
  {
    PartsNonEmpty(link, w.e.issued[w.jobs[0]].request.piece);
    hide Parts;
  }

  /** The world in which both answers have begun, and the chunk of the second is under way. */
  ghost predicate BothBegun(link: Link, w0: World, w: World)
    requires link.chunkBytes > 0
  {
    && |w.e.issued| == 2 && TwoAsked(link, w0, w0.(e := w.e))
    && w.torn == {FirstHeader(link, w, 0)}
    && |w.channel| == 3 && w.channel[0] == HeaderFrame(FirstHeader(link, w, 0)) && w.channel[1] == HeaderFrame(FirstHeader(link, w, 1))
    && PartsOf(link, w.e.issued[1].request.piece) && w.channel[2] == BinaryFrame(Parts(link, w.e.issued[1].request.piece)[0])
  }

  predicate PartsOf(link: Link, piece: Piece)
    requires link.chunkBytes > 0
  {
    |Parts(link, piece)| > 0
  }

  /** The requests arrive and their answers are begun; sending the chunk of the first fails. */
  lemma Serve(link: Link, w0: World, run: seq<Happening>, env: Env) returns (longer: seq<Happening>)
    requires link.chunkBytes > 0 && Quiet(w0) && Possible(link, w0, run) && TwoAsked(link, w0, Play(link, w0, run))
    ensures Possible(link, w0, longer) && BothBegun(link, w0, Play(link, w0, longer))
  {
    hide Step, Possible, Play, FirstHeader, Frames, Parts;
    var w1 := Play(link, w0, run);
    longer := Moved(link, w0, run, Arrive(0), env);
    longer := Moved(link, w0, longer, Arrive(1), env);
    var w2 := Play(link, w0, longer);
    assert w2 == w1.(arrived := {0, 1}, jobs := [0, 1]);
    SameHeader(link, w1, w2, 0);
    BeginAndSend(link, w2, env);
    longer := Moved(link, w0, longer, Begin(true), env);
    longer := Moved(link, w0, longer, Send, env);
    longer := Moved(link, w0, longer, GiveUp, env);
    var w3 := Play(link, w0, longer);
    assert w3.unsent == [] && w3.jobs == [1] && w3.e == w1.e && w3.torn == {FirstHeader(link, w1, 0)};
    SameHeader(link, w1, w3, 1);
    BeginAndSend(link, w3, env);
    longer := Moved(link, w0, longer, Begin(true), env);
    longer := Moved(link, w0, longer, Send, env);
    longer := Moved(link, w0, longer, Send, env);
    PartsNonEmpty(link, w1.e.issued[1].request.piece);
    var w := Play(link, w0, longer);
    SameHeader(link, w1, w, 0);
    SameHeader(link, w1, w, 1);
  }

  lemma SameHeader(link: Link, a: World, b: World, id: RequestId)
    requires link.chunkBytes > 0 && id < |a.e.issued| && b.e == a.e
    ensures FirstHeader(link, b, id) == FirstHeader(link, a, id)
  {
  }

  lemma Moved(link: Link, w0: World, run: seq<Happening>, m: Move, env: Env) returns (longer: seq<Happening>)
    requires link.chunkBytes > 0 && Possible(link, w0, run) && Can(link, Play(link, w0, run), m)
    ensures Possible(link, w0, longer) && Play(link, w0, longer) == Next(link, Play(link, w0, run), m, env)
  {
    hide Next, Can, Possible, Play;
    longer := run + [Happening(m, env)];
    PlaySnoc(link, w0, run, Happening(m, env));
  }

  /** The header of the first answer waits, and that of the second meets it. */
  lemma Meet(link: Link, w0: World, run: seq<Happening>, env: Env) returns (longer: seq<Happening>)
    requires link.chunkBytes > 0 && Quiet(w0) && Possible(link, w0, run) && BothBegun(link, w0, Play(link, w0, run))
    ensures Possible(link, w0, longer)
    ensures var w := Play(link, w0, longer);
      && Clash(link, w) && |w.e.issued| == 2 && |w.e.terminals| == 1
      && w.e.terminals[0].id == 1 && w.e.terminals[0].reason.InvalidChunk?
      && w.channel != [] && PartsOf(link, w.e.issued[1].request.piece)
      && w.channel[0] == BinaryFrame(Parts(link, w.e.issued[1].request.piece)[0])
      && w.e.pending[link.peer].id == 0
  {
    hide Step, Possible, Play, Parts, PartsOf;
    var w := Play(link, w0, run);
    longer := Moved(link, w0, run, Take, env);
    longer := Moved(link, w0, longer, Take, env);
    HeadersMeet(link, w, env);
  }

  lemma HeadersMeet(link: Link, w: World, env: Env)
    requires link.chunkBytes > 0 && |w.e.issued| == 2 && !w.e.disposed && w.e.pending == map[] && w.e.tombstones == {} && w.e.terminals == []
    requires w.e.outstanding == map[0 := w.e.issued[0].request, 1 := w.e.issued[1].request]
    requires w.e.issued[0].request.peer == link.peer && w.e.issued[1].request.peer == link.peer
    requires w.e.issued[0].request.kind.Direct? && w.e.issued[1].request.kind.Direct?
    ensures var h, g := FirstHeader(link, w, 0), FirstHeader(link, w, 1);
      var e1 := Step(w.e, DoHeader(link.peer, h), env);
      var e2 := Step(e1, DoHeader(link.peer, g), env);
      && !e2.disposed && e2.issued == w.e.issued && link.peer in e2.pending && e2.pending[link.peer] == h
      && |e2.terminals| == 1 && e2.terminals[0].id == 1 && e2.terminals[0].reason.InvalidChunk?
  {
    var h, g := FirstHeader(link, w, 0), FirstHeader(link, w, 1);
    assert h.id == 0 && g.id == 1 && h.piece == w.e.issued[0].request.piece && g.piece == w.e.issued[1].request.piece;
    hide FirstHeader, RejectChunk;
    var e1 := w.e.(pending := w.e.pending[link.peer := h]);
    assert Step(w.e, DoHeader(link.peer, h), env) == e1;
    assert Step(e1, DoHeader(link.peer, g), env) == RejectChunk(e1, link.peer, g, env);
    RejectSeen(e1, link.peer, g, env);
    RefusedStays(e1, link.peer, g, env);
  }

  lemma RefusedStays(e: Engine, peer: PeerId, h: Header, env: Env)
    requires IsDirect(e, h.id)
    ensures RejectChunk(e, peer, h, env).issued == e.issued && RejectChunk(e, peer, h, env).disposed == e.disposed
  {
    hide RejectChunkCore, Goes;
    CoreEnds(e, h);
    RejectCoreGoes(e, h);
    FlagStays(e, RejectChunkCore(e, h));
  }
}
