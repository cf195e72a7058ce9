/** The caps of the grid scheduler over runs of grid requests: how many requests one peer and one file hold. */
module EngineCaps {
  import opened Common
  import opened Pieces
  import opened ChunkAssembly
  import opened Availability
  import opened GridChoice
  import opened Engine
  import opened EngineSteps
  import opened EngineRuns
  import opened EngineGrid
  import opened EngineLease

  /** No peer holds more than `cap` requests, and every request was made under that cap. */
  ghost predicate PeersWithin(e: Engine, cap: nat) {
    && (forall q :: |OfPeer(e, q)| <= cap)
    && forall id :: id in e.outstanding && e.outstanding[id].kind.Grid? ==> e.outstanding[id].kind.options.maxRequestsPerPeer == cap
  }

  /** No file has more than `total` requests in flight. */
  ghost predicate FilesWithin(e: Engine, total: nat) {
    forall f :: |OfFile(e, f)| <= total
  }

  /** Requests are only dropped. */
  ghost predicate Shrinks(a: Engine, b: Engine) {
    forall id :: id in b.outstanding ==> id in a.outstanding && a.outstanding[id] == b.outstanding[id]
  }

  /** `b` has, besides what is left of `a`, at most the request `asked`. */
  ghost predicate Adds(a: Engine, b: Engine, asked: Option<Request>) {
    if asked.None? then Shrinks(a, b)
    else exists id: RequestId :: id !in a.outstanding && b.outstanding == a.outstanding[id := asked.value]
  }

  /** A grid request that respects the cap on its peer. */
  ghost predicate Fits(e: Engine, r: Request) {
    r.kind.Grid? && HasCapacity(r.kind.options, ActiveCount(e), r.peer)
  }

  // ----- counting -----

  lemma ShrinksCounts(a: Engine, b: Engine)
    requires Shrinks(a, b)
    ensures forall q :: |OfPeer(b, q)| <= |OfPeer(a, q)|
    ensures forall f :: |OfFile(b, f)| <= |OfFile(a, f)|
  {
    forall q
      ensures |OfPeer(b, q)| <= |OfPeer(a, q)|
      ensures |OfFile(b, q)| <= |OfFile(a, q)|
    {
      SubsetCount(OfPeer(b, q), OfPeer(a, q));
      SubsetCount(OfFile(b, q), OfFile(a, q));
    }
  }

  lemma AddsCounts(a: Engine, b: Engine, r: Request)
    requires Adds(a, b, Some(r))
    ensures forall q :: |OfPeer(b, q)| == |OfPeer(a, q)| + if q == r.peer then 1 else 0
    ensures forall f :: |OfFile(b, f)| == |OfFile(a, f)| + if f == r.piece.file then 1 else 0
  {
    var id: RequestId :| id !in a.outstanding && b.outstanding == a.outstanding[id := r];
    forall q
      ensures |OfPeer(b, q)| == |OfPeer(a, q)| + if q == r.peer then 1 else 0
      ensures |OfFile(b, q)| == |OfFile(a, q)| + if q == r.piece.file then 1 else 0
    {
      OneMore(a, b, id, r, q);
    }
  }

  lemma OneMore(a: Engine, b: Engine, id: RequestId, r: Request, q: nat)
    requires id !in a.outstanding && b.outstanding == a.outstanding[id := r]
    ensures OfPeer(b, q) == OfPeer(a, q) + (if q == r.peer then {id} else {}) && id !in OfPeer(a, q)
    ensures OfFile(b, q) == OfFile(a, q) + (if q == r.piece.file then {id} else {}) && id !in OfFile(a, q)
  {
  }

  lemma DroppedCounts(a: Engine, b: Engine, id: RequestId)
    requires Shrinks(a, b) && id in a.outstanding && id !in b.outstanding
    ensures |OfFile(b, a.outstanding[id].piece.file)| < |OfFile(a, a.outstanding[id].piece.file)|
  {
    var f := a.outstanding[id].piece.file;
    SubsetCount(OfFile(b, f), OfFile(a, f) - {id});
  }

  lemma PeersKept(a: Engine, m: Engine, b: Engine, asked: Option<Request>, cap: nat)
    requires PeersWithin(a, cap) && Shrinks(a, m) && Adds(m, b, asked)
    requires asked.Some? ==> Fits(m, asked.value) && asked.value.kind.options.maxRequestsPerPeer == cap
    ensures PeersWithin(b, cap)
  {
    ShrinksCounts(a, m);
    if asked.Some? {
      AddsCounts(m, b, asked.value);
    } else {
      ShrinksCounts(m, b);
    }
  }

  lemma AddsOne(a: Engine, b: Engine, id: RequestId, r: Request)
    requires id !in a.outstanding && b.outstanding == a.outstanding[id := r]
    ensures Adds(a, b, Some(r))
  {
  }

  // ----- scheduling -----

  lemma GoesShrinks(a: Engine, b: Engine)
    requires Goes(a, b) && b.issued == a.issued
    ensures Shrinks(a, b)
  {
  }

  lemma ReadyShrinks(e: Engine, file: FileId, o: GridOptions, now: int)
    ensures Shrinks(e, GridReady(e, file, o, now)) && GridReady(e, file, o, now).issued == e.issued
  {
    hide Goes, Update;
    GridReadyGoes(e, file, o, now);
    GoesShrinks(e, GridReady(e, file, o, now));
  }

  /** What a scheduling attempt adds: nothing, or one request that fits. */
  lemma NextGridAdds(e: Engine, file: FileId, o: GridOptions, env: Env) returns (m: Engine, asked: Option<Request>)
    requires Books(e)
    ensures var (b, result) := RequestNextGrid(e, file, o, env);
      && Shrinks(e, m) && Adds(m, b, asked) && (asked.Some? <==> result.GridScheduled?)
      && (asked.Some? ==> Fits(m, asked.value) && asked.value.kind.options == o && asked.value.piece.file == file
                          && m == GridReady(e, file, o, env.view.now))
  {
    hide GridReady, GridItems, Choose, Record, Books, Goes, Adds;
    StaysAdds(e);
    m, asked := e, None;
    if file in e.managers && MissingPieces(e.managers[file]) != [] {
      m := GridReady(e, file, o, env.view.now);
      ReadyShrinks(e, file, o, env.view.now);
      StaysAdds(m);
      var c := Choose(GridItems(e, file, o, env.view), e.cfg.maxRetries);
      if c.Scheduled? && Listed(m, Piece(file, c.index)) {
        GridChosen(e, file, o, env.view);
        var r := Request(Piece(file, c.index), c.provider.peer, Grid(o));
        var lease := Lease(c.provider.peer, |m.issued|, env.view.now + o.leaseMs);
        RecordLeased(m, r, lease);
        asked := Some(r);
        GridReadyGoes(e, file, o, env.view.now);
        GoesKeepsBooks(e, m);
        BooksOutstanding(m);
        AddsOne(m, Record(m.(leases := m.leases[r.piece := lease]), r, None), |m.issued|, r);
      }
    }
  }

  lemma AskAgainAdds(e: Engine, p: Piece, peer: PeerId, o: GridOptions, env: Env) returns (m: Engine, asked: Option<Request>)
    requires Books(e)
    ensures var u, b := Unfail(e, p), AskAgain(e, p, peer, Some(Grid(o)), env);
      && Shrinks(e, m) && Adds(m, b, asked)
      && (asked.Some? <==> RetriesLeft(e, p) && RequestNextGrid(u, p.file, o, env).1.GridScheduled?)
      && (asked.Some? ==> Fits(m, asked.value) && asked.value.kind.options == o && asked.value.piece.file == p.file
                          && m == GridReady(u, p.file, o, env.view.now))
  {
    hide RequestNextGrid, Unfail, Books, Goes, GridReady, Fits, Adds;
    var u := Unfail(e, p);
    FailPairs(e, p);
    FailGoes(e, p);
    GoesKeepsBooks(e, u);
    m, asked := NextGridAdds(u, p.file, o, env);
    if !RetriesLeft(e, p) {
      m, asked := e, None;
      assert Adds(e, e, None) by { StaysAdds(e); }
    }
  }

  lemma StaysAdds(e: Engine)
    ensures Adds(e, e, None)
  {
  }

  // ----- handlers -----

  /** The received bytes complete a request that was cancelled by its peer, or match but cannot be
      stored. In both cases the request stays outstanding. */
  predicate KeepsEntry(e: Engine, h: Header, data: Bytes, env: Env) {
    && h.id in e.outstanding && DescriptorOf(e, h.piece).Some?
    && (h.id in e.tombstones || (Checks(e.cfg, data, DescriptorOf(e, h.piece).value) && !env.writeOk))
  }

  /** The engine on which the next piece is then chosen. */
  function Refused(e: Engine, h: Header): Engine {
    Unfail(if h.id in e.tombstones then e else Fail(e, h.piece), h.piece)
  }

  /** The request is kept, some piece with retries left decides the next choice, and the file is at its
      limit: the check that `requestGridPieceWindow` makes is not made on this path. */
  ghost predicate AsksBeyond(e: Engine, h: Header, data: Bytes, env: Env, total: nat) {
    && KeepsEntry(e, h, data, env) && env.replyOk && e.outstanding[h.id].kind.Grid?
    && var o, u := e.outstanding[h.id].kind.options, Refused(e, h);
       && RetriesLeft(u, h.piece)
       && WouldSchedule(u, h.piece.file, o, env)
       && |OfFile(GridReady(u, h.piece.file, o, env.view.now), h.piece.file)| >= total
  }

  /** What one handler adds. Where the request asked for does not come from the window loop, it
      replaces one that was dropped, unless `KeepsEntry`. */
  ghost predicate Replaces(e: Engine, m: Engine, asked: Option<Request>) {
    asked.Some? ==> exists id :: id in e.outstanding && id !in m.outstanding && e.outstanding[id].piece.file == asked.value.piece.file
  }

  ghost predicate FromHere(e: Engine, r: Request) {
    exists id :: id in e.outstanding && e.outstanding[id].kind == r.kind
  }

  lemma DropThenAsk(e: Engine, id: RequestId, next: Engine, p: Piece, peer: PeerId, env: Env) returns (m: Engine, asked: Option<Request>)
    requires Paired(e) && Books(next) && id in e.outstanding && e.outstanding[id].piece == p
    requires next.outstanding == e.outstanding - {id}
    ensures var b := AskAgain(next, p, peer, Some(e.outstanding[id].kind), env);
      && Shrinks(e, m) && Adds(m, b, asked) && Replaces(e, m, asked)
      && (asked.Some? ==> Fits(m, asked.value) && FromHere(e, asked.value))
  {
    PairedNotDirect(e, id);
    hide Paired, Books, AskAgain, Fits, Adds, RequestNextGrid, Unfail, GridReady, RetriesLeft, FromHere, Replaces, Shrinks;
    m, asked := AskAgainAdds(next, p, peer, e.outstanding[id].kind.options, env);
    DropReplaces(e, id, next, m, asked);
    if asked.Some? {
      FitsKind(m, asked.value);
      SameKind(e, id, asked.value);
    }
  }

  lemma DropReplaces(e: Engine, id: RequestId, next: Engine, m: Engine, asked: Option<Request>)
    requires id in e.outstanding && next.outstanding == e.outstanding - {id} && Shrinks(next, m)
    requires asked.Some? ==> asked.value.piece.file == e.outstanding[id].piece.file
    ensures Shrinks(e, m) && Replaces(e, m, asked)
  {
  }

  lemma FitsKind(e: Engine, r: Request)
    requires Fits(e, r)
    ensures r.kind == Grid(r.kind.options)
  {
  }

  lemma RefusalAdds(e: Engine, peer: PeerId, h: Header, env: Env) returns (m: Engine, asked: Option<Request>)
    requires Paired(e) && Books(e) && (h.id in e.outstanding ==> e.outstanding[h.id].piece == h.piece)
    requires Has(e, h.piece) && !StaleRefusal(e, h, env)
    ensures Shrinks(e, m) && Adds(m, RejectChunk(e, peer, h, env), asked) && Replaces(e, m, asked)
    ensures asked.Some? ==> Fits(m, asked.value) && FromHere(e, asked.value)
  {
    hide Paired, Books, RejectChunkCore, AskAgain, Goes, Fits, Adds, Replaces, FromHere;
    PairedNotDirect(e, h.id);
    var r := RejectChunkCore(e, h);
    PairedRejectCore(e, h);
    RejectCoreGoes(e, h);
    GoesKeepsBooks(e, r);
    RejectFailsPiece(e, h);
    if h.id in e.outstanding && env.replyOk {
      m, asked := DropThenAsk(e, h.id, r, h.piece, peer, env);
    } else {
      m, asked := r, None;
      StaysAdds(r);
      assert Replaces(e, m, None) by { NothingReplaces(e, m); }
      if env.replyOk {
        AskNothing(r, h.piece, peer, env);
      }
    }
  }

  lemma NothingReplaces(e: Engine, m: Engine)
    ensures Replaces(e, m, None)
  {
  }

  lemma ReceivedLeaves(e: Engine, p: Piece, id: RequestId, data: Bytes, env: Env)
    requires Paired(e) && Books(e) && id in e.outstanding && e.outstanding[id].piece == p
    ensures Has(e, p) && DescriptorOf(e, p).Some?
    ensures var (next, result) := ReceivePiece(e, p, id, data, env); var h := Header(p, id, 0, 0, 0);
      && (next.outstanding == e.outstanding || next.outstanding == e.outstanding - {id})
      && (!result.Threw? && !result.Ack? && !KeepsEntry(e, h, data, env) && !LosesLease(e, h, data, env) ==> next.outstanding == e.outstanding - {id})
      && (KeepsEntry(e, h, data, env) ==> !result.Threw? && !result.Ack? && next.outstanding == e.outstanding)
      && (KeepsEntry(e, h, data, env) ==> next == if id in e.tombstones then e else Fail(e, p))
  {
    hide Paired, Books, ReceiveMatch, ReceiveMismatch, Fail, Checks;
    EntryHasPiece(e, id);
    PairedMismatch(e, p, id, env);
    PairedMatch(e, p, id, data, env);
    ResultOf(e, p, id, data, env);
  }

  lemma ResultOf(e: Engine, p: Piece, id: RequestId, data: Bytes, env: Env)
    requires Has(e, p)
    ensures ReceiveMatch(e, p, id, data, env).1 ==
      if !env.writeOk then StorageFailed else if !env.persistOk then PersistFailed else if env.broadcastOk then Ack else Threw
    ensures ReceiveMismatch(e, p, id, env).1 == if env.deleteOk then Mismatch else Threw
  {
  }

  lemma DeliveryAdds(e: Engine, peer: PeerId, h: Header, data: Bytes, env: Env) returns (m: Engine, asked: Option<Request>)
    requires Paired(e) && Books(e) && (h.id in e.outstanding ==> e.outstanding[h.id].piece == h.piece && e.outstanding[h.id].peer == peer)
    requires !LosesLease(e, h, data, env)
    ensures Shrinks(e, m) && Adds(m, Deliver(e, peer, h, data, env), asked)
    ensures asked.Some? ==> Fits(m, asked.value) && FromHere(e, asked.value)
    ensures !KeepsEntry(e, h, data, env) ==> Replaces(e, m, asked)
    ensures KeepsEntry(e, h, data, env) && asked.Some? ==>
      env.replyOk && e.outstanding[h.id].kind.Grid? && asked.value.piece.file == h.piece.file
      && m == GridReady(Refused(e, h), h.piece.file, e.outstanding[h.id].kind.options, env.view.now)
    ensures KeepsEntry(e, h, data, env) ==>
      (asked.Some? <==>
         && env.replyOk && e.outstanding[h.id].kind.Grid? && RetriesLeft(Refused(e, h), h.piece)
         && RequestNextGrid(Refused(e, h), h.piece.file, e.outstanding[h.id].kind.options, env).1.GridScheduled?)
  {
    hide Paired, Books, ReceivePiece, AskAgain, Fail, LifecycleError, Finalize, Checks, Goes, Fits, Adds, Replaces, FromHere, GridReady;
    m, asked := e, None;
    StaysAdds(e);
    assert Replaces(e, e, None) by { NothingReplaces(e, e); }
    if h.id in e.outstanding {
      var id, p, r := h.id, h.piece, e.outstanding[h.id];
      PairedNotDirect(e, id);
      var (next, result) := ReceivePiece(e, p, id, data, env);
      SameVerdict(e, h, data, env);
      ReceivedLeaves(e, p, id, data, env);
      ReceivePieceGoes(e, p, id, data, env);
      GoesKeepsBooks(e, next);
      if result.Threw? || result.Ack? || !env.replyOk {
        m, asked := next, None;
        QuietEnd(e, next, r, id, p);
        assert Replaces(e, m, None) by { NothingReplaces(e, m); }
      } else if KeepsEntry(e, h, data, env) {
        m, asked := AskAgainAdds(next, p, peer, r.kind.options, env);
        KeptAsk(e, h, next);
        if asked.Some? {
          assert FromHere(e, asked.value) by { FitsKind(m, asked.value); SameKind(e, id, asked.value); }
        }
      } else {
        m, asked := DropThenAsk(e, id, next, p, peer, env);
      }
    }
  }

  lemma SameVerdict(e: Engine, h: Header, data: Bytes, env: Env)
    ensures var g := Header(h.piece, h.id, 0, 0, 0);
      (KeepsEntry(e, g, data, env) <==> KeepsEntry(e, h, data, env)) && (LosesLease(e, g, data, env) <==> LosesLease(e, h, data, env))
  {
  }

  lemma SameKind(e: Engine, id: RequestId, r: Request)
    requires id in e.outstanding && r.kind == e.outstanding[id].kind
    ensures FromHere(e, r)
  {
  }

  lemma KeptAsk(e: Engine, h: Header, next: Engine)
    requires next == if h.id in e.tombstones then e else Fail(e, h.piece)
    ensures Unfail(next, h.piece) == Refused(e, h)
    ensures RetriesLeft(next, h.piece) <==> RetriesLeft(Refused(e, h), h.piece)
  {
    hide SetState, SameShape, MarkFailed;
    if Has(next, h.piece) && StateOf(next, h.piece).status.Failed? {
      StateAfterSet(next, h.piece, ResetFailedToMissing(StateOf(next, h.piece)));
    }
  }

  lemma QuietEnd(e: Engine, next: Engine, r: Request, id: RequestId, p: Piece)
    requires next.outstanding == e.outstanding || next.outstanding == e.outstanding - {id}
    requires id in e.outstanding && !e.outstanding[id].kind.Direct? && !r.kind.Direct?
    ensures Shrinks(e, next) && Adds(next, next, None)
    ensures Adds(next, FailAndFinalize(LifecycleError(next, Some(r)), id, p, Cancelled), None)
  {
    ErrorNothing(next, Some(r));
    hide Fail, LifecycleError, Finalize;
    FailPairs(next, p);
    NoDirectHere(Fail(next, p), id, Cancelled);
  }

  lemma RejectMessageAdds(e: Engine, peer: PeerId, id: RequestId, env: Env) returns (m: Engine, asked: Option<Request>)
    requires Paired(e) && Books(e)
    ensures Shrinks(e, m) && Adds(m, ReceiveReject(e, peer, id, env), asked) && Replaces(e, m, asked)
    ensures asked.Some? ==> Fits(m, asked.value) && FromHere(e, asked.value)
  {
    PairedNotDirect(e, id);
    hide Paired, Books, FinalizeOrDrop, Fail, AskAgain, Goes, Fits, Adds, Replaces, FromHere;
    m, asked := e, None;
    StaysAdds(e);
    assert Replaces(e, e, None) by { NothingReplaces(e, e); }
    if id in e.outstanding && e.outstanding[id].peer == peer {
      var r := e.outstanding[id];
      var released := Release(e, r.piece, id);
      FailPairs(released, r.piece);
      NoDirectHere(Fail(released, r.piece), id, ProviderReject);
      var next := FinalizeOrDrop(Fail(released, r.piece), id, ProviderReject);
      RejectNextGoes(e, r.piece, id);
      GoesKeepsBooks(e, next);
      m, asked := DropThenAsk(e, id, next, r.piece, r.peer, env);
    }
  }

  lemma AckDrops(e: Engine, peer: PeerId, id: RequestId, p: Piece)
    requires Paired(e)
    ensures Adds(e, ReceiveAck(e, peer, id, p), None)
  {
    PairedNotDirect(e, id);
    NoDirectHere(Release(e, p, id), id, Acknowledged);
    hide FinalizeOrDrop;
  }

  /** The binary frame completes a piece under the header that waits for it. */
  function Completed(e: Engine, a: Action): Option<(Header, Bytes)> {
    if a.DoBinary? && !e.disposed && a.peer in e.pending then
      var h := e.pending[a.peer];
      match AppendChunk(if h.id in e.incoming then Some(e.incoming[h.id]) else None, a.peer, h, a.frame)
      case Complete(data) => Some((h, data))
      case _ => None
    else None
  }

  /** The engine whose request the completed piece is checked against. */
  function Taken(e: Engine, a: Action): Engine
    requires a.DoBinary? && a.peer in e.pending
  {
    e.(pending := e.pending - {a.peer}, incoming := e.incoming - {e.pending[a.peer].id})
  }

  ghost predicate Overshoots(e: Engine, a: Action, env: Env, total: nat) {
    Completed(e, a).Some? && AsksBeyond(Taken(e, a), Completed(e, a).value.0, Completed(e, a).value.1, env, total)
  }

  ghost predicate Keeping(e: Engine, a: Action, env: Env) {
    Completed(e, a).Some? && KeepsEntry(Taken(e, a), Completed(e, a).value.0, Completed(e, a).value.1, env)
  }

  /** What is added while the request is kept: the next choice, if there is one. */
  ghost predicate KeptAdds(e: Engine, a: Action, env: Env, m: Engine, asked: Option<Request>)
    requires Keeping(e, a, env)
  {
    var t, h := Taken(e, a), e.pending[a.peer];
    var o, u := t.outstanding[h.id].kind, Refused(t, h);
    && (asked.Some? <==> env.replyOk && o.Grid? && RetriesLeft(u, h.piece) && RequestNextGrid(u, h.piece.file, o.options, env).1.GridScheduled?)
    && (asked.Some? ==> asked.value.piece.file == h.piece.file && m == GridReady(u, h.piece.file, o.options, env.view.now))
  }

  lemma SameOutstanding(a: Engine, b: Engine, m: Engine, asked: Option<Request>)
    requires a.outstanding == b.outstanding
    ensures Shrinks(a, m) <==> Shrinks(b, m)
    ensures Replaces(a, m, asked) <==> Replaces(b, m, asked)
    ensures asked.Some? ==> (FromHere(a, asked.value) <==> FromHere(b, asked.value))
    ensures Adds(a, b, None)
  {
  }

  lemma BinaryAdds(e: Engine, peer: PeerId, frame: Bytes, env: Env) returns (m: Engine, asked: Option<Request>)
    requires Paired(e) && Books(e) && !e.disposed && !Parts(e, DoBinary(peer, frame), env)
    ensures Shrinks(e, m) && Adds(m, ReceiveBinary(e, peer, frame, env), asked)
    ensures asked.Some? ==> Fits(m, asked.value) && FromHere(e, asked.value)
    ensures !Keeping(e, DoBinary(peer, frame), env) ==> Replaces(e, m, asked)
    ensures Keeping(e, DoBinary(peer, frame), env) ==> KeptAdds(e, DoBinary(peer, frame), env, m, asked)
  {
    hide Paired, Books, RejectChunk, Deliver, AppendChunk, Keeps, Arrivals, Checks, Has, Adds, Shrinks, Replaces, FromHere, Fits, KeepsEntry, LosesLease, GridReady, RequestNextGrid, Refused, RetriesLeft;
    m, asked := e, None;
    StaysAdds(e);
    SameOutstanding(e, e, e, None);
    assert Shrinks(e, e) by { StaysShrinks(e); }
    NothingReplaces(e, e);
    if peer in e.pending {
      var h := e.pending[peer];
      WaitingHeader(e, peer);
      assert Arrivals(e) by { BooksArrivals(e); }
      FrameTaken(e, peer, frame);
      var e1 := e.(pending := e.pending - {peer});
      var e2 := Taken(e, DoBinary(peer, frame));
      assert e2 == e1.(incoming := e1.incoming - {h.id});
      PairedFrame(e, e1);
      PairedFrame(e, e2);
      PendingKeeps(e, e1);
      PendingKeeps(e, e2);
      assert Has(e1, h.piece) && (StaleRefusal(e1, h, env) <==> StaleRefusal(e, h, env)) by { HasSame(e, e1, h.piece); }
      match AppendChunk(if h.id in e.incoming then Some(e.incoming[h.id]) else None, peer, h, frame)
      case Reject =>
        m, asked := RefusalAdds(e1, peer, h, env);
        SameOutstanding(e, e1, m, asked);
      case Incomplete(a) =>
        SameOutstanding(e, e1.(incoming := e1.incoming[h.id := a]), m, asked);
      case Complete(data) =>
        assert LosesLease(e2, h, data, env) <==> LosesLease(e, h, data, env) by { LosesSame(e, e2, h, data, env); }
        m, asked := DeliveryAdds(e2, peer, h, data, env);
        SameOutstanding(e, e2, m, asked);
    }
  }

  lemma LosesSame(a: Engine, b: Engine, h: Header, data: Bytes, env: Env)
    requires b == a.(pending := b.pending, incoming := b.incoming)
    ensures LosesLease(a, h, data, env) <==> LosesLease(b, h, data, env)
  {
  }

  lemma StaysShrinks(e: Engine)
    ensures Shrinks(e, e)
  {
  }

  // ----- the caps -----

  /** Grid actions that all use the same caps. */
  predicate UnderCaps(a: Action, cap: nat, total: nat) {
    GridAction(a) && (a.DoGrid? ==> a.gridOptions.maxRequestsPerPeer == cap && a.maxInFlightTotal == total)
  }

  /** What one step adds under fixed caps, and the circumstances. */
  lemma StepAdds(e: Engine, a: Action, env: Env, cap: nat, total: nat) returns (m: Engine, asked: Option<Request>)
    requires Paired(e) && Books(e) && UnderCaps(a, cap, total) && !Parts(e, a, env)
    ensures Shrinks(e, m) && Adds(m, Step(e, a, env), asked)
    ensures asked.Some? ==> Fits(m, asked.value)
    ensures asked.Some? ==> FromHere(e, asked.value) || asked.value.kind.options.maxRequestsPerPeer == cap
    ensures asked.Some? && a.DoGrid? ==> |OfFile(e, asked.value.piece.file)| < total
    ensures !a.DoGrid? && !Keeping(e, a, env) ==> Replaces(e, m, asked)
    ensures Keeping(e, a, env) ==> KeptAdds(e, a, env, m, asked)
  {
    hide Paired, Books, RequestNextGrid, ExpireLeases, ReceiveHeader, ReceiveBinary, ReceiveAck, ReceiveReject, Update, Goes,
         Adds, Shrinks, Replaces, FromHere, Fits, Parts, KeepsEntry, GridReady, Refused, RetriesLeft, AppendChunk, Keeping, KeptAdds;
    if !a.DoBinary? {
      NotKeeping(e, a, env);
    }
    m, asked := e, None;
    StaysAdds(e);
    assert Shrinks(e, e) by { StaysShrinks(e); }
    NothingReplaces(e, e);
    match a
    case DoGrid(file, o, _) =>
      if |OfFile(e, file)| < total {
        m, asked := NextGridAdds(e, file, o, env);
      }
    case DoExpireLeases =>
      ExpireAllLeasesGoes(e, env.view.now);
      assert Adds(e, ExpireLeases(e, env.view.now), None) by { ExpiryDrops(e, env.view.now); }
    case DoHeader(peer, h) =>
      if !e.disposed {
        m, asked := HeaderAdds(e, peer, h, env);
      }
    case DoBinary(peer, frame) =>
      m, asked := BinaryStepAdds(e, peer, frame, env);
    case DoAck(peer, id, p) => AckDrops(e, peer, id, p);
    case DoCancelMessage(id) => SameOutstanding(e, ReceiveCancel(e, id), e, None);
    case DoReject(peer, id) =>
      if !e.disposed {
        m, asked := RejectMessageAdds(e, peer, id, env);
      }
    case DoMap(peer, role, pm) => SameOutstanding(e, ReceiveMap(e, peer, role, pm), e, None);
    case _ =>
  }

  lemma NotKeeping(e: Engine, a: Action, env: Env)
    requires !a.DoBinary?
    ensures !Keeping(e, a, env)
  {
  }

  lemma BinaryStepAdds(e: Engine, peer: PeerId, frame: Bytes, env: Env) returns (m: Engine, asked: Option<Request>)
    requires Paired(e) && Books(e) && !Parts(e, DoBinary(peer, frame), env)
    ensures Shrinks(e, m) && Adds(m, Step(e, DoBinary(peer, frame), env), asked)
    ensures asked.Some? ==> Fits(m, asked.value) && FromHere(e, asked.value)
    ensures !Keeping(e, DoBinary(peer, frame), env) ==> Replaces(e, m, asked)
    ensures Keeping(e, DoBinary(peer, frame), env) ==> KeptAdds(e, DoBinary(peer, frame), env, m, asked)
  {
    hide Paired, Books, ReceiveBinary, Adds, Shrinks, Replaces, FromHere, Fits, Parts, KeepsEntry, AppendChunk, KeptAdds;
    if e.disposed {
      m, asked := e, None;
      StaysAdds(e);
      assert Shrinks(e, e) by { StaysShrinks(e); }
      NothingReplaces(e, e);
    } else {
      m, asked := BinaryAdds(e, peer, frame, env);
    }
  }

  lemma ExpiryDrops(e: Engine, now: int)
    ensures Adds(e, ExpireLeases(e, now), None)
  {
    hide Goes;
    ExpireAllLeasesGoes(e, now);
    GoesShrinks(e, ExpireLeases(e, now));
  }

  lemma HeaderAdds(e: Engine, peer: PeerId, h: Header, env: Env) returns (m: Engine, asked: Option<Request>)
    requires Paired(e) && Books(e)
    ensures Shrinks(e, m) && Adds(m, ReceiveHeader(e, peer, h, env), asked) && Replaces(e, m, asked)
    ensures asked.Some? ==> Fits(m, asked.value) && FromHere(e, asked.value)
  {
    hide Paired, Books, RejectChunk, Adds, Shrinks, Replaces, FromHere, Fits;
    m, asked := e, None;
    StaysAdds(e);
    assert Shrinks(e, e) by { StaysShrinks(e); }
    NothingReplaces(e, e);
    if Active(e, peer, h) {
      EntryHasPiece(e, h.id);
      if peer !in e.pending {
        SameOutstanding(e, e.(pending := e.pending[peer := h]), e, None);
      } else if e.pending[peer] != h {
        m, asked := RefusalAdds(e, peer, h, env);
      }
    }
  }

  /** One step keeps every peer within its cap. */
  lemma PeersStep(e: Engine, a: Action, env: Env, cap: nat, total: nat)
    requires Paired(e) && Books(e) && UnderCaps(a, cap, total) && !Parts(e, a, env)
    requires PeersWithin(e, cap)
    ensures PeersWithin(Step(e, a, env), cap)
  {
    hide Paired, Books, Step, Parts, Fits, Adds, Shrinks, Keeping;
    var m, asked := StepAdds(e, a, env, cap, total);
    if asked.Some? {
      FitsKind(m, asked.value);
    }
    PeersKept(e, m, Step(e, a, env), asked, cap);
  }

  /** One step keeps every file within its limit except, exactly, where `Overshoots` says. */
  lemma FilesStep(e: Engine, a: Action, env: Env, cap: nat, total: nat)
    requires Paired(e) && Books(e) && UnderCaps(a, cap, total) && !Parts(e, a, env)
    requires FilesWithin(e, total)
    ensures FilesWithin(Step(e, a, env), total) <==> !Overshoots(e, a, env, total)
  {
    hide Paired, Books, Step, Parts, Fits, Adds, Shrinks, GridReady, Refused, RetriesLeft, RequestNextGrid, OfFile, AppendChunk, WouldSchedule;
    if Keeping(e, a, env) {
      var t, h := Taken(e, a), e.pending[a.peer];
      if t.outstanding[h.id].kind.Grid? {
        SchedulesExactly(Refused(t, h), h.piece.file, t.outstanding[h.id].kind.options, env);
      }
    }
    var b := Step(e, a, env);
    var m, asked := StepAdds(e, a, env, cap, total);
    ShrinksCounts(e, m);
    if asked.None? {
      AddsNothing(m, b);
      ShrinksCounts(m, b);
    } else {
      var f := asked.value.piece.file;
      AddsCounts(m, b, asked.value);
      if Keeping(e, a, env) {
        assert |OfFile(b, f)| == |OfFile(m, f)| + 1;
      } else if !a.DoGrid? {
        var id :| id in e.outstanding && id !in m.outstanding && e.outstanding[id].piece.file == f;
        DroppedCounts(e, m, id);
      }
    }
  }

  lemma AddsNothing(a: Engine, b: Engine)
    requires Adds(a, b, None)
    ensures Shrinks(a, b)
  {
  }

  /** A grid-only run under fixed caps in which every request keeps its lease. */
  ghost predicate CapRun(e: Engine, run: seq<Event>, cap: nat, total: nat) {
    KeepsLeases(e, run) && forall k :: 0 <= k < |run| ==> UnderCaps(run[k].action, cap, total)
  }

  lemma CapRunPrefix(e: Engine, run: seq<Event>, cap: nat, total: nat, n: nat)
    requires CapRun(e, run, cap, total) && n <= |run|
    ensures CapRun(e, run[..n], cap, total)
  {
    hide Run, Parts;
    forall k | 0 <= k < n
      ensures !Parts(Run(e, run[..n][..k]), run[..n][k].action, run[..n][k].env)
    {
      PrefixOfPrefix(run, n, k);
    }
  }

  /** Over any such run no peer ever holds more than `maxRequestsPerPeer` requests. */
  lemma {:induction false} PeersStayWithin(e: Engine, run: seq<Event>, cap: nat, total: nat)
    requires Start(e) && CapRun(e, run, cap, total)
    ensures PeersWithin(Run(e, run), cap)
  {
    hide Paired, Books, Step, Parts, UnderCaps, PeersWithin, KeepsLeases;
    if run == [] {
      assert PeersWithin(e, cap) by { StartWithin(e, cap); }
    } else {
      var n := |run| - 1;
      CapRunPrefix(e, run, cap, total, n);
      PeersStayWithin(e, run[..n], cap, total);
      LeasesMirrorRequests(e, run[..n]);
      assert !Parts(Run(e, run[..n]), run[n].action, run[n].env) by { LastKeeps(e, run); }
      PeersStep(Run(e, run[..n]), run[n].action, run[n].env, cap, total);
    }
  }

  lemma LastKeeps(e: Engine, run: seq<Event>)
    requires KeepsLeases(e, run) && run != []
    ensures !Parts(Run(e, run[..|run| - 1]), run[|run| - 1].action, run[|run| - 1].env)
  {
  }

  lemma StartWithin(e: Engine, cap: nat)
    requires Start(e)
    ensures PeersWithin(e, cap) && FilesWithin(e, cap)
  {
  }

  /** Over any such run no file ever has more than `maxInFlightTotal` requests in flight, as long as
      no handler meets the circumstances of `Overshoots`. */
  lemma {:induction false} FilesStayWithin(e: Engine, run: seq<Event>, cap: nat, total: nat)
    requires Start(e) && CapRun(e, run, cap, total)
    requires forall k :: 0 <= k < |run| ==> !Overshoots(Run(e, run[..k]), run[k].action, run[k].env, total)
    ensures FilesWithin(Run(e, run), total)
  {
    hide Paired, Books, Step, Parts, UnderCaps, FilesWithin, KeepsLeases, Overshoots;
    if run == [] {
      assert FilesWithin(e, total) by { StartWithin(e, total); }
    } else {
      var n := |run| - 1;
      CapRunPrefix(e, run, cap, total, n);
      forall k | 0 <= k < n
        ensures !Overshoots(Run(e, run[..n][..k]), run[..n][k].action, run[..n][k].env, total)
      {
        PrefixOfPrefix(run, n, k);
      }
      FilesStayWithin(e, run[..n], cap, total);
      LeasesMirrorRequests(e, run[..n]);
      assert !Parts(Run(e, run[..n]), run[n].action, run[n].env) by { LastKeeps(e, run); }
      FilesStep(Run(e, run[..n]), run[n].action, run[n].env, cap, total);
    }
  }

  ghost predicate NeverOvershoots(e: Engine, run: seq<Event>, total: nat) {
    forall k :: 0 <= k < |run| ==> !Overshoots(Run(e, run[..k]), run[k].action, run[k].env, total)
  }

  lemma NeverPrefix(e: Engine, run: seq<Event>, total: nat, n: nat)
    requires NeverOvershoots(e, run, total) && n <= |run|
    ensures NeverOvershoots(e, run[..n], total)
  {
    hide Run, Overshoots;
    forall k | 0 <= k < n
      ensures !Overshoots(Run(e, run[..n][..k]), run[..n][k].action, run[..n][k].env, total)
    {
      PrefixOfPrefix(run, n, k);
    }
  }

  /** Over a whole such run: every file stays within its limit at every point if and only if no handler
      meets the circumstances of `Overshoots`. */
  lemma FilesExactly(e: Engine, run: seq<Event>, cap: nat, total: nat)
    requires Start(e) && CapRun(e, run, cap, total)
    ensures (forall n: nat :: n <= |run| ==> FilesWithin(Run(e, run[..n]), total)) <==> NeverOvershoots(e, run, total)
  {
    hide Paired, Books, Step, Parts, UnderCaps, FilesWithin, Overshoots;
    forall n: nat | n <= |run| && NeverOvershoots(e, run, total)
      ensures FilesWithin(Run(e, run[..n]), total)
    {
      CapRunPrefix(e, run, cap, total, n);
      NeverPrefix(e, run, total, n);
      FilesStayWithin(e, run[..n], cap, total);
    }
    if forall n: nat :: n <= |run| ==> FilesWithin(Run(e, run[..n]), total) {
      forall k | 0 <= k < |run|
        ensures !Overshoots(Run(e, run[..k]), run[k].action, run[k].env, total)
      {
        KeepsPrefix(e, run, k);
        LeasesMirrorRequests(e, run[..k]);
        FilesStep(Run(e, run[..k]), run[k].action, run[k].env, cap, total);
        RunOneMore(e, run, k);
        assert FilesWithin(Run(e, run[..k]), total) && FilesWithin(Run(e, run[..k + 1]), total);
      }
    }
  }
}
