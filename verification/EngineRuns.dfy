/** Every handler keeps the relation `Goes`, hence every run keeps the books; the retry budget and
    end-to-end integrity follow. */
module EngineRuns {
  import opened Common
  import opened Pieces
  import opened ChunkAssembly
  import opened Availability
  import opened GridChoice
  import opened Engine
  import opened EngineSteps

  // ----- windows -----

  lemma RetryGoes(e: Engine, id: RequestId, r: Request, env: Env)
    requires r.kind.Direct?
    ensures Goes(e, RunRetry(e, id, r, env))
  {
    hide Goes, RequestNext;
    TrimsGoes(e, e);
    var info := r.kind.info;
    var o := DirectOptions(info.window, info.controller, info.timeoutMs, info.retryCount + 1);
    FailGoes(e, r.piece);
    RequestNextGoes(Unfail(e, r.piece), r.peer, r.piece.file, Some(o), Some(id), env);
    GoesTrans(e, Unfail(e, r.piece), RequestNext(Unfail(e, r.piece), r.peer, r.piece.file, Some(o), Some(id), env).0);
  }

  lemma ExpireDirectGoes(e: Engine, id: RequestId)
    ensures Goes(e, ExpireDirect(e, id))
  {
    TrimsGoes(e, e);
    if IsDirect(e, id) {
      FailAndFinalizeGoes(e, id, e.outstanding[id].piece, RequestTimeout);
    }
  }

  lemma TaskGoes(e: Engine, key: WindowKey, env: Env)
    ensures Goes(e, RunTask(e, key, env))
  {
    hide Goes, FillLoop, RunRetry, ExpireDirect;
    TrimsGoes(e, e);
    if key in e.windows && e.windows[key].queue != [] {
      var w, p := e.windows[key], PopTask(e, key);
      assert Trims(e, p);
      TrimsGoes(e, p);
      if !w.disabled && !e.disposed {
        match w.queue[0]
        case Fill(o) =>
          FillGoes(p, w.peer, w.file, o, w.cap, env);
          GoesTrans(e, p, FillLoop(p, w.peer, w.file, o, w.cap, env));
        case Retry(id, r) =>
          if r.kind.Direct? {
            RetryGoes(p, id, r, env);
            GoesTrans(e, p, RunRetry(p, id, r, env));
          }
        case Expire(id) =>
          ExpireDirectGoes(p, id);
          GoesTrans(e, p, ExpireDirect(p, id));
      }
    }
  }

  lemma OpenGoes(e: Engine, peer: PeerId, file: FileId, o: DirectOptions, cap: nat)
    ensures Goes(e, OpenWindow(e, peer, file, o, cap).0)
  {
    hide Goes, Trims, Enqueue;
    DropTrims(e, 0);
    TrimsGoes(e, e);
    EnqueueTrims(e, o.window, Fill(o));
    TrimsGoes(e, Enqueue(e, o.window, Fill(o)));
    var n := AddWindow(e, o.window, NewWindow(file, peer, o.controller, cap, e.nextGeneration)).(nextGeneration := e.nextGeneration + 1);
    SideFieldsGo(e, n);
    EnqueueTrims(n, o.window, Fill(o));
    TrimsGoes(n, Enqueue(n, o.window, Fill(o)));
    GoesTrans(e, n, Enqueue(n, o.window, Fill(o)));
  }

  lemma TimerGoes(e: Engine, id: RequestId)
    ensures Goes(e, FireTimer(e, id))
  {
    hide Goes, Trims;
    SideFieldsGo(e, FireTimer(e, id));
  }

  lemma {:induction false} ExpireFirstGoes(e: Engine, now: int, n: nat)
    ensures Goes(e, ExpireFirst(e, now, n))
  {
    hide Goes, ExpireDirect;
    TrimsGoes(e, e);
    if n > 0 {
      var b := ExpireFirst(e, now, n - 1);
      ExpireFirstGoes(e, now, n - 1);
      ExpireDirectGoes(b, n - 1);
      GoesTrans(e, b, ExpireDirect(b, n - 1));
    }
  }

  // ----- leases and grid requests -----

  lemma ExpireLeaseGoes(e: Engine, id: RequestId, now: int)
    requires id < |e.issued|
    ensures Goes(e, ExpireLease(e, id, now))
  {
    hide Goes, Fail, Unfail;
    TrimsGoes(e, e);
    var p := e.issued[id].request.piece;
    if p in e.leases && e.leases[p].id == id && e.leases[p].expiresAt <= now {
      var released := e.(leases := e.leases - {p});
      TrimsGoes(e, released);
      if id in e.outstanding {
        var dropped := released.(outstanding := e.outstanding - {id}, incoming := e.incoming - {id});
        TrimsGoes(e, dropped);
        FailGoes(dropped, e.outstanding[id].piece);
        GoesTrans(e, dropped, Unfail(Fail(dropped, e.outstanding[id].piece), e.outstanding[id].piece));
      }
    }
  }

  lemma {:induction false} ExpireLeasesGoes(e: Engine, now: int, n: nat)
    requires n <= |e.issued|
    ensures Goes(e, ExpireLeasesFirst(e, now, n))
  {
    hide Goes, ExpireLease;
    TrimsGoes(e, e);
    if n > 0 {
      var b := ExpireLeasesFirst(e, now, n - 1);
      ExpireLeasesGoes(e, now, n - 1);
      ExpireLeaseGoes(b, n - 1, now);
      GoesTrans(e, b, ExpireLease(b, n - 1, now));
    }
  }

  lemma ExpireAllLeasesGoes(e: Engine, now: int)
    ensures Goes(e, ExpireLeases(e, now))
  {
    hide Goes;
    ExpireLeasesGoes(e, now, |e.issued|);
  }

  lemma GridReadyGoes(e: Engine, file: FileId, o: GridOptions, now: int)
    ensures Goes(e, GridReady(e, file, o, now))
  {
    hide Goes, Trims, Update, ExpireLeases;
    var b := ExpireLeases(e, now);
    ExpireAllLeasesGoes(e, now);
    SideFieldsGo(b, GridReady(e, file, o, now));
    GoesTrans(e, b, GridReady(e, file, o, now));
  }

  /** Leases running out leave a piece that may be asked for in that condition. */
  lemma {:induction false} ExpiryKeepsWanted(e: Engine, now: int, n: nat, p: Piece)
    requires n <= |e.issued| && Has(e, p) && Wanted(StateOf(e, p))
    ensures var b := ExpireLeasesFirst(e, now, n); Has(b, p) && Wanted(StateOf(b, p))
  {
    hide ExpireLease;
    if n > 0 {
      ExpiryKeepsWanted(e, now, n - 1, p);
      ExpireLeaseKeepsWanted(ExpireLeasesFirst(e, now, n - 1), n - 1, now, p);
    }
  }

  lemma ExpireLeaseKeepsWanted(e: Engine, id: RequestId, now: int, p: Piece)
    requires id < |e.issued| && Has(e, p) && Wanted(StateOf(e, p))
    ensures var b := ExpireLease(e, id, now); Has(b, p) && Wanted(StateOf(b, p))
  {
    if id in e.outstanding {
      FailedStaysWanted(e.(leases := e.leases - {e.issued[id].request.piece}, outstanding := e.outstanding - {id}, incoming := e.incoming - {id}),
                        e.outstanding[id].piece, p);
    }
    hide SameShape, Fail, Unfail;
  }

  lemma FailedStaysWanted(e: Engine, q: Piece, p: Piece)
    requires Has(e, p) && Wanted(StateOf(e, p))
    ensures var b := Unfail(Fail(e, q), q); Has(b, p) && Wanted(StateOf(b, p))
  {
    hide SetState;
    if Has(e, q) {
      StateAfterSet(e, q, MarkFailed(StateOf(e, q)));
      var f := Fail(e, q);
      StateAfterSet(f, q, ResetFailedToMissing(StateOf(f, q)));
    }
  }

  lemma StateAfterSet(e: Engine, q: Piece, s: PieceState)
    requires Has(e, q)
    ensures forall p :: Has(e, p) ==> Has(SetState(e, q, s), p) && StateOf(SetState(e, q, s), p) == if p == q then s else StateOf(e, p)
    ensures SetState(e, q, s) == e.(managers := SetState(e, q, s).managers)
  {
  }

  lemma RequestNextGridGoes(e: Engine, file: FileId, o: GridOptions, env: Env)
    ensures Goes(e, RequestNextGrid(e, file, o, env).0)
  {
    hide Goes, GridItems, Choose, Record, GridReady;
    TrimsGoes(e, e);
    if file in e.managers && MissingPieces(e.managers[file]) != [] {
      var g := GridReady(e, file, o, env.view.now);
      GridReadyGoes(e, file, o, env.view.now);
      var c := Choose(GridItems(e, file, o, env.view), e.cfg.maxRetries);
      if c.Scheduled? {
        var p := Piece(file, c.index);
        GridChosen(e, file, o, env.view);
        GridReadyKeeps(e, file, o, env.view.now, p);
        var r := Request(p, c.provider.peer, Grid(o));
        var lease := Lease(c.provider.peer, |g.issued|, env.view.now + o.leaseMs);
        RecordGoes(g, r, None, Some(lease));
        GoesTrans(e, g, Record(g.(leases := g.leases[p := lease]), r, None));
      }
    }
  }

  lemma GridReadyKeeps(e: Engine, file: FileId, o: GridOptions, now: int, p: Piece)
    requires Has(e, p) && Wanted(StateOf(e, p))
    ensures var g := GridReady(e, file, o, now);
      g.cfg == e.cfg && Has(g, p) && Wanted(StateOf(g, p)) && |g.issued| == |e.issued|
  {
    ExpiryKeepsWanted(e, now, |e.issued|, p);
    ExpireLeasesGoes(e, now, |e.issued|);
  }

  lemma AskAgainGoes(e: Engine, p: Piece, peer: PeerId, kind: Option<Kind>, env: Env)
    ensures Goes(e, AskAgain(e, p, peer, kind, env))
  {
    hide Goes, RequestNext, RequestNextGrid;
    TrimsGoes(e, e);
    var u := Unfail(e, p);
    FailGoes(e, p);
    if kind.Some? && kind.value.Grid? {
      RequestNextGridGoes(u, p.file, kind.value.options, env);
      GoesTrans(e, u, RequestNextGrid(u, p.file, kind.value.options, env).0);
    } else {
      RequestNextGoes(u, peer, p.file, None, None, env);
      GoesTrans(e, u, RequestNext(u, peer, p.file, None, None, env).0);
    }
  }

  // ----- messages -----

  lemma RejectCoreGoes(e: Engine, h: Header)
    ensures Goes(e, RejectChunkCore(e, h))
  {
    hide Goes, Fail, FinalizeOrDrop;
    var r := Release(e.(incoming := e.incoming - {h.id}), h.piece, h.id);
    TrimsGoes(e, r);
    var f := Fail(r, h.piece);
    FailGoes(r, h.piece);
    GoesTrans(e, r, f);
    FinalizeTrims(f, h.id, InvalidChunk);
    TrimsGoes(f, RejectChunkCore(e, h));
    GoesTrans(e, f, RejectChunkCore(e, h));
  }

  lemma RejectChunkGoes(e: Engine, peer: PeerId, h: Header, env: Env)
    ensures Goes(e, RejectChunk(e, peer, h, env))
  {
    hide Goes, RejectChunkCore, AskAgain;
    var r := RejectChunkCore(e, h);
    RejectCoreGoes(e, h);
    AskAgainGoes(r, h.piece, peer, KindOf(e, h.id), env);
    GoesTrans(e, r, AskAgain(r, h.piece, peer, KindOf(e, h.id), env));
  }

  lemma MismatchGoes(e: Engine, p: Piece, id: RequestId, env: Env)
    ensures Goes(e, ReceiveMismatch(e, p, id, env).0)
  {
    hide Goes, Trims, FinalizeOrDrop, Finalize, LifecycleError;
    var released := Release(e, p, id);
    ReleaseTrims(e, p, id);
    TrimsGoes(e, released);
    var failed := Fail(released, p);
    FailGoes(released, p);
    GoesTrans(e, released, failed);
    if env.deleteOk {
      var deleted := failed.(storage := failed.storage - {p});
      DeleteGoes(failed, p);
      GoesTrans(e, failed, deleted);
      var saved := if env.persistOk then deleted else Finalize(LifecycleError(deleted, RequestOf(e, id)), id, Cancelled);
      SaveTrims(deleted, RequestOf(e, id), id, env);
      FinalizeTrims(saved, id, HashMismatch);
      TrimsTrans(deleted, saved, FinalizeOrDrop(saved, id, HashMismatch));
      TrimsGoes(deleted, FinalizeOrDrop(saved, id, HashMismatch));
      GoesTrans(e, deleted, FinalizeOrDrop(saved, id, HashMismatch));
    }
  }

  lemma ReleaseTrims(e: Engine, p: Piece, id: RequestId)
    ensures Trims(e, Release(e, p, id))
  {
  }

  lemma SaveTrims(e: Engine, r: Option<Request>, id: RequestId, env: Env)
    ensures Trims(e, if env.persistOk then e else Finalize(LifecycleError(e, r), id, Cancelled))
  {
    hide Finalize, LifecycleError;
    var l := LifecycleError(e, r);
    LifecycleErrorTrims(e, r);
    FinalizeTrims(l, id, Cancelled);
    TrimsTrans(e, l, Finalize(l, id, Cancelled));
  }

  /** Removing stored bytes of a piece that is not marked verified. */
  lemma DeleteGoes(e: Engine, p: Piece)
    requires Has(e, p) ==> !StateOf(e, p).status.Verified?
    ensures Goes(e, e.(storage := e.storage - {p}))
  {
    var b := e.(storage := e.storage - {p});
    forall q | Has(e, q)
      ensures StateOf(b, q) == StateOf(e, q) && (q != p ==> Backed(b, q) == Backed(e, q))
    {
    }
  }

  /** Storing matching bytes and marking the piece verified. */
  lemma StoreGoes(e: Engine, p: Piece, data: Bytes)
    requires Has(e, p) && DescriptorOf(e, p).Some? && Checks(e.cfg, data, DescriptorOf(e, p).value)
    ensures Goes(e, SetState(e.(storage := e.storage[p := data]), p, MarkVerified(StateOf(e, p))))
  {
    var b := SetState(e.(storage := e.storage[p := data]), p, MarkVerified(StateOf(e, p)));
    forall q | Has(e, q)
      ensures StateOf(b, q) == if q == p then MarkVerified(StateOf(e, q)) else StateOf(e, q)
      ensures if q == p then Backed(b, q) else Backed(b, q) == Backed(e, q)
    {
    }
  }

  lemma MatchGoes(e: Engine, p: Piece, id: RequestId, data: Bytes, env: Env)
    requires Has(e, p) && DescriptorOf(e, p).Some? && Checks(e.cfg, data, DescriptorOf(e, p).value)
    ensures Goes(e, ReceiveMatch(e, p, id, data, env).0)
  {
    hide Goes, FinalizeOrDrop, FailAndFinalize, LifecycleError, Checks, DescriptorOf;
    if !env.writeOk {
      ErrorGoes(e, RequestOf(e, id), id, p);
    } else {
      var stored := SetState(e.(storage := e.storage[p := data]), p, MarkVerified(StateOf(e, p)));
      StoreGoes(e, p, data);
      var released := Release(stored, p, id);
      TrimsGoes(stored, released);
      GoesTrans(e, stored, released);
      if !env.persistOk {
        ErrorGoes(released, RequestOf(e, id), id, p);
        GoesTrans(e, released, FailAndFinalize(LifecycleError(released, RequestOf(e, id)), id, p, Cancelled));
      } else {
        var ended := FinalizeOrDrop(released, id, VerifiedOk);
        FinalizeTrims(released, id, VerifiedOk);
        TrimsTrans(released, ended, CancelCompeting(ended, p, id));
        TrimsGoes(released, CancelCompeting(ended, p, id));
        GoesTrans(e, released, CancelCompeting(ended, p, id));
      }
    }
  }

  lemma ReceivePieceGoes(e: Engine, p: Piece, id: RequestId, data: Bytes, env: Env)
    ensures Goes(e, ReceivePiece(e, p, id, data, env).0)
  {
    hide Goes, ReceiveMatch, ReceiveMismatch, Checks, DescriptorOf;
    TrimsGoes(e, e);
    MismatchGoes(e, p, id, env);
    if DescriptorOf(e, p).Some? && Has(e, p) && Checks(e.cfg, data, DescriptorOf(e, p).value) {
      MatchGoes(e, p, id, data, env);
    }
  }

  lemma DeliverGoes(e: Engine, peer: PeerId, h: Header, data: Bytes, env: Env)
    ensures Goes(e, Deliver(e, peer, h, data, env))
  {
    hide Goes, ReceivePiece, AskAgain, FailAndFinalize, LifecycleError;
    TrimsGoes(e, e);
    if h.id in e.outstanding {
      var r := e.outstanding[h.id];
      var next := ReceivePiece(e, h.piece, h.id, data, env).0;
      ReceivePieceGoes(e, h.piece, h.id, data, env);
      ErrorGoes(next, Some(r), h.id, h.piece);
      GoesTrans(e, next, FailAndFinalize(LifecycleError(next, Some(r)), h.id, h.piece, Cancelled));
      AskAgainGoes(next, h.piece, peer, Some(r.kind), env);
      GoesTrans(e, next, AskAgain(next, h.piece, peer, Some(r.kind), env));
    }
  }

  lemma AckGoes(e: Engine, peer: PeerId, id: RequestId, p: Piece)
    ensures Goes(e, ReceiveAck(e, peer, id, p))
  {
    hide Goes, Trims, FinalizeOrDrop;
    DropTrims(e, id);
    TrimsGoes(e, e);
    var r := Release(e, p, id);
    ReleaseTrims(e, p, id);
    FinalizeTrims(r, id, Acknowledged);
    TrimsTrans(e, r, FinalizeOrDrop(r, id, Acknowledged));
    TrimsGoes(e, FinalizeOrDrop(r, id, Acknowledged));
  }

  lemma RejectGoes(e: Engine, peer: PeerId, id: RequestId, env: Env)
    ensures Goes(e, ReceiveReject(e, peer, id, env))
  {
    hide Goes, FinalizeOrDrop, Fail, AskAgain;
    TrimsGoes(e, e);
    if id in e.outstanding && e.outstanding[id].peer == peer {
      var r := e.outstanding[id];
      var released := Release(e, r.piece, id);
      TrimsGoes(e, released);
      var failed := Fail(released, r.piece);
      FailGoes(released, r.piece);
      GoesTrans(e, released, failed);
      var next := FinalizeOrDrop(failed, id, ProviderReject);
      FinalizeTrims(failed, id, ProviderReject);
      TrimsGoes(failed, next);
      GoesTrans(e, failed, next);
      AskAgainGoes(next, r.piece, r.peer, Some(r.kind), env);
      GoesTrans(e, next, AskAgain(next, r.piece, r.peer, Some(r.kind), env));
    }
  }

  // ----- the books -----

  /** Outstanding requests are as issued, and about existing pieces. */
  ghost predicate Ledger(e: Engine) {
    && (forall id :: id in e.outstanding ==> id < |e.issued| && e.outstanding[id] == e.issued[id].request)
    && (forall k :: 0 <= k < |e.issued| ==> Has(e, e.issued[k].request.piece))
  }

  predicate Announces(e: Engine, peer: PeerId, h: Header) {
    h.id < |e.issued| && e.issued[h.id].request.peer == peer && e.issued[h.id].request.piece == h.piece
  }

  predicate Arrives(e: Engine, id: RequestId, a: Assembly) {
    id < |e.issued| && e.issued[id].request.peer == a.peer && e.issued[id].request.piece == a.piece
  }

  /** Waiting headers and half-arrived pieces belong to issued requests of the peer that sent them,
      and the counters of every half-arrived piece are exact. */
  ghost predicate Arrivals(e: Engine) {
    && (forall q :: q in e.pending ==> Announces(e, q, e.pending[q]))
    && (forall id :: id in e.incoming ==> Arrives(e, id, e.incoming[id]) && Sound(e.incoming[id]))
  }

  predicate LeaseOfIssued(e: Engine, p: Piece)
    requires p in e.leases
  {
    && e.leases[p].id < |e.issued|
    && e.issued[e.leases[p].id].request.piece == p && e.issued[e.leases[p].id].request.kind.Grid?
    && e.issued[e.leases[p].id].request.peer == e.leases[p].peer
  }

  ghost predicate LeasesOfIssued(e: Engine) {
    forall p :: p in e.leases ==> LeaseOfIssued(e, p)
  }

  ghost predicate PiecesPerManifest(e: Engine) {
    e.managers.Keys == e.manifests.Keys && forall f :: f in e.managers ==> |e.managers[f]| == |e.manifests[f]|
  }

  ghost predicate Books(e: Engine) {
    PiecesPerManifest(e) && Ledger(e) && Arrivals(e) && LeasesOfIssued(e)
  }

  lemma EvolvesLedger(a: Engine, b: Engine)
    requires Evolves(a, b) && Ledger(a)
    ensures Ledger(b) && (PiecesPerManifest(a) ==> PiecesPerManifest(b))
  {
    forall k | 0 <= k < |b.issued|
      ensures Has(b, b.issued[k].request.piece)
    {
      assert k < |a.issued| ==> b.issued[k] == a.issued[k];
    }
    assert forall k :: 0 <= k < |a.issued| ==> b.issued[k] == a.issued[k];
  }

  lemma EvolvesArrivals(a: Engine, b: Engine)
    requires Evolves(a, b) && Arrivals(a)
    ensures Arrivals(b)
  {
    hide Sound;
    assert forall k :: 0 <= k < |a.issued| ==> b.issued[k] == a.issued[k];
    forall q | q in b.pending
      ensures Announces(b, q, b.pending[q])
    {
      assert Announces(a, q, a.pending[q]);
    }
    forall id | id in b.incoming
      ensures Arrives(b, id, b.incoming[id]) && Sound(b.incoming[id])
    {
      assert Arrives(a, id, a.incoming[id]);
    }
  }

  lemma EvolvesLeases(a: Engine, b: Engine)
    requires Evolves(a, b) && LeasesOfIssued(a)
    ensures LeasesOfIssued(b)
  {
    assert forall k :: 0 <= k < |a.issued| ==> b.issued[k] == a.issued[k];
    forall p | p in b.leases
      ensures LeaseOfIssued(b, p)
    {
      assert p in a.leases ==> LeaseOfIssued(a, p);
    }
  }

  lemma GoesKeepsBooks(a: Engine, b: Engine)
    requires Books(a) && Goes(a, b)
    ensures Books(b)
  {
    hide Frugal, Integral, Settled, Evolves, Ledger, Arrivals, LeasesOfIssued, PiecesPerManifest;
    EvolvesLedger(a, b);
    EvolvesArrivals(a, b);
    EvolvesLeases(a, b);
  }

  /** What one step keeps, besides the books. */
  ghost predicate Keeps(a: Engine, b: Engine) {
    && a.cfg == b.cfg && a.manifests == b.manifests && SameShape(a, b)
    && a.issued <= b.issued && a.terminals <= b.terminals
    && Frugal(a, b) && (Integral(a) ==> Integral(b)) && (Settled(a) ==> Settled(b))
  }

  lemma KeepsTrans(a: Engine, b: Engine, c: Engine)
    requires Keeps(a, b) && Keeps(b, c)
    ensures Keeps(a, c)
  {
    hide Frugal, Integral, Settled;
    FrugalTrans(a, b, c);
  }

  lemma HeaderKeeps(e: Engine, peer: PeerId, h: Header, env: Env)
    requires Books(e)
    ensures var b := ReceiveHeader(e, peer, h, env); Keeps(e, b) && Books(b)
  {
    hide RejectChunk, Goes, Keeps, Books, Trims, Active;
    StayKeeps(e);
    RejectChunkGoes(e, peer, h, env);
    GoesKeepsBooks(e, RejectChunk(e, peer, h, env));
    GoesMeansKeeps(e, RejectChunk(e, peer, h, env));
    if Active(e, peer, h) {
      HeaderWaits(e, peer, h);
      PendingKeeps(e, e.(pending := e.pending[peer := h]));
    }
  }

  lemma StayKeeps(e: Engine)
    ensures Goes(e, e) && Keeps(e, e)
  {
    DropTrims(e, 0);
    TrimsGoes(e, e);
  }

  lemma HeaderWaits(e: Engine, peer: PeerId, h: Header)
    requires Books(e) && Active(e, peer, h)
    ensures Arrivals(e.(pending := e.pending[peer := h]))
  {
  }

  lemma PendingKeeps(e: Engine, b: Engine)
    requires Books(e) && b == e.(pending := b.pending, incoming := b.incoming) && Arrivals(b)
    ensures Keeps(e, b) && Books(b)
  {
    hide Arrivals, Asked;
    forall p | Has(e, p)
      ensures StateOf(b, p) == StateOf(e, p) && (Backed(b, p) <==> Backed(e, p))
    {
    }
    forall p | p in b.leases
      ensures LeaseOfIssued(b, p)
    {
      assert LeaseOfIssued(e, p);
    }
  }

  /** Taking the frame that belongs to the waiting header leaves the arrivals in order. */
  lemma FrameTaken(e: Engine, peer: PeerId, frame: Bytes)
    requires Arrivals(e) && peer in e.pending
    ensures var h := e.pending[peer]; var e1 := e.(pending := e.pending - {peer});
      var r := AppendChunk(if h.id in e.incoming then Some(e.incoming[h.id]) else None, peer, h, frame);
      && Arrivals(e1) && Arrivals(e1.(incoming := e1.incoming - {h.id}))
      && (r.Incomplete? ==> Arrivals(e1.(incoming := e1.incoming[h.id := r.assembly])))
  {
    hide Sound, AppendChunk;
    var h := e.pending[peer];
    AppendKeepsSound(if h.id in e.incoming then Some(e.incoming[h.id]) else None, peer, h, frame);
    assert Announces(e, peer, h);
  }

  lemma BinaryKeeps(e: Engine, peer: PeerId, frame: Bytes, env: Env)
    requires Books(e)
    ensures var b := ReceiveBinary(e, peer, frame, env); Keeps(e, b) && Books(b)
  {
    hide Goes, Keeps, RejectChunk, Deliver, AppendChunk, Books, Arrivals;
    StayKeeps(e);
    if peer in e.pending {
      var h := e.pending[peer];
      var e1 := e.(pending := e.pending - {peer});
      assert Arrivals(e) by { BooksArrivals(e); }
      FrameTaken(e, peer, frame);
      PendingKeeps(e, e1);
      match AppendChunk(if h.id in e.incoming then Some(e.incoming[h.id]) else None, peer, h, frame)
      case Reject =>
        RejectChunkGoes(e1, peer, h, env);
        ThenGoes(e, e1, RejectChunk(e1, peer, h, env));
      case Incomplete(a) =>
        PendingKeeps(e, e1.(incoming := e1.incoming[h.id := a]));
      case Complete(data) =>
        var e2 := e1.(incoming := e1.incoming - {h.id});
        PendingKeeps(e, e2);
        DeliverGoes(e2, peer, h, data, env);
        ThenGoes(e, e2, Deliver(e2, peer, h, data, env));
    }
  }

  lemma BooksArrivals(e: Engine)
    requires Books(e)
    ensures Arrivals(e)
  {
  }

  lemma ThenGoes(a: Engine, b: Engine, c: Engine)
    requires Keeps(a, b) && Books(b) && Goes(b, c)
    ensures Keeps(a, c) && Books(c)
  {
    hide Goes, Keeps, Books;
    GoesKeepsBooks(b, c);
    GoesMeansKeeps(b, c);
    KeepsTrans(a, b, c);
  }

  lemma GoesIssued(a: Engine, b: Engine)
    requires Goes(a, b)
    ensures a.issued <= b.issued
  {
  }

  lemma GoesMeansKeeps(a: Engine, b: Engine)
    requires Goes(a, b)
    ensures Keeps(a, b)
  {
  }

  lemma GridRoundGoes(e: Engine, file: FileId, o: GridOptions, total: nat, env: Env)
    ensures Goes(e, GridRound(e, file, o, total, env))
  {
    hide Goes, RequestNextGrid;
    TrimsGoes(e, e);
    RequestNextGridGoes(e, file, o, env);
  }

  lemma ExpireAllGoes(e: Engine, now: int)
    ensures Goes(e, ExpireAll(e, now))
  {
    hide Goes;
    ExpireFirstGoes(e, now, |e.issued|);
  }

  lemma CancelGoes(e: Engine, s: Selector)
    ensures Goes(e, CancelDirect(e, s))
  {
    hide Goes, CancelDirect;
    CancelDirectTrims(e, s);
    TrimsGoes(e, CancelDirect(e, s));
  }

  lemma DisposeKeeps(e: Engine)
    requires Books(e)
    ensures Keeps(e, Dispose(e)) && Books(Dispose(e))
  {
    hide Goes, Keeps, Books, CancelDirect, Trims;
    StayKeeps(e);
    if !e.disposed {
      var c := CancelDirect(e, Everything);
      CancelGoes(e, Everything);
      GoesMeansKeeps(e, c);
      GoesKeepsBooks(e, c);
      var d := c.(timers := {}, outstanding := map[], windows := map[], windowOrder := []);
      assert Trims(c, d) by { EmptyTrims(c); }
      TrimsGoes(c, d);
      ThenGoes(e, c, d);
      FlagKeeps(d);
      KeepsTrans(e, d, d.(disposed := true));
    }
  }

  lemma EmptyTrims(c: Engine)
    ensures Trims(c, c.(timers := {}, outstanding := map[], windows := map[], windowOrder := []))
  {
  }

  lemma FlagKeeps(d: Engine)
    requires Books(d)
    ensures Keeps(d, d.(disposed := true)) && Books(d.(disposed := true))
  {
    var f := d.(disposed := true);
    hide Asked, Arrivals;
    assert Arrivals(f) by { FlagArrivals(d); }
    forall p | Has(d, p)
      ensures StateOf(f, p) == StateOf(d, p) && (Backed(f, p) <==> Backed(d, p))
    {
    }
    forall p | p in f.leases
      ensures LeaseOfIssued(f, p)
    {
      assert LeaseOfIssued(d, p);
    }
  }

  lemma FlagArrivals(d: Engine)
    requires Arrivals(d)
    ensures Arrivals(d.(disposed := true))
  {
  }

  lemma OtherStepGoes(e: Engine, a: Action, env: Env)
    requires !a.DoHeader? && !a.DoBinary? && !a.DoDispose?
    ensures Goes(e, Step(e, a, env))
  {
    hide Goes, Trims, OpenWindow, RunTask, FireTimer, ExpireAll, CancelDirect, GridRound, ExpireLeases,
         ReceiveAck, ReceiveReject, Update;
    DropTrims(e, 0);
    TrimsGoes(e, e);
    match a
    case DoOpen(peer, file, o, cap) => OpenGoes(e, peer, file, o.(retryCount := 0), cap);
    case DoTask(key) => TaskGoes(e, key, env);
    case DoTimer(id) => TimerGoes(e, id);
    case DoExpireAll => ExpireAllGoes(e, env.view.now);
    case DoCancel(s) => CancelGoes(e, s);
    case DoGrid(file, o, total) => GridRoundGoes(e, file, o, total, env);
    case DoExpireLeases => ExpireAllLeasesGoes(e, env.view.now);
    case DoAck(peer, id, p) => AckGoes(e, peer, id, p);
    case DoCancelMessage(id) => SideFieldsGo(e, ReceiveCancel(e, id));
    case DoReject(peer, id) => RejectGoes(e, peer, id, env);
    case DoMap(peer, role, m) => SideFieldsGo(e, ReceiveMap(e, peer, role, m));
  }

  lemma StepKeeps(e: Engine, a: Action, env: Env)
    requires Books(e)
    ensures Keeps(e, Step(e, a, env)) && Books(Step(e, a, env))
  {
    hide Goes, Keeps, Books, ReceiveHeader, ReceiveBinary;
    if a.DoHeader? && !e.disposed {
      HeaderKeeps(e, a.peer, a.header, env);
    } else if a.DoBinary? && !e.disposed {
      BinaryKeeps(e, a.peer, a.frame, env);
    } else if a.DoDispose? {
      DisposeKeeps(e);
    } else {
      if a.DoHeader? || a.DoBinary? {
        TrimsGoes(e, e) by { DropTrims(e, 0); }
      } else {
        OtherStepGoes(e, a, env);
      }
      GoesMeansKeeps(e, Step(e, a, env));
      GoesKeepsBooks(e, Step(e, a, env));
    }
  }

  lemma StartBooks(e: Engine)
    requires Start(e)
    ensures Books(e) && Integral(e) && Settled(e)
  {
  }

  lemma {:induction false} RunKeeps(e: Engine, run: seq<Event>)
    requires Start(e)
    ensures Keeps(e, Run(e, run)) && Books(Run(e, run))
  {
    hide Keeps, Books, Step;
    if run == [] {
      StartBooks(e);
      StayKeeps(e);
    } else {
      var n := |run| - 1;
      RunKeeps(e, run[..n]);
      StepKeeps(Run(e, run[..n]), run[n].action, run[n].env);
      KeepsTrans(e, Run(e, run[..n]), Run(e, run));
    }
  }

  // ----- the retry budget -----

  /** Over any run, direct, grid and plain together, no piece is asked for more than `maxRetries + 1` times. */
  lemma RetryBudget(e: Engine, run: seq<Event>, p: Piece)
    requires Start(e) && Has(e, p)
    ensures Has(Run(e, run), p) && Slack(Run(e, run), p) >= 0
    ensures Asked(Run(e, run).issued, p) <= e.cfg.maxRetries + 1
  {
    hide Step, Integral, Asked;
    RunKeeps(e, run);
    NothingAsked(e, p);
  }

  lemma NothingAsked(e: Engine, p: Piece)
    requires Start(e)
    ensures Asked(e.issued, p) == 0
  {
  }

  /** How many requests were made for pieces of `file`. */
  function AskedOf(issued: seq<Issue>, file: FileId): nat {
    if issued == [] then 0
    else AskedOf(issued[..|issued| - 1], file) + if issued[|issued| - 1].request.piece.file == file then 1 else 0
  }

  function SumAsked(issued: seq<Issue>, file: FileId, n: nat): nat {
    if n == 0 then 0 else SumAsked(issued, file, n - 1) + Asked(issued, Piece(file, n - 1))
  }

  lemma {:induction false} SumAskedSnoc(issued: seq<Issue>, file: FileId, n: nat)
    requires issued != []
    ensures var m, p := |issued| - 1, issued[|issued| - 1].request.piece;
      SumAsked(issued, file, n) == SumAsked(issued[..m], file, n) + if p.file == file && p.index < n then 1 else 0
  {
    if n > 0 {
      SumAskedSnoc(issued, file, n - 1);
    }
  }

  lemma {:induction false} AskedSplitsByPiece(issued: seq<Issue>, file: FileId, n: nat)
    requires forall k :: 0 <= k < |issued| && issued[k].request.piece.file == file ==> issued[k].request.piece.index < n
    ensures AskedOf(issued, file) == SumAsked(issued, file, n)
  {
    if issued == [] {
      NoneAsked(file, n);
    } else {
      AskedSplitsByPiece(issued[..|issued| - 1], file, n);
      SumAskedSnoc(issued, file, n);
    }
  }

  lemma {:induction false} NoneAsked(file: FileId, n: nat)
    ensures SumAsked([], file, n) == 0
  {
    if n > 0 {
      NoneAsked(file, n - 1);
    }
  }

  lemma {:induction false} SumBounded(issued: seq<Issue>, file: FileId, n: nat, each: nat)
    requires forall i: nat :: i < n ==> Asked(issued, Piece(file, i)) <= each
    ensures SumAsked(issued, file, n) <= n * each
  {
    if n > 0 {
      hide Asked;
      SumBounded(issued, file, n - 1, each);
      assert n * each == (n - 1) * each + each;
    }
  }

  /** Any run sends at most `pieceCount * (maxRetries + 1)` requests for a file. */
  lemma RequestBudget(e: Engine, run: seq<Event>, file: FileId)
    requires Start(e) && file in e.manifests
    ensures AskedOf(Run(e, run).issued, file) <= |e.manifests[file]| * (e.cfg.maxRetries + 1)
  {
    hide Step, Integral, Asked, Slack, Keeps;
    var issued, n := Run(e, run).issued, |e.manifests[file]|;
    RunKeeps(e, run);
    assert Run(e, run).manifests == e.manifests by { KeepsManifests(e, Run(e, run)); }
    forall k | 0 <= k < |issued| && issued[k].request.piece.file == file
      ensures issued[k].request.piece.index < n
    {
      assert Has(Run(e, run), issued[k].request.piece);
    }
    AskedSplitsByPiece(issued, file, n);
    forall i: nat | i < n
      ensures Asked(issued, Piece(file, i)) <= e.cfg.maxRetries + 1
    {
      RetryBudget(e, run, Piece(file, i));
    }
    SumBounded(issued, file, n, e.cfg.maxRetries + 1);
  }

  lemma KeepsManifests(a: Engine, b: Engine)
    requires Keeps(a, b)
    ensures a.manifests == b.manifests && a.cfg == b.cfg && SameShape(a, b)
  {
  }

  // ----- integrity -----

  /** In every reachable state a verified piece is stored with bytes that match its descriptor. */
  lemma VerifiedIsBacked(e: Engine, run: seq<Event>)
    requires Start(e)
    ensures Integral(Run(e, run))
  {
    RunKeeps(e, run);
    StartBooks(e);
  }
}
