/** Runs that make grid requests only: leases and outstanding requests mirror each other, and caps hold. */
module EngineLease {
  import opened Common
  import opened Pieces
  import opened ChunkAssembly
  import opened Availability
  import opened GridChoice
  import opened Engine
  import opened EngineSteps
  import opened EngineRuns

  predicate HoldsLease(e: Engine, id: RequestId)
    requires id in e.outstanding
  {
    var r := e.outstanding[id];
    r.kind.Grid? && r.piece in e.leases && e.leases[r.piece].id == id && e.leases[r.piece].peer == r.peer
  }

  /** Leases and outstanding requests correspond one to one, by piece, peer and request id, so no
      piece has two outstanding requests. */
  ghost predicate Paired(e: Engine) {
    && (forall id :: id in e.outstanding ==> HoldsLease(e, id))
    && (forall p :: p in e.leases ==> e.leases[p].id in e.outstanding && e.outstanding[e.leases[p].id].piece == p)
  }

  // ----- primitive changes -----

  lemma PairedFrame(a: Engine, b: Engine)
    requires b.outstanding == a.outstanding && b.leases == a.leases
    ensures Paired(b) <==> Paired(a)
  {
    assert forall id :: id in a.outstanding ==> (HoldsLease(a, id) <==> HoldsLease(b, id));
  }

  /** A request and its lease go together. */
  lemma PairedDrop(e: Engine, p: Piece, id: RequestId)
    requires Paired(e) && (id in e.outstanding ==> e.outstanding[id].piece == p)
    ensures Paired(Release(e, p, id).(outstanding := e.outstanding - {id}))
  {
    var b := Release(e, p, id).(outstanding := e.outstanding - {id});
    forall i | i in b.outstanding
      ensures HoldsLease(b, i)
    {
      assert HoldsLease(e, i);
    }
  }

  lemma NoDirectHere(e: Engine, id: RequestId, reason: TerminalReason)
    requires id in e.outstanding ==> !e.outstanding[id].kind.Direct?
    ensures Finalize(e, id, reason) == e
    ensures FinalizeOrDrop(e, id, reason) == e.(outstanding := e.outstanding - {id})
  {
  }

  lemma PairedNotDirect(e: Engine, id: RequestId)
    requires Paired(e)
    ensures id in e.outstanding ==> e.outstanding[id].kind.Grid? && !IsDirect(e, id)
  {
    assert id in e.outstanding ==> HoldsLease(e, id);
  }

  lemma FailPairs(e: Engine, p: Piece)
    ensures Fail(e, p) == e.(managers := Fail(e, p).managers) && Unfail(e, p) == e.(managers := Unfail(e, p).managers)
  {
  }

  lemma ReopenPairs(e: Engine, p: Piece)
    ensures Reopen(e, p).outstanding == e.outstanding && Reopen(e, p).leases == e.leases
  {
    hide Fail, Unfail;
    FailPairs(e, p);
    FailPairs(Fail(e, p), p);
  }

  lemma ErrorNothing(e: Engine, r: Option<Request>)
    requires r.Some? ==> !r.value.kind.Direct?
    ensures LifecycleError(e, r) == e
  {
  }

  // ----- scheduling -----

  lemma PairedExpireLease(e: Engine, id: RequestId, now: int)
    requires Paired(e) && Books(e) && id < |e.issued|
    ensures Paired(ExpireLease(e, id, now))
  {
    hide Books, Paired, Reopen, SameShape;
    var p := e.issued[id].request.piece;
    assert id in e.outstanding ==> e.outstanding[id].piece == p by { BooksOutstanding(e); }
    if p in e.leases && e.leases[p].id == id && e.leases[p].expiresAt <= now {
      var b := Release(e, p, id).(outstanding := e.outstanding - {id});
      PairedDrop(e, p, id);
      if id in e.outstanding {
        ReopenPairs(e.(leases := e.leases - {p}, outstanding := e.outstanding - {id}, incoming := e.incoming - {id}), p);
        PairedFrame(b, ExpireLease(e, id, now));
      } else {
        assert e.outstanding - {id} == e.outstanding;
        PairedFrame(b, ExpireLease(e, id, now));
      }
    }
  }

  lemma BooksOutstanding(e: Engine)
    requires Books(e)
    ensures forall id :: id in e.outstanding ==> id < |e.issued| && e.outstanding[id] == e.issued[id].request
  {
  }

  lemma {:induction false} PairedExpireLeases(e: Engine, now: int, n: nat)
    requires Paired(e) && Books(e) && n <= |e.issued|
    ensures Paired(ExpireLeasesFirst(e, now, n)) && Books(ExpireLeasesFirst(e, now, n))
  {
    hide Paired, Books, ExpireLease, Goes;
    if n > 0 {
      PairedExpireLeases(e, now, n - 1);
      PairedExpireLease(ExpireLeasesFirst(e, now, n - 1), n - 1, now);
      ExpireLeasesGoes(e, now, n);
      GoesKeepsBooks(e, ExpireLeasesFirst(e, now, n));
    }
  }

  lemma PairedReady(e: Engine, file: FileId, o: GridOptions, now: int)
    requires Paired(e) && Books(e)
    ensures Paired(GridReady(e, file, o, now)) && Books(GridReady(e, file, o, now))
  {
    hide Paired, Books, ExpireLeasesFirst, Update, Goes;
    PairedExpireLeases(e, now, |e.issued|);
    PairedFrame(ExpireLeases(e, now), GridReady(e, file, o, now));
    GridReadyGoes(e, file, o, now);
    GoesKeepsBooks(e, GridReady(e, file, o, now));
  }

  lemma RecordLeased(g: Engine, r: Request, lease: Lease)
    requires Has(g, r.piece)
    ensures var b := Record(g.(leases := g.leases[r.piece := lease]), r, None);
      && b.outstanding == g.outstanding[|g.issued| := r] && b.leases == g.leases[r.piece := lease]
      && b.issued == g.issued + [Issue(r, None)]
  {
  }

  lemma PairedRecord(g: Engine, r: Request, lease: Lease)
    requires Paired(g) && Books(g) && Has(g, r.piece) && r.piece !in g.leases
    requires r.kind.Grid? && lease.id == |g.issued| && lease.peer == r.peer
    ensures Paired(Record(g.(leases := g.leases[r.piece := lease]), r, None))
  {
    RecordLeased(g, r, lease);
    BooksOutstanding(g);
    hide Record, Books, Has;
    var b := Record(g.(leases := g.leases[r.piece := lease]), r, None);
    forall id | id in b.outstanding
      ensures HoldsLease(b, id)
    {
      if id != |g.issued| {
        assert HoldsLease(g, id);
      }
    }
  }

  lemma PairedNextGrid(e: Engine, file: FileId, o: GridOptions, env: Env)
    requires Paired(e) && Books(e)
    ensures Paired(RequestNextGrid(e, file, o, env).0)
  {
    hide Paired, Books, GridReady, GridItems, Choose, Record;
    if file in e.managers && MissingPieces(e.managers[file]) != [] {
      var g := GridReady(e, file, o, env.view.now);
      PairedReady(e, file, o, env.view.now);
      var c := Choose(GridItems(e, file, o, env.view), e.cfg.maxRetries);
      if c.Scheduled? {
        GridChosen(e, file, o, env.view);
        PairedRecord(g, Request(Piece(file, c.index), c.provider.peer, Grid(o)),
                     Lease(c.provider.peer, |g.issued|, env.view.now + o.leaseMs));
      }
    }
  }

  lemma PairedAskAgain(e: Engine, p: Piece, peer: PeerId, kind: Kind, env: Env)
    requires Paired(e) && Books(e) && kind.Grid?
    ensures Paired(AskAgain(e, p, peer, Some(kind), env))
  {
    hide Paired, Books, RequestNextGrid, Unfail, Goes;
    var u := Unfail(e, p);
    FailPairs(e, p);
    PairedFrame(e, u);
    FailGoes(e, p);
    GoesKeepsBooks(e, u);
    PairedNextGrid(u, p.file, kind.options, env);
  }

  // ----- messages -----

  lemma PairedRejectCore(e: Engine, h: Header)
    requires Paired(e) && (h.id in e.outstanding ==> e.outstanding[h.id].piece == h.piece)
    ensures var b := RejectChunkCore(e, h); Paired(b) && b.outstanding == e.outstanding - {h.id}
  {
    PairedNotDirect(e, h.id);
    hide Paired, Fail, FinalizeOrDrop;
    var r := Release(e.(incoming := e.incoming - {h.id}), h.piece, h.id);
    FailPairs(r, h.piece);
    NoDirectHere(Fail(r, h.piece), h.id, InvalidChunk);
    PairedDrop(e, h.piece, h.id);
    PairedFrame(Release(e, h.piece, h.id).(outstanding := e.outstanding - {h.id}), RejectChunkCore(e, h));
  }

  /** The chunk is refused under a header whose request is no longer outstanding, and yet the piece is
      asked for again: with no grid options left, this is a plain request, without a lease. */
  predicate StaleRefusal(e: Engine, h: Header, env: Env) {
    && h.id !in e.outstanding && env.replyOk
    && Has(e, h.piece) && StateOf(e, h.piece).retryCount + 1 <= e.cfg.maxRetries
  }

  lemma PairedReject(e: Engine, peer: PeerId, h: Header, env: Env)
    requires Paired(e) && Books(e) && (h.id in e.outstanding ==> e.outstanding[h.id].piece == h.piece)
    requires Has(e, h.piece)
    ensures Paired(RejectChunk(e, peer, h, env)) <==> !StaleRefusal(e, h, env)
  {
    hide Paired, Books, RejectChunkCore, AskAgain, Goes;
    PairedNotDirect(e, h.id);
    var r := RejectChunkCore(e, h);
    PairedRejectCore(e, h);
    RejectCoreGoes(e, h);
    GoesKeepsBooks(e, r);
    RejectFailsPiece(e, h);
    if h.id in e.outstanding {
      PairedAskAgain(r, h.piece, peer, e.outstanding[h.id].kind, env);
    } else if StaleRefusal(e, h, env) {
      PlainBreaks(r, h.piece, peer, env);
    } else if env.replyOk {
      assert AskAgain(r, h.piece, peer, None, env) == r by { AskNothing(r, h.piece, peer, env); }
    }
  }

  lemma AskNothing(e: Engine, p: Piece, peer: PeerId, env: Env)
    requires !RetriesLeft(e, p)
    ensures AskAgain(e, p, peer, None, env) == e
  {
  }

  lemma RejectFailsPiece(e: Engine, h: Header)
    requires Has(e, h.piece)
    ensures var r := RejectChunkCore(e, h);
      && r.cfg == e.cfg && Has(r, h.piece)
      && StateOf(r, h.piece).status.Failed? && StateOf(r, h.piece).retryCount == StateOf(e, h.piece).retryCount + 1
  {
    hide FinalizeOrDrop, Fail, SameShape;
    var r := Release(e.(incoming := e.incoming - {h.id}), h.piece, h.id);
    FailedState(r, h.piece);
    FinalizeKeepsPieces(Fail(r, h.piece), h.id, InvalidChunk);
  }

  lemma FailedState(e: Engine, p: Piece)
    requires Has(e, p)
    ensures Has(Fail(e, p), p) && StateOf(Fail(e, p), p) == MarkFailed(StateOf(e, p)) && Fail(e, p).cfg == e.cfg
  {
  }

  lemma FinalizeKeepsPieces(e: Engine, id: RequestId, reason: TerminalReason)
    ensures FinalizeOrDrop(e, id, reason).managers == e.managers && FinalizeOrDrop(e, id, reason).cfg == e.cfg
  {
    hide Trims;
    FinalizeTrims(e, id, reason);
    TrimsManagers(e, FinalizeOrDrop(e, id, reason));
  }

  lemma TrimsManagers(a: Engine, b: Engine)
    requires Trims(a, b)
    ensures a.managers == b.managers && a.cfg == b.cfg
  {
  }

  /** A piece that can be asked for is there, so a plain request is recorded: it holds no lease. */
  lemma PlainBreaks(r: Engine, p: Piece, peer: PeerId, env: Env)
    requires Books(r) && Has(r, p) && StateOf(r, p).status.Failed? && StateOf(r, p).retryCount <= r.cfg.maxRetries
    ensures !Paired(AskAgain(r, p, peer, None, env))
  {
    hide Books, SetState, SameShape;
    StateAfterSet(r, p, ResetFailedToMissing(StateOf(r, p)));
    var u := Unfail(r, p);
    NextPieceExists(u.managers[p.file], u.cfg.maxRetries, p.index);
    PlainIsRecorded(u, peer, p.file, env);
    assert !HoldsLease(AskAgain(r, p, peer, None, env), |u.issued|);
  }

  lemma PlainIsRecorded(u: Engine, peer: PeerId, file: FileId, env: Env)
    requires file in u.managers && NextPiece(u.managers[file], u.cfg.maxRetries).Some?
    ensures var b := RequestNext(u, peer, file, None, None, env).0;
      |u.issued| in b.outstanding && b.outstanding[|u.issued|].kind.Plain?
  {
    hide NextPiece, SetState, Fail;
    var b := Begin(u, peer, file, None, None, env).value;
    var id := |u.issued|;
    var q := b.issued[id].request.piece;
    FailPairs(b, q);
    NoDirectHere(Fail(b, q), id, SendFailed);
    ErrorNothing(b, Some(b.outstanding[id]));
    NoDirectHere(Fail(b, q), id, Cancelled);
  }

  lemma NextPieceExists(s: States, maxRetries: nat, i: nat)
    requires i < |s| && Wanted(s[i]) && s[i].retryCount <= maxRetries
    ensures NextPiece(s, maxRetries).Some?
  {
    NextAmongExists(s, MissingPieces(s), maxRetries, i);
  }

  lemma {:induction false} NextAmongExists(s: States, missing: seq<nat>, maxRetries: nat, i: nat)
    requires forall k :: 0 <= k < |missing| ==> missing[k] < |s| && Wanted(s[missing[k]])
    requires i in missing && s[i].retryCount <= maxRetries
    ensures NextAmong(s, missing, maxRetries).Some?
  {
    if s[missing[0]].retryCount > maxRetries {
      NextAmongExists(s, missing[1..], maxRetries, i);
    }
  }

  /** The received piece leaves its request without a lease: the removal of mismatching bytes throws,
      or matching bytes are stored but the session state is not saved. */
  predicate LosesLease(e: Engine, h: Header, data: Bytes, env: Env) {
    && h.id in e.outstanding && h.id !in e.tombstones && DescriptorOf(e, h.piece).Some?
    && if Checks(e.cfg, data, DescriptorOf(e, h.piece).value) then env.writeOk && !env.persistOk else !env.deleteOk
  }

  lemma PairedMismatch(e: Engine, p: Piece, id: RequestId, env: Env)
    requires Paired(e) && id in e.outstanding && e.outstanding[id].piece == p
    ensures var b := ReceiveMismatch(e, p, id, env).0;
      && b.leases == Release(e, p, id).leases
      && b.outstanding == if env.deleteOk then e.outstanding - {id} else e.outstanding
    ensures env.deleteOk ==> Paired(ReceiveMismatch(e, p, id, env).0)
  {
    PairedNotDirect(e, id);
    hide Paired, Fail, Finalize;
    var failed := Fail(Release(e, p, id), p);
    FailPairs(Release(e, p, id), p);
    if env.deleteOk {
      var deleted := failed.(storage := failed.storage - {p});
      ErrorNothing(deleted, RequestOf(e, id));
      NoDirectHere(deleted, id, Cancelled);
      NoDirectHere(deleted, id, HashMismatch);
      PairedDrop(e, p, id);
      PairedFrame(Release(e, p, id).(outstanding := e.outstanding - {id}), ReceiveMismatch(e, p, id, env).0);
    }
  }

  lemma StoredLeases(e: Engine, p: Piece, id: RequestId, data: Bytes)
    requires Has(e, p)
    ensures var s := StoreVerified(e, p, id, data);
      s.outstanding == e.outstanding && s.leases == Release(e, p, id).leases && s.cfg == e.cfg
  {
  }

  lemma PairedMatch(e: Engine, p: Piece, id: RequestId, data: Bytes, env: Env)
    requires Paired(e) && id in e.outstanding && e.outstanding[id].piece == p && Has(e, p)
    ensures var b := ReceiveMatch(e, p, id, data, env).0;
      && (env.writeOk && !env.persistOk ==> b.leases == Release(e, p, id).leases && b.outstanding == e.outstanding)
      && (!env.writeOk || env.persistOk ==> Paired(b))
      && b.outstanding == (if env.writeOk && env.persistOk then e.outstanding - {id} else e.outstanding)
      && (!env.writeOk ==> b == Fail(e, p))
  {
    PairedNotDirect(e, id);
    PairedAlone(e, id);
    hide Paired, Fail, Finalize, StoreVerified, CancelCompeting, Has, LifecycleError;
    ErrorNothing(e, RequestOf(e, id));
    FailPairs(e, p);
    NoDirectHere(Fail(e, p), id, Cancelled);
    PairedFrame(e, Fail(e, p));
    if env.writeOk {
      var s := StoreVerified(e, p, id, data);
      StoredLeases(e, p, id, data);
      ErrorNothing(s, RequestOf(e, id));
      FailPairs(s, p);
      NoDirectHere(Fail(s, p), id, Cancelled);
      NoDirectHere(s, id, VerifiedOk);
      var d := s.(outstanding := s.outstanding - {id});
      NobodyElse(d, p, id);
      PairedDrop(e, p, id);
      PairedFrame(Release(e, p, id).(outstanding := e.outstanding - {id}), CancelCompeting(d, p, id));
    }
  }

  lemma PairedAlone(e: Engine, id: RequestId)
    requires Paired(e) && id in e.outstanding
    ensures forall i :: i in e.outstanding && e.outstanding[i].piece == e.outstanding[id].piece ==> i == id
  {
    assert HoldsLease(e, id);
    assert forall i :: i in e.outstanding ==> HoldsLease(e, i);
  }

  lemma NobodyElse(e: Engine, p: Piece, id: RequestId)
    requires forall i :: i in e.outstanding ==> e.outstanding[i].piece != p
    ensures CancelCompeting(e, p, id).outstanding == e.outstanding && CancelCompeting(e, p, id).leases == e.leases
  {
  }

  // ----- a request that lost its lease keeps standing -----

  predicate Leaseless(e: Engine, id: RequestId) {
    && id in e.outstanding && id < |e.issued| && e.outstanding[id] == e.issued[id].request
    && !(e.outstanding[id].piece in e.leases && e.leases[e.outstanding[id].piece].id == id)
  }

  lemma LeaselessBreaks(e: Engine, id: RequestId)
    requires Leaseless(e, id)
    ensures !Paired(e)
  {
    assert !HoldsLease(e, id);
  }

  lemma {:induction false} LeaselessSurvivesExpiry(e: Engine, id: RequestId, now: int, n: nat)
    requires Leaseless(e, id) && n <= |e.issued|
    ensures Leaseless(ExpireLeasesFirst(e, now, n), id)
  {
    hide ExpireLease, Leaseless;
    if n > 0 {
      LeaselessSurvivesExpiry(e, id, now, n - 1);
      LeaselessSurvivesOne(ExpireLeasesFirst(e, now, n - 1), id, n - 1, now);
    }
  }

  /** What the expiry of one lease does to the requests and leases. */
  lemma ExpireLeaseFields(e: Engine, other: RequestId, now: int)
    requires other < |e.issued|
    ensures var b, p := ExpireLease(e, other, now), e.issued[other].request.piece;
      b.issued == e.issued &&
      if p in e.leases && e.leases[p].id == other && e.leases[p].expiresAt <= now
      then b.outstanding == e.outstanding - {other} && b.leases == e.leases - {p}
      else b == e
  {
    hide Reopen, SameShape;
    if other in e.outstanding {
      var p := e.issued[other].request.piece;
      ReopenPairs(e.(leases := e.leases - {p}, outstanding := e.outstanding - {other}, incoming := e.incoming - {other}), e.outstanding[other].piece);
    } else {
      assert e.outstanding - {other} == e.outstanding;
    }
  }

  lemma LeaselessSurvivesOne(e: Engine, id: RequestId, other: RequestId, now: int)
    requires Leaseless(e, id) && other < |e.issued|
    ensures Leaseless(ExpireLease(e, other, now), id)
  {
    hide ExpireLease;
    ExpireLeaseFields(e, other, now);
  }

  lemma LeaselessSurvivesGrid(e: Engine, id: RequestId, file: FileId, o: GridOptions, env: Env)
    requires Leaseless(e, id)
    ensures Leaseless(RequestNextGrid(e, file, o, env).0, id)
  {
    hide GridItems, Choose, Record, ExpireLeasesFirst, Update, Has;
    if file in e.managers && MissingPieces(e.managers[file]) != [] {
      LeaselessSurvivesExpiry(e, id, env.view.now, |e.issued|);
      var g := GridReady(e, file, o, env.view.now);
      assert Leaseless(g, id);
      var c := Choose(GridItems(e, file, o, env.view), e.cfg.maxRetries);
      if c.Scheduled? {
        GridChosen(e, file, o, env.view);
        RecordLeased(g, Request(Piece(file, c.index), c.provider.peer, Grid(o)), Lease(c.provider.peer, |g.issued|, env.view.now + o.leaseMs));
      }
    }
  }

  lemma LeaselessSurvivesAsk(e: Engine, id: RequestId, p: Piece, peer: PeerId, kind: Kind, env: Env)
    requires Leaseless(e, id) && kind.Grid?
    ensures Leaseless(AskAgain(e, p, peer, Some(kind), env), id)
  {
    hide RequestNextGrid, Unfail;
    FailPairs(e, p);
    LeaselessSurvivesGrid(Unfail(e, p), id, p.file, kind.options, env);
  }

  lemma PairedDeliver(e: Engine, peer: PeerId, h: Header, data: Bytes, env: Env)
    requires Paired(e) && Books(e) && (h.id in e.outstanding ==> e.outstanding[h.id].piece == h.piece && e.outstanding[h.id].peer == peer)
    ensures Paired(Deliver(e, peer, h, data, env)) <==> !LosesLease(e, h, data, env)
  {
    hide Paired, Books, Deliver;
    if LosesLease(e, h, data, env) {
      DeliverLoses(e, peer, h, data, env);
    } else {
      DeliverPairs(e, peer, h, data, env);
    }
  }

  /** What holds whichever way a complete piece is received under a grid request. */
  lemma ReceivedBooks(e: Engine, h: Header, data: Bytes, env: Env)
    requires Paired(e) && Books(e) && h.id in e.outstanding && e.outstanding[h.id].piece == h.piece
    ensures Has(e, h.piece) && DescriptorOf(e, h.piece).Some? && !IsDirect(e, h.id)
    ensures var next := ReceivePiece(e, h.piece, h.id, data, env).0; var r := e.outstanding[h.id];
      && Books(next) && (h.id in next.outstanding ==> !next.outstanding[h.id].kind.Direct?)
      && LifecycleError(next, Some(r)) == next && Fail(next, h.piece) == next.(managers := Fail(next, h.piece).managers)
      && Finalize(Fail(next, h.piece), h.id, Cancelled) == Fail(next, h.piece)
  {
    hide Paired, Books, ReceivePiece, Fail, LifecycleError, Finalize, Goes, Has, DescriptorOf;
    PairedNotDirect(e, h.id);
    EntryHasPiece(e, h.id);
    var next := ReceivePiece(e, h.piece, h.id, data, env).0;
    ReceivePieceGoes(e, h.piece, h.id, data, env);
    GoesKeepsBooks(e, next);
    ErrorNothing(next, Some(e.outstanding[h.id]));
    FailPairs(next, h.piece);
    BooksOutstanding(e);
    BooksOutstanding(next);
    GoesIssued(e, next);
    NoDirectHere(Fail(next, h.piece), h.id, Cancelled);
  }

  lemma DeliverPairs(e: Engine, peer: PeerId, h: Header, data: Bytes, env: Env)
    requires Paired(e) && Books(e) && (h.id in e.outstanding ==> e.outstanding[h.id].piece == h.piece && e.outstanding[h.id].peer == peer)
    requires !LosesLease(e, h, data, env)
    ensures Paired(Deliver(e, peer, h, data, env))
  {
    hide Paired, Books, ReceiveMatch, ReceiveMismatch, AskAgain, Fail, LifecycleError, Finalize, Checks, Has, DescriptorOf;
    if h.id in e.outstanding {
      var id, p, r := h.id, h.piece, e.outstanding[h.id];
      PairedNotDirect(e, id);
      var next := ReceivePiece(e, p, id, data, env).0;
      ReceivedBooks(e, h, data, env);
      PairedMismatch(e, p, id, env);
      PairedMatch(e, p, id, data, env);
      PairedFrame(next, Fail(next, p));
      PairedAskAgain(next, p, peer, r.kind, env);
    }
  }

  lemma DeliverLoses(e: Engine, peer: PeerId, h: Header, data: Bytes, env: Env)
    requires Paired(e) && Books(e) && (h.id in e.outstanding ==> e.outstanding[h.id].piece == h.piece && e.outstanding[h.id].peer == peer)
    requires LosesLease(e, h, data, env)
    ensures !Paired(Deliver(e, peer, h, data, env))
  {
    hide Paired, Books, ReceiveMatch, ReceiveMismatch, AskAgain, Fail, LifecycleError, Finalize, Checks, Has, DescriptorOf, Leaseless;
    var id, p, r := h.id, h.piece, e.outstanding[h.id];
    PairedNotDirect(e, id);
    var next := ReceivePiece(e, p, id, data, env).0;
    ReceivedBooks(e, h, data, env);
    PairedMismatch(e, p, id, env);
    PairedMatch(e, p, id, data, env);
    LostLease(e, next, p, id);
    LeaselessFrame(next, Fail(next, p), id);
    LeaselessBreaks(next, id);
    LeaselessBreaks(Fail(next, p), id);
    LeaselessSurvivesAsk(next, id, p, peer, r.kind, env);
    LeaselessBreaks(AskAgain(next, p, peer, Some(r.kind), env), id);
  }

  lemma LeaselessFrame(a: Engine, b: Engine, id: RequestId)
    requires Leaseless(a, id) && b.outstanding == a.outstanding && b.issued == a.issued && b.leases == a.leases
    ensures Leaseless(b, id)
  {
  }

  lemma LostLease(e: Engine, next: Engine, p: Piece, id: RequestId)
    requires id in e.outstanding && e.outstanding[id].piece == p && Books(next)
    requires next.outstanding == e.outstanding && next.leases == Release(e, p, id).leases
    ensures Leaseless(next, id)
  {
    BooksOutstanding(next);
  }

  lemma EntryHasPiece(e: Engine, id: RequestId)
    requires Books(e) && id in e.outstanding
    ensures Has(e, e.outstanding[id].piece) && DescriptorOf(e, e.outstanding[id].piece).Some?
  {
    assert Has(e, e.issued[id].request.piece);
  }

  // ----- steps and runs -----

  predicate GridAction(a: Action) {
    a.DoGrid? || a.DoExpireLeases? || a.DoHeader? || a.DoBinary? || a.DoAck? || a.DoCancelMessage? || a.DoReject? || a.DoMap?
  }

  /** The exact circumstances in which a handler parts a request from its lease, all of them on a
      binary frame: see `StaleRefusal` and `LosesLease`. */
  predicate Parts(e: Engine, a: Action, env: Env) {
    && a.DoBinary? && !e.disposed && a.peer in e.pending
    && var h := e.pending[a.peer];
       match AppendChunk(if h.id in e.incoming then Some(e.incoming[h.id]) else None, a.peer, h, a.frame)
       case Reject => StaleRefusal(e, h, env)
       case Incomplete(_) => false
       case Complete(data) => LosesLease(e, h, data, env)
  }

  lemma PairedHeader(e: Engine, peer: PeerId, h: Header, env: Env)
    requires Paired(e) && Books(e)
    ensures Paired(ReceiveHeader(e, peer, h, env))
  {
    hide Paired, Books, RejectChunk;
    if Active(e, peer, h) {
      EntryHasPiece(e, h.id);
      PairedReject(e, peer, h, env);
      PairedFrame(e, e.(pending := e.pending[peer := h]));
    }
  }

  lemma WaitingHeader(e: Engine, peer: PeerId)
    requires Books(e) && peer in e.pending
    ensures var h := e.pending[peer];
      Has(e, h.piece) && (h.id in e.outstanding ==> e.outstanding[h.id].piece == h.piece && e.outstanding[h.id].peer == peer)
  {
    assert Announces(e, peer, e.pending[peer]);
    assert Has(e, e.issued[e.pending[peer].id].request.piece);
  }

  lemma PairedBinary(e: Engine, peer: PeerId, frame: Bytes, env: Env)
    requires Paired(e) && Books(e) && !e.disposed
    ensures Paired(ReceiveBinary(e, peer, frame, env)) <==> !Parts(e, DoBinary(peer, frame), env)
  {
    hide Paired, Books, RejectChunk, Deliver, AppendChunk, Keeps, Arrivals, Checks, Has;
    if peer in e.pending {
      var h := e.pending[peer];
      WaitingHeader(e, peer);
      assert Arrivals(e) by { BooksArrivals(e); }
      FrameTaken(e, peer, frame);
      var e1 := e.(pending := e.pending - {peer});
      var e2 := e1.(incoming := e1.incoming - {h.id});
      PairedFrame(e, e1);
      PairedFrame(e, e2);
      PendingKeeps(e, e1);
      PendingKeeps(e, e2);
      assert Has(e1, h.piece) by { HasSame(e, e1, h.piece); }
      PairedReject(e1, peer, h, env);
      match AppendChunk(if h.id in e.incoming then Some(e.incoming[h.id]) else None, peer, h, frame)
      case Reject => assert StaleRefusal(e1, h, env) <==> StaleRefusal(e, h, env) by { HasSame(e, e1, h.piece); }
      case Incomplete(a) => PairedFrame(e, e1.(incoming := e1.incoming[h.id := a]));
      case Complete(data) => PairedDeliver(e2, peer, h, data, env);
    }
  }

  lemma HasSame(a: Engine, b: Engine, p: Piece)
    requires b.managers == a.managers
    ensures Has(b, p) <==> Has(a, p)
    ensures Has(a, p) ==> StateOf(b, p) == StateOf(a, p)
  {
  }

  lemma PairedAck(e: Engine, peer: PeerId, id: RequestId, p: Piece)
    requires Paired(e)
    ensures Paired(ReceiveAck(e, peer, id, p))
  {
    PairedNotDirect(e, id);
    hide Paired, FinalizeOrDrop;
    if id in e.outstanding {
      NoDirectHere(Release(e, p, id), id, Acknowledged);
      if e.outstanding[id].piece == p {
        PairedDrop(e, p, id);
      }
    }
  }

  lemma PairedRejectMessage(e: Engine, peer: PeerId, id: RequestId, env: Env)
    requires Paired(e) && Books(e)
    ensures Paired(ReceiveReject(e, peer, id, env))
  {
    PairedNotDirect(e, id);
    hide Paired, Books, FinalizeOrDrop, Fail, AskAgain, Goes;
    if id in e.outstanding && e.outstanding[id].peer == peer {
      var r := e.outstanding[id];
      var released := Release(e, r.piece, id);
      var failed := Fail(released, r.piece);
      FailPairs(released, r.piece);
      NoDirectHere(failed, id, ProviderReject);
      var next := FinalizeOrDrop(failed, id, ProviderReject);
      PairedDrop(e, r.piece, id);
      PairedFrame(Release(e, r.piece, id).(outstanding := e.outstanding - {id}), next);
      RejectNextGoes(e, r.piece, id);
      GoesKeepsBooks(e, next);
      PairedAskAgain(next, r.piece, r.peer, r.kind, env);
    }
  }

  lemma RejectNextGoes(e: Engine, p: Piece, id: RequestId)
    ensures Goes(e, FinalizeOrDrop(Fail(Release(e, p, id), p), id, ProviderReject))
  {
    hide Goes, Trims, Fail, FinalizeOrDrop;
    var r := Release(e, p, id);
    ReleaseTrims(e, p, id);
    TrimsGoes(e, r);
    FailGoes(r, p);
    GoesTrans(e, r, Fail(r, p));
    FinalizeTrims(Fail(r, p), id, ProviderReject);
    TrimsGoes(Fail(r, p), FinalizeOrDrop(Fail(r, p), id, ProviderReject));
    GoesTrans(e, Fail(r, p), FinalizeOrDrop(Fail(r, p), id, ProviderReject));
  }

  /** A grid handler keeps leases and requests in bijection except, exactly, where `Parts` says. */
  lemma PairedStep(e: Engine, a: Action, env: Env)
    requires Paired(e) && Books(e) && GridAction(a)
    ensures Paired(Step(e, a, env)) <==> !Parts(e, a, env)
  {
    hide Paired, Books, RequestNextGrid, ExpireLeasesFirst, ReceiveHeader, ReceiveBinary, ReceiveAck, ReceiveReject, Update;
    match a
    case DoGrid(file, o, total) => PairedNextGrid(e, file, o, env);
    case DoExpireLeases => PairedExpireLeases(e, env.view.now, |e.issued|);
    case DoHeader(peer, h) => PairedHeader(e, peer, h, env);
    case DoBinary(peer, frame) => if !e.disposed { PairedBinary(e, peer, frame, env); }
    case DoAck(peer, id, p) => PairedAck(e, peer, id, p);
    case DoCancelMessage(id) => PairedFrame(e, ReceiveCancel(e, id));
    case DoReject(peer, id) => PairedRejectMessage(e, peer, id, env);
    case DoMap(peer, role, m) => PairedFrame(e, ReceiveMap(e, peer, role, m));
    case _ =>
  }

  /** A grid-only run in which no handler meets the circumstances of `Parts`. */
  ghost predicate KeepsLeases(e: Engine, run: seq<Event>) {
    forall k :: 0 <= k < |run| ==> GridAction(run[k].action) && !Parts(Run(e, run[..k]), run[k].action, run[k].env)
  }

  lemma PrefixOfPrefix(run: seq<Event>, n: nat, k: nat)
    requires k <= n <= |run|
    ensures run[..n][..k] == run[..k]
  {
  }

  /** Over any such run, leases and outstanding requests stay in bijection. */
  lemma {:induction false} LeasesMirrorRequests(e: Engine, run: seq<Event>)
    requires Start(e) && KeepsLeases(e, run)
    ensures Paired(Run(e, run)) && Books(Run(e, run))
  {
    hide Paired, Books, Step, Parts, Keeps;
    RunKeeps(e, run);
    if run == [] {
      StartPaired(e);
    } else {
      var n := |run| - 1;
      KeepsPrefix(e, run, n);
      LeasesMirrorRequests(e, run[..n]);
      PairedStep(Run(e, run[..n]), run[n].action, run[n].env);
    }
  }

  /** Over a whole grid-only run: the bijection holds at every point if and only if no handler meets
      the circumstances of `Parts`. */
  lemma LeasesExactly(e: Engine, run: seq<Event>)
    requires Start(e) && forall k :: 0 <= k < |run| ==> GridAction(run[k].action)
    ensures (forall n: nat :: n <= |run| ==> Paired(Run(e, run[..n]))) <==> KeepsLeases(e, run)
  {
    hide Paired, Books, Step, Parts, Keeps;
    forall n: nat | n <= |run| && KeepsLeases(e, run)
      ensures Paired(Run(e, run[..n]))
    {
      KeepsPrefix(e, run, n);
      LeasesMirrorRequests(e, run[..n]);
    }
    if forall n: nat :: n <= |run| ==> Paired(Run(e, run[..n])) {
      forall k | 0 <= k < |run|
        ensures !Parts(Run(e, run[..k]), run[k].action, run[k].env)
      {
        RunKeeps(e, run[..k]);
        PairedStep(Run(e, run[..k]), run[k].action, run[k].env);
        RunOneMore(e, run, k);
        assert Paired(Run(e, run[..k])) && Paired(Run(e, run[..k + 1]));
      }
    }
  }

  lemma RunOneMore(e: Engine, run: seq<Event>, k: nat)
    requires k < |run|
    ensures Run(e, run[..k + 1]) == Step(Run(e, run[..k]), run[k].action, run[k].env)
  {
    hide Step;
    assert run[..k + 1][..k] == run[..k];
  }

  lemma KeepsPrefix(e: Engine, run: seq<Event>, n: nat)
    requires KeepsLeases(e, run) && n <= |run|
    ensures KeepsLeases(e, run[..n])
  {
    hide Run, Parts;
    forall k | 0 <= k < n
      ensures GridAction(run[..n][k].action) && !Parts(Run(e, run[..n][..k]), run[..n][k].action, run[..n][k].env)
    {
      PrefixOfPrefix(run, n, k);
    }
  }

  lemma StartPaired(e: Engine)
    requires Start(e)
    ensures Paired(e)
  {
  }
}
