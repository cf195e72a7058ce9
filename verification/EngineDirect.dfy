/** Runs that make direct requests only: every request ends exactly once. */
module EngineDirect {
  import opened Common
  import opened Pieces
  import opened ChunkAssembly
  import opened Availability
  import opened GridChoice
  import opened Engine
  import opened EngineSteps
  import opened EngineRuns

  predicate Ended(ts: seq<Terminal>, id: RequestId) {
    exists k :: 0 <= k < |ts| && ts[k].id == id
  }

  /** Only direct requests were made, and a timer runs for each outstanding one. */
  ghost predicate Timed(e: Engine) {
    && (forall k :: 0 <= k < |e.issued| ==> e.issued[k].request.kind.Direct?)
    && (forall id :: id in e.outstanding ==> e.outstanding[id].kind.Direct?)
    && e.timers == e.outstanding.Keys
  }

  /** The issued ids are the disjoint union of the outstanding and the ended ones, and none ended twice. */
  ghost predicate Accounted(e: Engine) {
    && (forall id: RequestId :: id < |e.issued| ==> (id in e.outstanding <==> !Ended(e.terminals, id)))
    && (forall k :: 0 <= k < |e.terminals| ==> e.terminals[k].id < |e.issued|)
    && (forall j, k :: 0 <= j < k < |e.terminals| ==> e.terminals[j].id != e.terminals[k].id)
  }

  /** Waiting headers and half-arrived pieces belong to outstanding requests. */
  ghost predicate Held(e: Engine) {
    && (forall q :: q in e.pending ==> e.pending[q].id in e.outstanding)
    && (forall id :: id in e.incoming ==> id in e.outstanding)
  }

  /** No two outstanding requests are for the same piece. */
  ghost predicate Exclusive(e: Engine) {
    forall i, j :: i in e.outstanding && j in e.outstanding && e.outstanding[i].piece == e.outstanding[j].piece ==> i == j
  }

  /** The piece of an outstanding request is marked requested, except within the handler ending it. */
  ghost predicate Marked(e: Engine, ending: set<RequestId>) {
    forall id :: id in e.outstanding && id !in ending ==>
      Has(e, e.outstanding[id].piece) && StateOf(e, e.outstanding[id].piece).status.Requested?
  }

  ghost predicate Once(e: Engine, ending: set<RequestId>) {
    Timed(e) && Accounted(e) && Held(e) && Exclusive(e) && Marked(e, ending)
  }

  // ----- primitive changes -----

  /** Nothing that the predicate looks at changed. */
  lemma OnceFrame(a: Engine, b: Engine, ending: set<RequestId>)
    requires Once(a, ending)
    requires b.outstanding == a.outstanding && b.timers == a.timers && b.issued == a.issued && b.terminals == a.terminals
    requires b.pending == a.pending && b.incoming == a.incoming && b.managers == a.managers
    ensures Once(b, ending)
  {
  }

  lemma OnceDrops(e: Engine, q: PeerId, id: RequestId, ending: set<RequestId>)
    requires Once(e, ending)
    ensures Once(e.(pending := e.pending - {q}), ending) && Once(e.(incoming := e.incoming - {id}), ending)
  {
  }

  /** Any change to the state of a piece nobody else is waiting for. */
  lemma OnceSetState(e: Engine, p: Piece, s: PieceState, ending: set<RequestId>)
    requires Once(e, ending) && Has(e, p)
    requires s.status.Requested? || forall id :: id in e.outstanding && e.outstanding[id].piece == p ==> id in ending
    ensures Once(SetState(e, p, s), ending)
  {
  }

  lemma OnceFail(e: Engine, p: Piece, ending: set<RequestId>)
    requires Once(e, ending)
    requires forall id :: id in e.outstanding && e.outstanding[id].piece == p ==> id in ending
    ensures Once(Fail(e, p), ending)
  {
    hide Once;
    if Has(e, p) {
      OnceSetState(e, p, MarkFailed(StateOf(e, p)), ending);
    }
  }

  lemma OnceUnfail(e: Engine, p: Piece)
    requires Once(e, {})
    ensures Once(Unfail(e, p), {})
  {
    if Has(e, p) && StateOf(e, p).status.Failed? {
      OnceSetState(e, p, ResetFailedToMissing(StateOf(e, p)), {});
    }
  }

  lemma EndedSnoc(ts: seq<Terminal>, t: Terminal, id: RequestId)
    ensures Ended(ts + [t], id) <==> Ended(ts, id) || t.id == id
  {
    var s := ts + [t];
    if Ended(ts, id) {
      var k :| 0 <= k < |ts| && ts[k].id == id;
      assert s[k].id == id;
    }
    if t.id == id {
      assert s[|ts|].id == id;
    }
  }

  lemma OnceClose(e: Engine, id: RequestId, reason: TerminalReason, ending: set<RequestId>)
    requires Once(e, ending) && ending <= {id} && IsDirect(e, id) && id < |e.issued|
    ensures Once(Close(e, id, reason), {})
  {
    var c := Close(e, id, reason);
    forall i: RequestId | i < |e.issued|
      ensures i in c.outstanding <==> !Ended(c.terminals, i)
    {
      EndedSnoc(e.terminals, c.terminals[|e.terminals|], i);
    }
    assert forall k :: 0 <= k < |e.terminals| ==> e.terminals[k].id != id;
  }

  /** Ending a request settles its account, whatever was still to be done for it. */
  lemma OnceFinalize(e: Engine, id: RequestId, reason: TerminalReason, ending: set<RequestId>)
    requires Once(e, ending) && ending <= {id} && Ledger(e)
    requires id in ending ==> id in e.outstanding
    ensures Once(Finalize(e, id, reason), {})
    ensures id !in Finalize(e, id, reason).outstanding
  {
    hide Once, Close, Enqueue;
    if IsDirect(e, id) {
      var c, f := Close(e, id, reason), Finalize(e, id, reason);
      OnceClose(e, id, reason, ending);
      EnqueueFrame(c, e.outstanding[id].kind.info.window, Retry(id, e.outstanding[id]));
      OnceFrame(c, f, {});
      assert id !in c.outstanding by { CloseRemoves(e, id, reason); }
    } else {
      assert id !in e.outstanding by { TimedMeansDirect(e, ending); }
      OnceNarrower(e, ending);
    }
  }

  lemma OnceNarrower(e: Engine, ending: set<RequestId>)
    requires Once(e, ending) && forall id :: id in ending ==> id !in e.outstanding
    ensures Once(e, {})
  {
  }

  lemma CloseRemoves(e: Engine, id: RequestId, reason: TerminalReason)
    requires IsDirect(e, id)
    ensures Close(e, id, reason).outstanding == e.outstanding - {id}
  {
  }

  lemma EnqueueFrame(e: Engine, key: WindowKey, task: Task)
    ensures var b := Enqueue(e, key, task); b == e.(windows := b.windows)
  {
  }

  lemma TimedMeansDirect(e: Engine, ending: set<RequestId>)
    requires Once(e, ending)
    ensures forall id :: id in e.outstanding ==> e.outstanding[id].kind.Direct?
  {
  }

  lemma FinalizeIsFinal(e: Engine, id: RequestId, reason: TerminalReason, ending: set<RequestId>)
    requires Once(e, ending) && id in e.outstanding
    ensures FinalizeOrDrop(e, id, reason) == Finalize(e, id, reason)
  {
  }

  /** Failing the piece of a request and ending the request. */
  lemma OnceFailAndFinalize(e: Engine, id: RequestId, p: Piece, reason: TerminalReason, ending: set<RequestId>)
    requires Once(e, ending) && ending <= {id} && Ledger(e)
    requires id in ending ==> id in e.outstanding
    requires forall i :: i in e.outstanding && e.outstanding[i].piece == p ==> i == id
    ensures Once(FailAndFinalize(e, id, p, reason), {})
  {
    hide Once, Finalize, Ledger, Fail;
    assert Fail(e, p).outstanding == e.outstanding && Ledger(Fail(e, p)) by { FailFrame(e, p); }
    if id in e.outstanding {
      OnceWider(e, ending, {id});
      OnceFail(e, p, {id});
      OnceFinalize(Fail(e, p), id, reason, {id});
    } else {
      OnceNarrower(e, ending);
      OnceFail(e, p, {});
      OnceFinalize(Fail(e, p), id, reason, {});
    }
  }

  lemma FailFrame(e: Engine, p: Piece)
    ensures Fail(e, p) == e.(managers := Fail(e, p).managers)
    ensures Ledger(e) ==> Ledger(Fail(e, p))
  {
  }

  lemma OnceWider(e: Engine, a: set<RequestId>, b: set<RequestId>)
    requires Once(e, a) && a <= b
    ensures Once(e, b)
  {
  }

  lemma PieceIsOurs(e: Engine, id: RequestId, ending: set<RequestId>)
    requires Once(e, ending) && id in e.outstanding
    ensures forall i :: i in e.outstanding && e.outstanding[i].piece == e.outstanding[id].piece ==> i == id
  {
  }

  lemma ErrorFrame(e: Engine, r: Option<Request>)
    ensures var b := LifecycleError(e, r); b == e.(windows := b.windows)
  {
  }

  // ----- issuing -----

  lemma RecordAccounted(e: Engine, r: Request, parent: Option<RequestId>)
    requires Accounted(e) && Ledger(e) && Has(e, r.piece)
    ensures Accounted(Record(e, r, parent))
  {
    hide SameShape;
    assert !Ended(e.terminals, |e.issued|);
  }

  lemma RecordMarked(e: Engine, r: Request, parent: Option<RequestId>)
    requires Marked(e, {}) && Exclusive(e) && Has(e, r.piece) && Wanted(StateOf(e, r.piece))
    ensures Marked(Record(e, r, parent), {}) && Exclusive(Record(e, r, parent))
  {
    var b := Record(e, r, parent);
    assert forall p :: Has(e, p) ==> StateOf(b, p) == if p == r.piece then MarkRequested(StateOf(e, p), r.peer) else StateOf(e, p);
    assert forall i :: i in e.outstanding ==> e.outstanding[i].piece != r.piece;
  }

  lemma RecordLedger(e: Engine, r: Request, parent: Option<RequestId>)
    requires Ledger(e) && Has(e, r.piece)
    ensures Ledger(Record(e, r, parent))
  {
    assert forall p :: Has(e, p) ==> Has(Record(e, r, parent), p);
  }

  /** A direct request for a piece reported missing: nobody is waiting for that piece. */
  lemma OnceRecord(e: Engine, r: Request, parent: Option<RequestId>)
    requires Once(e, {}) && Ledger(e) && Has(e, r.piece) && Wanted(StateOf(e, r.piece)) && r.kind.Direct?
    ensures Once(Record(e, r, parent), {}) && Ledger(Record(e, r, parent))
  {
    hide Accounted, Marked, Exclusive, Ledger, Has, Wanted;
    RecordAccounted(e, r, parent);
    RecordMarked(e, r, parent);
    RecordLedger(e, r, parent);
  }

  lemma OnceBegin(e: Engine, peer: PeerId, file: FileId, o: DirectOptions, parent: Option<RequestId>, env: Env)
    requires Once(e, {}) && Ledger(e) && Begin(e, peer, file, Some(o), parent, env).Some?
    ensures var b := Begin(e, peer, file, Some(o), parent, env).value;
      Once(b, {}) && Ledger(b) && |b.issued| == |e.issued| + 1 && |e.issued| in b.outstanding
      && b.issued[|e.issued|].request == b.outstanding[|e.issued|]
  {
    hide Once, Ledger, SameShape;
    var w := WithWindow(e, peer, file, Some(o));
    OnceFrame(e, w, {});
    LedgerFrame(e, w);
    var piece := Piece(file, NextPiece(e.managers[file], e.cfg.maxRetries).value);
    OnceRecord(w, Request(piece, peer, MakeKind(w, Some(o), env.view.now)), parent);
  }

  lemma LedgerFrame(a: Engine, b: Engine)
    requires Ledger(a) && b.outstanding == a.outstanding && b.issued == a.issued && b.managers == a.managers
    ensures Ledger(b)
  {
  }

  lemma OnceRequestNext(e: Engine, peer: PeerId, file: FileId, o: DirectOptions, parent: Option<RequestId>, env: Env)
    requires Once(e, {}) && Ledger(e)
    ensures Once(RequestNext(e, peer, file, Some(o), parent, env).0, {})
    ensures Ledger(RequestNext(e, peer, file, Some(o), parent, env).0)
  {
    hide Once, Ledger, Begin, FailAndFinalize, LifecycleError;
    var begun := Begin(e, peer, file, Some(o), parent, env);
    assert Ledger(RequestNext(e, peer, file, Some(o), parent, env).0) by {
      RequestNextGoes(e, peer, file, Some(o), parent, env);
      EvolvesKeepsLedger(e, RequestNext(e, peer, file, Some(o), parent, env).0);
    }
    if begun.Some? {
      OnceBegin(e, peer, file, o, parent, env);
      var id, b := |e.issued|, begun.value;
      PieceIsOurs(b, id, {});
      OnceFailAndFinalize(b, id, b.issued[id].request.piece, SendFailed, {});
      var l := LifecycleError(b, Some(b.outstanding[id]));
      ErrorFrame(b, Some(b.outstanding[id]));
      OnceFrame(b, l, {});
      LedgerFrame(b, l);
      OnceFailAndFinalize(l, id, b.issued[id].request.piece, Cancelled, {});
    }
  }

  lemma EvolvesKeepsLedger(a: Engine, b: Engine)
    requires Goes(a, b) && Ledger(a)
    ensures Ledger(b)
  {
    hide Frugal, Integral, Settled;
    EvolvesLedger(a, b);
  }

  lemma {:induction false} OnceFill(e: Engine, peer: PeerId, file: FileId, o: DirectOptions, cap: nat, env: Env)
    requires Once(e, {}) && Ledger(e)
    ensures Once(FillLoop(e, peer, file, o, cap, env), {})
    decreases Unrequested(e, file)
  {
    hide Once, Ledger, RequestNext;
    if |InWindow(e, o.window)| < cap {
      var (next, scheduled) := RequestNext(e, peer, file, Some(o), None, env);
      OnceRequestNext(e, peer, file, o, None, env);
      if scheduled {
        RequestUsesUpOne(e, peer, file, Some(o), None, env);
        OnceFill(next, peer, file, o, cap, env);
      }
    }
  }

  lemma OnceRetry(e: Engine, id: RequestId, r: Request, env: Env)
    requires Once(e, {}) && Ledger(e) && r.kind.Direct?
    ensures Once(RunRetry(e, id, r, env), {})
  {
    hide Once, Ledger, RequestNext;
    var info := r.kind.info;
    OnceUnfail(e, r.piece);
    assert Ledger(Unfail(e, r.piece)) by { FailGoes(e, r.piece); EvolvesKeepsLedger(e, Unfail(e, r.piece)); }
    OnceRequestNext(Unfail(e, r.piece), r.peer, r.piece.file,
                    DirectOptions(info.window, info.controller, info.timeoutMs, info.retryCount + 1), Some(id), env);
  }

  lemma OnceExpireDirect(e: Engine, id: RequestId)
    requires Once(e, {}) && Ledger(e)
    ensures Once(ExpireDirect(e, id), {})
  {
    hide Once, Ledger, FailAndFinalize;
    if IsDirect(e, id) {
      PieceIsOurs(e, id, {});
      OnceFailAndFinalize(e, id, e.outstanding[id].piece, RequestTimeout, {});
    }
  }

  lemma OnceTask(e: Engine, key: WindowKey, env: Env)
    requires Once(e, {}) && Ledger(e)
    ensures Once(RunTask(e, key, env), {})
  {
    hide Once, Ledger, FillLoop, RunRetry, ExpireDirect;
    if key in e.windows && e.windows[key].queue != [] {
      var w, p := e.windows[key], PopTask(e, key);
      OnceFrame(e, p, {});
      LedgerFrame(e, p);
      if !w.disabled && !e.disposed {
        match w.queue[0]
        case Fill(o) => OnceFill(p, w.peer, w.file, o, w.cap, env);
        case Retry(id, r) => if r.kind.Direct? { OnceRetry(p, id, r, env); }
        case Expire(id) => OnceExpireDirect(p, id);
      }
    }
  }

  lemma {:induction false} OnceExpireFirst(e: Engine, now: int, n: nat)
    requires Once(e, {}) && Ledger(e)
    ensures Once(ExpireFirst(e, now, n), {}) && Ledger(ExpireFirst(e, now, n))
  {
    hide Once, Ledger, ExpireDirect;
    if n > 0 {
      var b := ExpireFirst(e, now, n - 1);
      OnceExpireFirst(e, now, n - 1);
      OnceExpireDirect(b, n - 1);
      ExpireFirstGoes(e, now, n);
      EvolvesKeepsLedger(e, ExpireFirst(e, now, n));
    }
  }

  // ----- cancelling -----

  lemma OnceCancelOne(e: Engine, s: Selector, id: RequestId)
    requires Once(e, {}) && Ledger(e)
    ensures Once(CancelOne(e, s, id), {}) && Ledger(CancelOne(e, s, id))
  {
    hide Once, Ledger, Finalize;
    if id in e.outstanding && SelectsRequest(s, e.outstanding[id]) {
      var t := e.(tombstones := e.tombstones + {id});
      OnceFrame(e, t, {});
      LedgerFrame(e, t);
      OnceFinalize(t, id, Cancelled, {});
      FinalizeTrims(t, id, Cancelled);
      TrimsGoes(t, Finalize(t, id, Cancelled));
      EvolvesKeepsLedger(t, Finalize(t, id, Cancelled));
    }
  }

  lemma {:induction false} OnceCancelRequests(e: Engine, s: Selector, n: nat)
    requires Once(e, {}) && Ledger(e)
    ensures Once(CancelRequests(e, s, n), {}) && Ledger(CancelRequests(e, s, n))
  {
    hide Once, Ledger, CancelOne;
    if n > 0 {
      OnceCancelRequests(e, s, n - 1);
      OnceCancelOne(CancelRequests(e, s, n - 1), s, n - 1);
    }
  }

  lemma OnceCancelDirect(e: Engine, s: Selector)
    requires Once(e, {}) && Ledger(e)
    ensures Once(CancelDirect(e, s), {})
  {
    hide Once, Ledger, CancelRequests;
    var d := DisableWindows(e, s, |e.windowOrder|);
    OnceFrame(e, d, {});
    LedgerFrame(e, d);
    OnceCancelRequests(d, s, |e.issued|);
  }

  /** No request the selector admits survives a cancellation, and nothing else is touched. */
  lemma {:induction false} CancelRemoves(e: Engine, s: Selector, n: nat)
    ensures forall id :: id in CancelRequests(e, s, n).outstanding <==>
      id in e.outstanding && !(id < n && SelectsRequest(s, e.outstanding[id]))
    ensures forall id :: id in CancelRequests(e, s, n).outstanding ==>
      CancelRequests(e, s, n).outstanding[id] == e.outstanding[id]
  {
    if n > 0 {
      hide CancelOne, SelectsRequest;
      CancelRemoves(e, s, n - 1);
      CancelOneRemoves(CancelRequests(e, s, n - 1), s, n - 1);
    }
  }

  lemma CancelOneRemoves(e: Engine, s: Selector, id: RequestId)
    ensures CancelOne(e, s, id).outstanding ==
      if id in e.outstanding && SelectsRequest(s, e.outstanding[id]) then e.outstanding - {id} else e.outstanding
  {
    hide Close, Enqueue;
    if id in e.outstanding && SelectsRequest(s, e.outstanding[id]) {
      var t := e.(tombstones := e.tombstones + {id});
      CloseRemoves(t, id, Cancelled);
      EnqueueFrame(Close(t, id, Cancelled), e.outstanding[id].kind.info.window, Retry(id, e.outstanding[id]));
    }
  }

  /** Cancelling with a selector ends exactly the requests it admits; cancelling everything leaves
      no outstanding request and no timer. */
  lemma CancelEndsSelected(e: Engine, s: Selector)
    requires Once(e, {}) && Ledger(e)
    ensures forall id :: id in CancelDirect(e, s).outstanding <==> id in e.outstanding && !SelectsRequest(s, e.outstanding[id])
    ensures s == Everything ==> CancelDirect(e, s).outstanding == map[] && CancelDirect(e, s).timers == {}
  {
    var d := DisableWindows(e, s, |e.windowOrder|);
    CancelRemoves(d, s, |e.issued|);
    OnceCancelDirect(e, s);
    if s == Everything {
      assert forall id :: id in e.outstanding ==> SelectsRequest(s, e.outstanding[id]);
      assert CancelDirect(e, s).outstanding.Keys == {};
    }
  }

  lemma OnceDispose(e: Engine)
    requires Once(e, {}) && Ledger(e)
    ensures Once(Dispose(e), {})
  {
    if !e.disposed {
      hide CancelDirect;
      var c := CancelDirect(e, Everything);
      OnceCancelDirect(e, Everything);
      CancelEndsSelected(e, Everything);
      OnceFrame(c, Dispose(e), {});
    }
  }

  // ----- messages -----

  lemma LedgerDirect(e: Engine, id: RequestId, ending: set<RequestId>)
    requires Once(e, ending) && Ledger(e) && id in e.outstanding
    ensures IsDirect(e, id)
  {
  }

  lemma OnceReject(e: Engine, peer: PeerId, h: Header, env: Env)
    requires Once(e, {}) && Ledger(e) && h.id in e.outstanding && e.outstanding[h.id].piece == h.piece
    ensures Once(RejectChunk(e, peer, h, env), {})
  {
    hide Once, Ledger, Fail, Finalize;
    var r := Release(e.(incoming := e.incoming - {h.id}), h.piece, h.id);
    OnceDrops(e, peer, h.id, {});
    OnceFrame(e.(incoming := e.incoming - {h.id}), r, {});
    LedgerFrame(e, r);
    LedgerDirect(e, h.id, {});
    PieceIsOurs(r, h.id, {});
    OnceFailAndFinalize(r, h.id, h.piece, InvalidChunk, {});
    assert IsDirect(Fail(r, h.piece), h.id) by { FailFrame(r, h.piece); }
  }

  lemma OnceHeader(e: Engine, peer: PeerId, h: Header, env: Env)
    requires Once(e, {}) && Ledger(e)
    ensures Once(ReceiveHeader(e, peer, h, env), {})
  {
    hide Once, Ledger, RejectChunk;
    if Active(e, peer, h) {
      OnceReject(e, peer, h, env);
      OncePending(e, peer, h);
    }
  }

  lemma OncePending(e: Engine, peer: PeerId, h: Header)
    requires Once(e, {}) && h.id in e.outstanding
    ensures Once(e.(pending := e.pending[peer := h]), {})
  {
  }

  lemma OnceIncoming(e: Engine, id: RequestId, a: Assembly)
    requires Once(e, {}) && id in e.outstanding
    ensures Once(e.(incoming := e.incoming[id := a]), {})
  {
  }

  lemma HeldPending(e: Engine, peer: PeerId)
    requires Once(e, {}) && Books(e) && peer in e.pending
    ensures var h := e.pending[peer];
      h.id in e.outstanding && e.outstanding[h.id].piece == h.piece && e.outstanding[h.id].peer == peer
  {
    assert Announces(e, peer, e.pending[peer]);
  }

  /** The outcome of a mismatch: ended, unless the handler is about to end it. */
  lemma OnceMismatch(e: Engine, p: Piece, id: RequestId, env: Env)
    requires Once(e, {}) && Ledger(e) && id in e.outstanding && e.outstanding[id].piece == p
    ensures var (b, result) := ReceiveMismatch(e, p, id, env);
      && Ledger(b) && (result.Threw? || result.Mismatch?)
      && if result.Threw? then Once(b, {id}) && b.outstanding == e.outstanding else Once(b, {}) && id !in b.outstanding
  {
    hide Once, Ledger, Fail, Finalize, LifecycleError, Goes;
    var released := Release(e, p, id);
    OnceFrame(e, released, {});
    LedgerFrame(e, released);
    PieceIsOurs(released, id, {});
    OnceWider(released, {}, {id});
    OnceFail(released, p, {id});
    var failed := Fail(released, p);
    FailFrame(released, p);
    if env.deleteOk {
      var deleted := failed.(storage := failed.storage - {p});
      OnceFrame(failed, deleted, {id});
      LedgerFrame(failed, deleted);
      var l := LifecycleError(deleted, RequestOf(e, id));
      ErrorFrame(deleted, RequestOf(e, id));
      OnceFrame(deleted, l, {id});
      LedgerFrame(deleted, l);
      OnceFinalize(l, id, Cancelled, {id});
      FinalizeIsFinal(deleted, id, HashMismatch, {id});
      OnceFinalize(deleted, id, HashMismatch, {id});
      var f := Finalize(l, id, Cancelled);
      assert f.outstanding - {id} == f.outstanding;
      OnceFrame(f, f.(outstanding := f.outstanding - {id}), {});
    }
    MismatchGoes(e, p, id, env);
    EvolvesKeepsLedger(e, ReceiveMismatch(e, p, id, env).0);
  }

  lemma NobodyCompetes(e: Engine, p: Piece, id: RequestId)
    requires forall i :: i in e.outstanding ==> e.outstanding[i].piece != p
    ensures var c := CancelCompeting(e, p, id);
      c.outstanding == e.outstanding && c.incoming == e.incoming && c.pending == e.pending
  {
  }

  lemma FinalizeLeavesOthers(e: Engine, id: RequestId, reason: TerminalReason)
    ensures forall i :: i in Finalize(e, id, reason).outstanding ==>
      i in e.outstanding && Finalize(e, id, reason).outstanding[i] == e.outstanding[i]
  {
    hide Trims;
    FinalizeTrims(e, id, reason);
    TrimsOutstanding(e, Finalize(e, id, reason));
  }

  lemma TrimsOutstanding(a: Engine, b: Engine)
    requires Trims(a, b)
    ensures forall id :: id in b.outstanding ==> id in a.outstanding && a.outstanding[id] == b.outstanding[id]
  {
  }

  lemma OnceMatch(e: Engine, p: Piece, id: RequestId, data: Bytes, env: Env)
    requires Once(e, {}) && Ledger(e) && id in e.outstanding && e.outstanding[id].piece == p && Has(e, p)
    ensures var (b, result) := ReceiveMatch(e, p, id, data, env);
      Once(b, {}) && forall i :: i in b.outstanding ==> b.outstanding[i].piece != p
  {
    hide Once, Ledger, FailAndFinalize, Finalize, LifecycleError, Has, CancelCompeting;
    PieceIsOurs(e, id, {});
    LedgerDirect(e, id, {});
    var failing := LifecycleError(e, RequestOf(e, id));
    ErrorFrame(e, RequestOf(e, id));
    OnceFrame(e, failing, {});
    LedgerFrame(e, failing);
    OnceFailAndFinalize(failing, id, p, Cancelled, {});
    EndedAlone(failing, id, p, Cancelled);
    if env.writeOk {
      OnceWider(e, {}, {id});
      var written := e.(storage := e.storage[p := data]);
      OnceFrame(e, written, {id});
      LedgerFrame(e, written);
      assert Has(written, p) by { HasFrame(e, written, p); }
      var stored := SetState(written, p, MarkVerified(StateOf(e, p)));
      OnceSetState(written, p, MarkVerified(StateOf(e, p)), {id});
      StateFrame(written, p, MarkVerified(StateOf(e, p)));
      var released := Release(stored, p, id);
      OnceFrame(stored, released, {id});
      LedgerFrame(stored, released);
      var l := LifecycleError(released, RequestOf(e, id));
      ErrorFrame(released, RequestOf(e, id));
      OnceFrame(released, l, {id});
      LedgerFrame(released, l);
      OnceFailAndFinalize(l, id, p, Cancelled, {id});
      EndedAlone(l, id, p, Cancelled);
      FinalizeIsFinal(released, id, VerifiedOk, {id});
      OnceFinalize(released, id, VerifiedOk, {id});
      FinalizeLeavesOthers(released, id, VerifiedOk);
      NobodyCompetes(Finalize(released, id, VerifiedOk), p, id);
      CompetingFrame(Finalize(released, id, VerifiedOk), p, id);
      OnceFrame(Finalize(released, id, VerifiedOk), CancelCompeting(Finalize(released, id, VerifiedOk), p, id), {});
    }
  }

  lemma HasFrame(a: Engine, b: Engine, p: Piece)
    requires Has(a, p) && b.managers == a.managers
    ensures Has(b, p) && StateOf(a, p) == StateOf(b, p)
  {
  }

  lemma StateFrame(e: Engine, p: Piece, s: PieceState)
    requires Has(e, p)
    ensures var b := SetState(e, p, s); b.outstanding == e.outstanding && (Ledger(e) ==> Ledger(b))
  {
  }

  lemma CompetingFrame(e: Engine, p: Piece, id: RequestId)
    ensures var c := CancelCompeting(e, p, id);
      c == e.(outstanding := c.outstanding, incoming := c.incoming, tombstones := c.tombstones, pending := c.pending)
  {
  }

  /** After its request failed and ended, nobody is waiting for the piece. */
  lemma EndedAlone(e: Engine, id: RequestId, p: Piece, reason: TerminalReason)
    requires Once(FailAndFinalize(e, id, p, reason), {}) && IsDirect(e, id)
    requires forall i :: i in e.outstanding && e.outstanding[i].piece == p ==> i == id
    ensures forall i :: i in FailAndFinalize(e, id, p, reason).outstanding ==> FailAndFinalize(e, id, p, reason).outstanding[i].piece != p
  {
    hide Once, Close, Enqueue;
    FailFrame(e, p);
    var f := Fail(e, p);
    CloseRemoves(f, id, reason);
    EnqueueFrame(Close(f, id, reason), f.outstanding[id].kind.info.window, Retry(id, f.outstanding[id]));
  }

  lemma OnceDeliver(e: Engine, peer: PeerId, h: Header, data: Bytes, env: Env)
    requires Once(e, {}) && Books(e) && h.id in e.outstanding
    ensures Once(Deliver(e, peer, h, data, env), {})
  {
    hide Once, Ledger, Arrivals, LeasesOfIssued, ReceiveMatch, ReceiveMismatch, FailAndFinalize, LifecycleError, AskAgain, Checks, Goes;
    var id, p := h.id, h.piece;
    var r := e.outstanding[id];
    LedgerDirect(e, id, {});
    if r.peer == peer && r.piece == p {
      assert Has(e, p) && DescriptorOf(e, p).Some? by { LedgerPieces(e, id); }
      var (next, result) := ReceivePiece(e, p, id, data, env);
      ReceivePieceGoes(e, p, id, data, env);
      EvolvesKeepsLedger(e, next);
      OnceMismatch(e, p, id, env);
      OnceMatch(e, p, id, data, env);
      PieceIsOurs(e, id, {});
      if result.Threw? {
        var l := LifecycleError(next, Some(r));
        ErrorFrame(next, Some(r));
        LedgerFrame(next, l);
        if Checks(e.cfg, data, DescriptorOf(e, p).value) {
          OnceFrame(next, l, {});
          OnceFailAndFinalize(l, id, p, Cancelled, {});
        } else {
          OnceFrame(next, l, {id});
          OnceFailAndFinalize(l, id, p, Cancelled, {id});
        }
      }
    }
  }

  lemma LedgerPieces(e: Engine, id: RequestId)
    requires Books(e) && id in e.outstanding
    ensures Has(e, e.outstanding[id].piece) && DescriptorOf(e, e.outstanding[id].piece).Some?
  {
    assert Has(e, e.issued[id].request.piece);
  }

  lemma OnceBinary(e: Engine, peer: PeerId, frame: Bytes, env: Env)
    requires Once(e, {}) && Books(e)
    ensures Once(ReceiveBinary(e, peer, frame, env), {})
  {
    hide Once, Books, RejectChunk, Deliver, AppendChunk, Keeps, Arrivals;
    if peer in e.pending {
      var h := e.pending[peer];
      HeldPending(e, peer);
      assert Arrivals(e) by { BooksArrivals(e); }
      FrameTaken(e, peer, frame);
      var e1 := e.(pending := e.pending - {peer});
      OnceDrops(e, peer, h.id, {});
      OnceDrops(e1, peer, h.id, {});
      PendingKeeps(e, e1);
      PendingKeeps(e, e1.(incoming := e1.incoming - {h.id}));
      assert Ledger(e1) by { BooksLedger(e1); }
      OnceReject(e1, peer, h, env);
      match AppendChunk(if h.id in e.incoming then Some(e.incoming[h.id]) else None, peer, h, frame)
      case Reject =>
      case Incomplete(a) => OnceIncoming(e1, h.id, a);
      case Complete(data) => OnceDeliver(e1.(incoming := e1.incoming - {h.id}), peer, h, data, env);
    }
  }

  lemma BooksLedger(e: Engine)
    requires Books(e)
    ensures Ledger(e)
  {
  }

  lemma OnceAck(e: Engine, peer: PeerId, id: RequestId, p: Piece)
    requires Once(e, {}) && Ledger(e)
    ensures Once(ReceiveAck(e, peer, id, p), {})
  {
    hide Once, Ledger, Finalize;
    var r := Release(e, p, id);
    OnceFrame(e, r, {});
    LedgerFrame(e, r);
    OnceFinalize(r, id, Acknowledged, {});
    if id in e.outstanding {
      FinalizeIsFinal(r, id, Acknowledged, {});
    }
  }

  lemma OnceRejectMessage(e: Engine, peer: PeerId, id: RequestId, env: Env)
    requires Once(e, {}) && Ledger(e)
    ensures Once(ReceiveReject(e, peer, id, env), {})
  {
    hide Once, Ledger, Finalize, Fail, AskAgain;
    if id in e.outstanding {
      var p := e.outstanding[id].piece;
      LedgerDirect(e, id, {});
      var r := Release(e, p, id);
      OnceFrame(e, r, {});
      LedgerFrame(e, r);
      PieceIsOurs(r, id, {});
      OnceFailAndFinalize(r, id, p, ProviderReject, {});
      assert IsDirect(Fail(r, p), id) by { FailFrame(r, p); }
    }
  }

  lemma NoLeases(e: Engine)
    requires Once(e, {}) && Books(e)
    ensures e.leases == map[]
  {
    assert forall p :: p in e.leases ==> LeaseOfIssued(e, p);
    assert e.leases.Keys == {};
  }

  lemma {:induction false} OnceExpireLeases(e: Engine, now: int, n: nat)
    requires n <= |e.issued| && e.leases == map[]
    ensures ExpireLeasesFirst(e, now, n) == e
  {
    if n > 0 {
      OnceExpireLeases(e, now, n - 1);
    }
  }

  /** One step of a run without grid requests. */
  lemma OnceStep(e: Engine, a: Action, env: Env)
    requires Once(e, {}) && Books(e) && !a.DoGrid?
    ensures Once(Step(e, a, env), {})
  {
    hide Once, Books, OpenWindow, RunTask, CancelDirect, Dispose, ReceiveHeader, ReceiveBinary, ReceiveAck, ReceiveReject, Update, Keeps;
    assert Ledger(e) by { BooksLedger(e); }
    NoLeases(e);
    match a
    case DoOpen(peer, file, o, cap) =>
      OpenFrame(e, peer, file, o.(retryCount := 0), cap);
      OnceFrame(e, OpenWindow(e, peer, file, o.(retryCount := 0), cap).0, {});
    case DoTask(key) => OnceTask(e, key, env);
    case DoTimer(id) => OnceFrame(e, FireTimer(e, id), {});
    case DoExpireAll => OnceExpireFirst(e, env.view.now, |e.issued|);
    case DoCancel(s) => OnceCancelDirect(e, s);
    case DoDispose => OnceDispose(e);
    case DoExpireLeases => OnceExpireLeases(e, env.view.now, |e.issued|);
    case DoHeader(peer, h) => OnceHeader(e, peer, h, env);
    case DoBinary(peer, frame) => OnceBinary(e, peer, frame, env);
    case DoAck(peer, id, p) => OnceAck(e, peer, id, p);
    case DoCancelMessage(id) => OnceFrame(e, ReceiveCancel(e, id), {});
    case DoReject(peer, id) => OnceRejectMessage(e, peer, id, env);
    case DoMap(peer, role, m) => OnceFrame(e, ReceiveMap(e, peer, role, m), {});
  }

  lemma OpenFrame(e: Engine, peer: PeerId, file: FileId, o: DirectOptions, cap: nat)
    ensures var b := OpenWindow(e, peer, file, o, cap).0;
      b == e.(windows := b.windows, windowOrder := b.windowOrder, nextGeneration := b.nextGeneration)
  {
    hide Enqueue;
    EnqueueFrame(e, o.window, Fill(o));
    EnqueueFrame(AddWindow(e, o.window, NewWindow(file, peer, o.controller, cap, e.nextGeneration)).(nextGeneration := e.nextGeneration + 1), o.window, Fill(o));
  }

  // ----- runs -----

  predicate DirectOnly(run: seq<Event>) {
    forall k :: 0 <= k < |run| ==> !run[k].action.DoGrid?
  }

  lemma StartOnce(e: Engine)
    requires Start(e)
    ensures Once(e, {})
  {
  }

  lemma {:induction false} RunOnce(e: Engine, run: seq<Event>)
    requires Start(e) && DirectOnly(run)
    ensures Once(Run(e, run), {}) && Books(Run(e, run))
  {
    hide Once, Books, Step, Keeps;
    RunKeeps(e, run);
    if run == [] {
      StartOnce(e);
    } else {
      var n := |run| - 1;
      RunOnce(e, run[..n]);
      OnceStep(Run(e, run[..n]), run[n].action, run[n].env);
    }
  }

  /** Over any run of direct requests: every issued id is outstanding or has ended, never both; none
      ended twice; a timer runs for exactly the outstanding ones; chunks are buffered and headers wait
      only for outstanding ones; and no piece is asked for by two outstanding requests. */
  lemma ExactlyOnce(e: Engine, run: seq<Event>)
    requires Start(e) && DirectOnly(run)
    ensures var f := Run(e, run);
      && (forall id: RequestId :: id < |f.issued| ==> (id in f.outstanding <==> !Ended(f.terminals, id)))
      && (forall j, k :: 0 <= j < k < |f.terminals| ==> f.terminals[j].id != f.terminals[k].id)
      && f.timers == f.outstanding.Keys
      && (forall id :: id in f.incoming ==> id in f.outstanding)
      && (forall q :: q in f.pending ==> f.pending[q].id in f.outstanding)
      && (forall i, j :: i in f.outstanding && j in f.outstanding && f.outstanding[i].piece == f.outstanding[j].piece ==> i == j)
  {
    RunOnce(e, run);
  }

  /** Cancelling everything at any moment of such a run ends every issued request: nothing is
      outstanding, no timer runs, and there is exactly one terminal event per request ever issued. */
  lemma CancelEverything(e: Engine, run: seq<Event>)
    requires Start(e) && DirectOnly(run)
    ensures var c := CancelDirect(Run(e, run), Everything);
      && c.outstanding == map[] && c.timers == {}
      && |c.terminals| == |c.issued| == |Run(e, run).issued|
  {
    var f := Run(e, run);
    var c := CancelDirect(f, Everything);
    RunOnce(e, run);
    BooksLedger(f);
    CancelEndsSelected(f, Everything);
    OnceCancelDirect(f, Everything);
    CancelDirectTrims(f, Everything);
    AllEnded(c);
  }

  function EndedIds(ts: seq<Terminal>): (ids: seq<RequestId>)
    ensures |ids| == |ts| && forall k :: 0 <= k < |ts| ==> ids[k] == ts[k].id
  {
    seq(|ts|, k requires 0 <= k < |ts| => ts[k].id)
  }

  lemma EndedIsListed(ts: seq<Terminal>, id: RequestId)
    requires Ended(ts, id)
    ensures id in Elements(EndedIds(ts))
  {
    var k :| 0 <= k < |ts| && ts[k].id == id;
    assert EndedIds(ts)[k] == id;
  }

  /** A list of distinct ids below `n` that misses none has length `n`. */
  lemma CompleteList(ids: seq<RequestId>, n: nat)
    requires Distinct(ids) && (forall k :: 0 <= k < |ids| ==> ids[k] < n)
    requires forall id: RequestId :: id < n ==> id in Elements(ids)
    ensures |ids| == n
  {
    DistinctCount(ids);
    Pigeonhole(ids, n);
    SubsetCount(Upto(n), Elements(ids));
  }

  lemma AllEnded(c: Engine)
    requires Accounted(c) && c.outstanding == map[]
    ensures |c.terminals| == |c.issued|
  {
    hide Ended, Elements;
    var ids := EndedIds(c.terminals);
    forall id: RequestId | id < |c.issued|
      ensures id in Elements(ids)
    {
      EndedIsListed(c.terminals, id);
    }
    assert Distinct(ids);
    CompleteList(ids, |c.issued|);
  }
}
