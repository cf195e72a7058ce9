/** Which handler may end a request as `invalid_chunk` or `hash_mismatch`, and which request it ends so. */
module EngineEndings {
  import opened Common
  import opened Pieces
  import opened ChunkAssembly
  import opened Availability
  import opened GridChoice
  import opened Engine

  predicate Bad(reason: TerminalReason) {
    reason.InvalidChunk? || reason.HashMismatch?
  }

  /** `b` goes on from `a`, and only endings in `blamed` were bad in between. */
  ghost predicate CleanBut(a: Engine, b: Engine, blamed: set<(RequestId, TerminalReason)>) {
    && a.terminals <= b.terminals
    && forall k :: |a.terminals| <= k < |b.terminals| && Bad(b.terminals[k].reason) ==> (b.terminals[k].id, b.terminals[k].reason) in blamed
  }

  /** Tracked windows stay tracked, and for what they were opened. */
  ghost predicate WindowsStand(a: Engine, b: Engine) {
    forall key :: key in a.windows ==>
      && key in b.windows && b.windows[key].cap == a.windows[key].cap
      && b.windows[key].file == a.windows[key].file && b.windows[key].peer == a.windows[key].peer
  }

  ghost predicate Tidy(a: Engine, b: Engine, blamed: set<(RequestId, TerminalReason)>) {
    CleanBut(a, b, blamed) && WindowsStand(a, b)
  }

  lemma CleanTrans(a: Engine, b: Engine, c: Engine, blamed: set<(RequestId, TerminalReason)>)
    requires Tidy(a, b, blamed) && Tidy(b, c, blamed)
    ensures Tidy(a, c, blamed)
  {
    assert forall k :: |a.terminals| <= k < |b.terminals| ==> c.terminals[k] == b.terminals[k];
  }

  lemma SameTerminals(a: Engine, b: Engine, blamed: set<(RequestId, TerminalReason)>)
    requires a.terminals == b.terminals && WindowsStand(a, b)
    ensures Tidy(a, b, blamed)
  {
  }

  // ----- handlers -----

  lemma FailTerminals(e: Engine, p: Piece)
    ensures Fail(e, p).terminals == e.terminals && Unfail(e, p).terminals == e.terminals
    ensures Fail(e, p).windows == e.windows && Unfail(e, p).windows == e.windows
  {
    hide SameShape;
  }

  lemma ReopenTerminals(e: Engine, p: Piece)
    ensures Reopen(e, p).terminals == e.terminals && Reopen(e, p).windows == e.windows
  {
    hide Fail, Unfail;
    FailTerminals(e, p);
    FailTerminals(Fail(e, p), p);
  }

  lemma FinalizeClean(e: Engine, id: RequestId, reason: TerminalReason, blamed: set<(RequestId, TerminalReason)>)
    requires Bad(reason) ==> (id, reason) in blamed
    ensures Tidy(e, Finalize(e, id, reason), blamed) && Tidy(e, FinalizeOrDrop(e, id, reason), blamed)
  {
    if IsDirect(e, id) {
      hide Close, Enqueue, Tidy, WindowsStand;
      var r := e.outstanding[id];
      var key, c := r.kind.info.window, Close(e, id, reason);
      CloseClean(e, id, reason, blamed);
      EnqueueTerminals(c, key, Retry(id, r));
      SameTerminals(c, Enqueue(c, key, Retry(id, r)), blamed);
      CleanTrans(e, c, Enqueue(c, key, Retry(id, r)), blamed);
      if key in c.windows {
        var x := c.(windows := c.windows[key := c.windows[key].(exhausted := true)], exhaustions := c.exhaustions + [key]);
        OneWindowStands(c, x, key, c.windows[key].(exhausted := true));
        SameTerminals(c, x, blamed);
        CleanTrans(e, c, x, blamed);
      }
    } else {
      SameTerminals(e, e, blamed);
      SameTerminals(e, e.(outstanding := e.outstanding - {id}), blamed);
    }
  }

  lemma CloseClean(e: Engine, id: RequestId, reason: TerminalReason, blamed: set<(RequestId, TerminalReason)>)
    requires IsDirect(e, id) && (Bad(reason) ==> (id, reason) in blamed)
    ensures Tidy(e, Close(e, id, reason), blamed)
  {
    hide DropPending, Retryable;
  }

  lemma EnqueueTerminals(e: Engine, key: WindowKey, t: Task)
    ensures Enqueue(e, key, t).terminals == e.terminals && WindowsStand(e, Enqueue(e, key, t))
  {
  }

  lemma ErrorTerminals(e: Engine, r: Option<Request>)
    ensures LifecycleError(e, r).terminals == e.terminals && WindowsStand(e, LifecycleError(e, r))
  {
    if r.Some? && r.value.kind.Direct? && r.value.kind.info.window in e.windows {
      var key := r.value.kind.info.window;
      OneWindowStands(e, LifecycleError(e, r), key, e.windows[key].(disabled := true));
    }
  }

  lemma OneWindowStands(a: Engine, b: Engine, key: WindowKey, w: Window)
    requires b.windows == a.windows[key := w]
    requires key in a.windows ==> w.cap == a.windows[key].cap && w.file == a.windows[key].file && w.peer == a.windows[key].peer
    ensures WindowsStand(a, b)
  {
  }

  lemma EndClean(e: Engine, next: Engine, id: RequestId, p: Piece, reason: TerminalReason, blamed: set<(RequestId, TerminalReason)>)
    requires !Bad(reason) && next.terminals == e.terminals && WindowsStand(e, next)
    ensures Tidy(e, FailAndFinalize(next, id, p, reason), blamed)
  {
    hide Finalize, Fail;
    FailTerminals(next, p);
    FinalizeClean(Fail(next, p), id, reason, blamed);
  }

  lemma RecordFrame(e: Engine, r: Request, parent: Option<RequestId>)
    requires Has(e, r.piece)
    ensures var b := Record(e, r, parent);
      && b.terminals == e.terminals && b.windows == e.windows && |b.issued| == |e.issued| + 1 && |e.issued| in b.outstanding
      && b.issued[|e.issued|].request == r && b.outstanding[|e.issued|] == r
  {
    hide SameShape;
  }

  lemma BeginTerminals(e: Engine, peer: PeerId, file: FileId, options: Option<DirectOptions>, parent: Option<RequestId>, env: Env)
    requires Begin(e, peer, file, options, parent, env).Some?
    ensures var b := Begin(e, peer, file, options, parent, env).value;
      b.terminals == e.terminals && WindowsStand(e, b) && |b.issued| == |e.issued| + 1 && |e.issued| in b.outstanding
  {
    hide NextPiece, SameShape, MakeKind, Record, WindowsStand;
    var piece := Piece(file, NextPiece(e.managers[file], e.cfg.maxRetries).value);
    var w := WithWindow(e, peer, file, options);
    NewWindowStands(e, peer, file, options);
    RecordFrame(w, Request(piece, peer, MakeKind(w, options, env.view.now)), parent);
    SameWindowsStand(e, w, Begin(e, peer, file, options, parent, env).value);
  }

  lemma NewWindowStands(e: Engine, peer: PeerId, file: FileId, options: Option<DirectOptions>)
    ensures var w := WithWindow(e, peer, file, options);
      WindowsStand(e, w) && w == e.(windows := w.windows, windowOrder := w.windowOrder)
  {
    hide WindowsStand, AddWindow;
    SameWindows(e);
    if options.Some? && options.value.window !in e.windows {
      AddedStands(e, options.value.window, NewWindow(file, peer, options.value.controller, 1, 0));
    }
  }

  lemma SameWindows(e: Engine)
    ensures WindowsStand(e, e)
  {
  }

  lemma AddedStands(e: Engine, key: WindowKey, w: Window)
    requires key !in e.windows
    ensures var a := AddWindow(e, key, w); WindowsStand(e, a) && a == e.(windows := a.windows, windowOrder := a.windowOrder)
  {
  }

  lemma SameWindowsStand(a: Engine, b: Engine, c: Engine)
    requires WindowsStand(a, b) && c.windows == b.windows
    ensures WindowsStand(a, c)
  {
  }

  lemma RequestNextClean(e: Engine, peer: PeerId, file: FileId, options: Option<DirectOptions>, parent: Option<RequestId>, env: Env)
    ensures Tidy(e, RequestNext(e, peer, file, options, parent, env).0, {})
  {
    hide FailAndFinalize, LifecycleError, Tidy, Begin;
    SameTerminals(e, e, {});
    var begun := Begin(e, peer, file, options, parent, env);
    if begun.Some? {
      var id, b := |e.issued|, begun.value;
      BeginTerminals(e, peer, file, options, parent, env);
      var piece := b.issued[id].request.piece;
      SameTerminals(e, b, {});
      ErrorTerminals(b, Some(b.outstanding[id]));
      EndClean(e, b, id, piece, SendFailed, {});
      EndClean(e, LifecycleError(b, Some(b.outstanding[id])), id, piece, Cancelled, {});
    }
  }

  lemma {:induction false} FillClean(e: Engine, peer: PeerId, file: FileId, o: DirectOptions, cap: nat, env: Env)
    ensures Tidy(e, FillLoop(e, peer, file, o, cap, env), {})
    decreases Unrequested(e, file)
  {
    hide Tidy, RequestNext;
    SameTerminals(e, e, {});
    if |InWindow(e, o.window)| < cap {
      var (next, scheduled) := RequestNext(e, peer, file, Some(o), None, env);
      RequestNextClean(e, peer, file, Some(o), None, env);
      if scheduled {
        RequestUsesUpOne(e, peer, file, Some(o), None, env);
        FillClean(next, peer, file, o, cap, env);
        CleanTrans(e, next, FillLoop(next, peer, file, o, cap, env), {});
      }
    }
  }

  lemma TaskClean(e: Engine, key: WindowKey, env: Env)
    ensures Tidy(e, RunTask(e, key, env), {})
  {
    hide Tidy, FillLoop, RequestNext, Unfail, FailAndFinalize, SameShape;
    SameTerminals(e, e, {});
    if key in e.windows && e.windows[key].queue != [] {
      var w, p := e.windows[key], PopTask(e, key);
      SameTerminals(e, p, {});
      if !w.disabled && !e.disposed {
        match w.queue[0]
        case Fill(o) =>
          FillClean(p, w.peer, w.file, o, w.cap, env);
          CleanTrans(e, p, FillLoop(p, w.peer, w.file, o, w.cap, env), {});
        case Retry(id, r) =>
          if r.kind.Direct? {
            var info, u := r.kind.info, Unfail(p, r.piece);
            var o := DirectOptions(info.window, info.controller, info.timeoutMs, info.retryCount + 1);
            FailTerminals(p, r.piece);
            SameTerminals(e, u, {});
            RequestNextClean(u, r.peer, r.piece.file, Some(o), Some(id), env);
            CleanTrans(e, u, RequestNext(u, r.peer, r.piece.file, Some(o), Some(id), env).0, {});
          }
        case Expire(id) => ExpireClean(e, p, id);
      }
    }
  }

  lemma ExpireClean(e: Engine, p: Engine, id: RequestId)
    requires p.terminals == e.terminals && WindowsStand(e, p)
    ensures Tidy(e, ExpireDirect(p, id), {})
  {
    hide FailAndFinalize;
    if IsDirect(p, id) {
      EndClean(e, p, id, p.outstanding[id].piece, RequestTimeout, {});
    }
  }

  lemma {:induction false} ExpireFirstClean(e: Engine, now: int, n: nat)
    ensures Tidy(e, ExpireFirst(e, now, n), {})
  {
    hide Tidy, ExpireDirect;
    SameTerminals(e, e, {});
    if n > 0 {
      var b := ExpireFirst(e, now, n - 1);
      ExpireFirstClean(e, now, n - 1);
      ExpireClean(b, b, n - 1);
      CleanTrans(e, b, ExpireDirect(b, n - 1), {});
    }
  }

  lemma {:induction false} CancelRequestsClean(e: Engine, s: Selector, n: nat)
    ensures Tidy(e, CancelRequests(e, s, n), {})
  {
    hide Tidy, Finalize;
    SameTerminals(e, e, {});
    if n > 0 {
      var b := CancelRequests(e, s, n - 1);
      CancelRequestsClean(e, s, n - 1);
      var t := b.(tombstones := b.tombstones + {n - 1});
      SameTerminals(b, t, {});
      FinalizeClean(t, n - 1, Cancelled, {});
      CleanTrans(b, t, Finalize(t, n - 1, Cancelled), {});
      CleanTrans(e, b, Finalize(t, n - 1, Cancelled), {});
    }
  }

  lemma {:induction false} DisableStands(e: Engine, s: Selector, n: nat)
    requires n <= |e.windowOrder|
    ensures WindowsStand(e, DisableWindows(e, s, n))
  {
    if n > 0 {
      DisableStands(e, s, n - 1);
    }
  }

  lemma CancelClean(e: Engine, s: Selector)
    ensures Tidy(e, CancelDirect(e, s), {})
  {
    hide Tidy, CancelRequests, DisableWindow;
    var d := DisableWindows(e, s, |e.windowOrder|);
    DisableStands(e, s, |e.windowOrder|);
    SameTerminals(e, d, {});
    CancelRequestsClean(d, s, |e.issued|);
    CleanTrans(e, d, CancelRequests(d, s, |e.issued|), {});
  }

  lemma {:induction false} LeasesTerminals(e: Engine, now: int, n: nat)
    requires n <= |e.issued|
    ensures ExpireLeasesFirst(e, now, n).terminals == e.terminals && ExpireLeasesFirst(e, now, n).windows == e.windows
  {
    hide ExpireLease;
    if n > 0 {
      LeasesTerminals(e, now, n - 1);
      LeaseTerminals(ExpireLeasesFirst(e, now, n - 1), n - 1, now);
    }
  }

  lemma LeaseTerminals(e: Engine, id: RequestId, now: int)
    requires id < |e.issued|
    ensures ExpireLease(e, id, now).terminals == e.terminals && ExpireLease(e, id, now).windows == e.windows
  {
    hide Reopen;
    var p := e.issued[id].request.piece;
    if id in e.outstanding {
      ReopenTerminals(e.(leases := e.leases - {p}, outstanding := e.outstanding - {id}, incoming := e.incoming - {id}), e.outstanding[id].piece);
    }
  }

  lemma NextGridTerminals(e: Engine, file: FileId, o: GridOptions, env: Env)
    ensures RequestNextGrid(e, file, o, env).0.terminals == e.terminals && RequestNextGrid(e, file, o, env).0.windows == e.windows
  {
    hide GridItems, Choose, Update, SameShape;
    LeasesTerminals(e, env.view.now, |e.issued|);
    assert GridReady(e, file, o, env.view.now).terminals == e.terminals && GridReady(e, file, o, env.view.now).windows == e.windows;
    hide GridReady;
  }

  lemma AskAgainClean(e: Engine, p: Piece, peer: PeerId, kind: Option<Kind>, env: Env)
    ensures Tidy(e, AskAgain(e, p, peer, kind, env), {})
  {
    hide Tidy, RequestNextGrid, RequestNext, Unfail;
    var u := Unfail(e, p);
    FailTerminals(e, p);
    SameTerminals(e, e, {});
    SameTerminals(e, u, {});
    if kind.Some? && kind.value.Grid? {
      NextGridTerminals(u, p.file, kind.value.options, env);
      SameTerminals(e, RequestNextGrid(u, p.file, kind.value.options, env).0, {});
    } else {
      RequestNextClean(u, peer, p.file, None, None, env);
      CleanTrans(e, u, RequestNext(u, peer, p.file, None, None, env).0, {});
    }
  }

  lemma Wider(a: Engine, b: Engine, blamed: set<(RequestId, TerminalReason)>)
    requires Tidy(a, b, {})
    ensures Tidy(a, b, blamed)
  {
  }

  lemma Widen(a: Engine, b: Engine, few: set<(RequestId, TerminalReason)>, more: set<(RequestId, TerminalReason)>)
    requires Tidy(a, b, few) && few <= more
    ensures Tidy(a, b, more)
  {
  }

  lemma RejectClean(e: Engine, peer: PeerId, h: Header, env: Env)
    ensures Tidy(e, RejectChunk(e, peer, h, env), {(h.id, InvalidChunk)})
  {
    hide Tidy, AskAgain, Fail, FinalizeOrDrop;
    var f := Fail(Release(e.(incoming := e.incoming - {h.id}), h.piece, h.id), h.piece);
    FailTerminals(Release(e.(incoming := e.incoming - {h.id}), h.piece, h.id), h.piece);
    SameTerminals(e, f, {(h.id, InvalidChunk)});
    FinalizeClean(f, h.id, InvalidChunk, {(h.id, InvalidChunk)});
    var r := RejectChunkCore(e, h);
    CleanTrans(e, f, r, {(h.id, InvalidChunk)});
    AskAgainClean(r, h.piece, peer, KindOf(e, h.id), env);
    Wider(r, AskAgain(r, h.piece, peer, KindOf(e, h.id), env), {(h.id, InvalidChunk)});
    CleanTrans(e, r, AskAgain(r, h.piece, peer, KindOf(e, h.id), env), {(h.id, InvalidChunk)});
  }

  lemma MismatchClean(e: Engine, p: Piece, id: RequestId, env: Env)
    ensures Tidy(e, ReceiveMismatch(e, p, id, env).0, {(id, HashMismatch)})
  {
    hide Tidy, Fail, FinalizeOrDrop, Finalize, LifecycleError;
    var failed := Fail(Release(e, p, id), p);
    FailTerminals(Release(e, p, id), p);
    SameTerminals(e, failed, {(id, HashMismatch)});
    var deleted := failed.(storage := failed.storage - {p});
    SameTerminals(e, deleted, {(id, HashMismatch)});
    var l := LifecycleError(deleted, RequestOf(e, id));
    ErrorTerminals(deleted, RequestOf(e, id));
    SameTerminals(e, l, {(id, HashMismatch)});
    FinalizeClean(l, id, Cancelled, {(id, HashMismatch)});
    CleanTrans(e, l, Finalize(l, id, Cancelled), {(id, HashMismatch)});
    var saved := if env.persistOk then deleted else Finalize(l, id, Cancelled);
    FinalizeClean(saved, id, HashMismatch, {(id, HashMismatch)});
    CleanTrans(e, saved, FinalizeOrDrop(saved, id, HashMismatch), {(id, HashMismatch)});
  }

  lemma MatchClean(e: Engine, p: Piece, id: RequestId, data: Bytes, env: Env)
    requires Has(e, p)
    ensures Tidy(e, ReceiveMatch(e, p, id, data, env).0, {})
  {
    hide Tidy, FinalizeOrDrop, FailAndFinalize, LifecycleError, SameShape;
    ErrorTerminals(e, RequestOf(e, id));
    EndClean(e, LifecycleError(e, RequestOf(e, id)), id, p, Cancelled, {});
    var released := StoreVerified(e, p, id, data);
    assert released.terminals == e.terminals;
    hide StoreVerified;
    ErrorTerminals(released, RequestOf(e, id));
    EndClean(e, LifecycleError(released, RequestOf(e, id)), id, p, Cancelled, {});
    SameTerminals(e, released, {});
    var ended := FinalizeOrDrop(released, id, VerifiedOk);
    FinalizeClean(released, id, VerifiedOk, {});
    SameTerminals(ended, CancelCompeting(ended, p, id), {});
    CleanTrans(e, released, ended, {});
    CleanTrans(e, ended, CancelCompeting(ended, p, id), {});
  }

  /** The bytes are those the piece is to have. */
  predicate Matches(e: Engine, p: Piece, data: Bytes) {
    DescriptorOf(e, p).Some? ==> Checks(e.cfg, data, DescriptorOf(e, p).value)
  }

  /** Matching bytes are never blamed on their request. */
  lemma DeliverClean(e: Engine, peer: PeerId, h: Header, data: Bytes, env: Env)
    ensures Tidy(e, Deliver(e, peer, h, data, env), if Matches(e, h.piece, data) then {} else {(h.id, HashMismatch)})
  {
    hide Tidy, ReceiveMatch, ReceiveMismatch, AskAgain, FailAndFinalize, LifecycleError, Checks, Has, DescriptorOf;
    var blamed := if Matches(e, h.piece, data) then {} else {(h.id, HashMismatch)};
    SameTerminals(e, e, blamed);
    if h.id in e.outstanding {
      var r := e.outstanding[h.id];
      var next := ReceivePiece(e, h.piece, h.id, data, env).0;
      if Has(e, h.piece) {
        MatchClean(e, h.piece, h.id, data, env);
        Wider(e, ReceiveMatch(e, h.piece, h.id, data, env).0, blamed);
      }
      MismatchClean(e, h.piece, h.id, env);
      assert Tidy(e, next, blamed);
      var l := LifecycleError(next, Some(r));
      ErrorTerminals(next, Some(r));
      EndClean(next, l, h.id, h.piece, Cancelled, blamed);
      CleanTrans(e, next, FailAndFinalize(l, h.id, h.piece, Cancelled), blamed);
      AskAgainClean(next, h.piece, peer, Some(r.kind), env);
      Wider(next, AskAgain(next, h.piece, peer, Some(r.kind), env), blamed);
      CleanTrans(e, next, AskAgain(next, h.piece, peer, Some(r.kind), env), blamed);
    }
  }

  function Chunked(id: RequestId): set<(RequestId, TerminalReason)> {
    {(id, InvalidChunk), (id, HashMismatch)}
  }

  lemma BinaryClean(e: Engine, peer: PeerId, frame: Bytes, env: Env)
    ensures Tidy(e, ReceiveBinary(e, peer, frame, env), if peer in e.pending then Chunked(e.pending[peer].id) else {})
  {
    hide Tidy, RejectChunk, Deliver, AppendChunk, Matches;
    SameTerminals(e, e, {});
    if peer in e.pending {
      var h := e.pending[peer];
      var e1 := e.(pending := e.pending - {peer});
      SameTerminals(e, e1, Chunked(h.id));
      RejectClean(e1, peer, h, env);
      Widen(e1, RejectChunk(e1, peer, h, env), {(h.id, InvalidChunk)}, Chunked(h.id));
      CleanTrans(e, e1, RejectChunk(e1, peer, h, env), Chunked(h.id));
      match AppendChunk(if h.id in e.incoming then Some(e.incoming[h.id]) else None, peer, h, frame)
      case Reject =>
      case Incomplete(a) => SameTerminals(e, e1.(incoming := e1.incoming[h.id := a]), Chunked(h.id));
      case Complete(data) =>
        var e2 := e1.(incoming := e1.incoming - {h.id});
        SameTerminals(e, e2, Chunked(h.id));
        DeliverClean(e2, peer, h, data, env);
        Widen(e2, Deliver(e2, peer, h, data, env), if Matches(e2, h.piece, data) then {} else {(h.id, HashMismatch)}, Chunked(h.id));
        CleanTrans(e, e2, Deliver(e2, peer, h, data, env), Chunked(h.id));
    }
  }

  lemma HeaderClean(e: Engine, peer: PeerId, h: Header, env: Env)
    ensures Tidy(e, ReceiveHeader(e, peer, h, env), if Active(e, peer, h) then {(h.id, InvalidChunk)} else {})
  {
    hide Tidy, RejectChunk, Active;
    SameTerminals(e, e, {});
    SameTerminals(e, e, {(h.id, InvalidChunk)});
    SameTerminals(e, e.(pending := e.pending[peer := h]), {(h.id, InvalidChunk)});
    RejectClean(e, peer, h, env);
  }

  lemma MessageRejectClean(e: Engine, peer: PeerId, id: RequestId, env: Env)
    ensures Tidy(e, ReceiveReject(e, peer, id, env), {})
  {
    hide Tidy, FinalizeOrDrop, Fail, AskAgain;
    SameTerminals(e, e, {});
    if id in e.outstanding && e.outstanding[id].peer == peer {
      var r := e.outstanding[id];
      var failed := Fail(Release(e, r.piece, id), r.piece);
      FailTerminals(Release(e, r.piece, id), r.piece);
      SameTerminals(e, failed, {});
      FinalizeClean(failed, id, ProviderReject, {});
      var next := FinalizeOrDrop(failed, id, ProviderReject);
      CleanTrans(e, failed, next, {});
      AskAgainClean(next, r.piece, r.peer, Some(r.kind), env);
      CleanTrans(e, next, AskAgain(next, r.piece, r.peer, Some(r.kind), env), {});
    }
  }

  lemma AckClean(e: Engine, peer: PeerId, id: RequestId, p: Piece)
    ensures Tidy(e, ReceiveAck(e, peer, id, p), {})
  {
    hide Tidy, FinalizeOrDrop;
    SameTerminals(e, e, {});
    var r := Release(e, p, id);
    SameTerminals(e, r, {});
    FinalizeClean(r, id, Acknowledged, {});
    CleanTrans(e, r, FinalizeOrDrop(r, id, Acknowledged), {});
  }

  lemma OpenClean(e: Engine, peer: PeerId, file: FileId, o: DirectOptions, cap: nat)
    ensures OpenWindow(e, peer, file, o, cap).0.terminals == e.terminals && WindowsStand(e, OpenWindow(e, peer, file, o, cap).0)
  {
    hide Enqueue;
    EnqueueTerminals(e, o.window, Fill(o));
    var n := AddWindow(e, o.window, NewWindow(file, peer, o.controller, cap, e.nextGeneration));
    EnqueueTerminals(n.(nextGeneration := e.nextGeneration + 1), o.window, Fill(o));
  }

  lemma TimerTerminals(e: Engine, id: RequestId)
    ensures FireTimer(e, id).terminals == e.terminals && WindowsStand(e, FireTimer(e, id))
  {
    hide Enqueue;
    if IsDirect(e, id) {
      EnqueueTerminals(e, e.outstanding[id].kind.info.window, Expire(id));
    }
  }

  /** The request a handler may end as `invalid_chunk` or `hash_mismatch`: the one a chunk is for. */
  function Blamed(e: Engine, a: Action): set<(RequestId, TerminalReason)> {
    match a
    case DoHeader(peer, h) => if Active(e, peer, h) then {(h.id, InvalidChunk)} else {}
    case DoBinary(peer, _) => if peer in e.pending then Chunked(e.pending[peer].id) else {}
    case _ => {}
  }

  lemma StepClean(e: Engine, a: Action, env: Env)
    ensures CleanBut(e, Step(e, a, env), Blamed(e, a))
    ensures !a.DoDispose? ==> WindowsStand(e, Step(e, a, env))
  {
    if a.DoDispose? {
      DisposeClean(e);
    } else {
      LiveStepClean(e, a, env);
    }
    hide Step;
  }

  lemma DisposeClean(e: Engine)
    ensures CleanBut(e, Dispose(e), {})
  {
    hide CancelDirect;
    CancelClean(e, Everything);
  }

  lemma LiveStepClean(e: Engine, a: Action, env: Env)
    requires !a.DoDispose?
    ensures Tidy(e, Step(e, a, env), Blamed(e, a))
  {
    hide Tidy, OpenWindow, RunTask, FireTimer, ExpireFirst, CancelDirect, RequestNextGrid, ExpireLeasesFirst,
         ReceiveHeader, ReceiveBinary, ReceiveAck, ReceiveReject, Update, Active;
    SameTerminals(e, e, Blamed(e, a));
    match a
    case DoOpen(peer, file, o, cap) =>
      OpenClean(e, peer, file, o.(retryCount := 0), cap);
      SameTerminals(e, Step(e, a, env), {});
    case DoTask(key) => TaskClean(e, key, env);
    case DoTimer(id) =>
      TimerTerminals(e, id);
      SameTerminals(e, Step(e, a, env), {});
    case DoExpireAll => ExpireFirstClean(e, env.view.now, |e.issued|);
    case DoCancel(s) => CancelClean(e, s);
    case DoGrid(file, o, total) =>
      NextGridTerminals(e, file, o, env);
      SameTerminals(e, Step(e, a, env), {});
    case DoExpireLeases =>
      LeasesTerminals(e, env.view.now, |e.issued|);
      SameTerminals(e, Step(e, a, env), {});
    case DoHeader(peer, h) => HeaderClean(e, peer, h, env);
    case DoBinary(peer, frame) => BinaryClean(e, peer, frame, env);
    case DoAck(peer, id, p) => AckClean(e, peer, id, p);
    case DoCancelMessage(id) => SameTerminals(e, Step(e, a, env), {});
    case DoReject(peer, id) => MessageRejectClean(e, peer, id, env);
    case DoMap(peer, role, m) => SameTerminals(e, Step(e, a, env), {});
  }
}
