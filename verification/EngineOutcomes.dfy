/** What each handler leaves behind, field by field: which piece is in which state, which request is over
    and how, what is stored and what is queued. */
module EngineOutcomes {
  import opened Common
  import opened Pieces
  import opened ChunkAssembly
  import opened Availability
  import opened GridChoice
  import opened Engine
  import opened EngineSteps

  // ----- pieces -----

  predicate Registered(e: Engine, p: Piece) {
    && p.file in e.manifests && p.index < |e.manifests[p.file]|
    && p.file in e.managers && p.index < |e.managers[p.file]|
  }

  /** The bytes have the size and hash that the manifest gives for the piece, if it gives one. */
  predicate Genuine(e: Engine, p: Piece, data: Bytes)
    requires Registered(e, p)
  {
    var d := e.manifests[p.file][p.index];
    d.hash == None || (|data| == d.size && Some(e.cfg.hash(data)) == d.hash)
  }

  /** Among all pieces of all files only `p` has another state, namely `s`. */
  ghost predicate OnlyPiece(a: Engine, b: Engine, p: Piece, s: PieceState) {
    && b.managers.Keys == a.managers.Keys
    && (forall f :: f in a.managers ==> |b.managers[f]| == |a.managers[f]|)
    && (forall f, i :: f in a.managers && 0 <= i < |a.managers[f]| ==>
          b.managers[f][i] == if f == p.file && i == p.index then s else a.managers[f][i])
  }

  /** Failed once more: nothing received, nobody asked. */
  function Spoiled(was: PieceState): PieceState {
    PieceState(Failed, was.size, 0, was.retryCount + 1, None)
  }

  function Complete(was: PieceState): PieceState {
    PieceState(Verified, was.size, was.size, was.retryCount, was.requestedFrom)
  }

  lemma FailPiece(e: Engine, p: Piece)
    requires Registered(e, p)
    ensures OnlyPiece(e, Fail(e, p), p, Spoiled(e.managers[p.file][p.index]))
    ensures Fail(e, p) == e.(managers := Fail(e, p).managers)
  {
    hide SameShape;
  }

  // ----- the end of a request -----

  /** The five ends after which a direct request may be made again. */
  predicate TriesAgain(reason: TerminalReason) {
    reason == ProviderReject || reason == SendFailed || reason == RequestTimeout || reason == HashMismatch || reason == InvalidChunk
  }

  predicate DirectOf(e: Engine, id: RequestId, r: Request) {
    id in e.outstanding && e.outstanding[id] == r && r.kind.Direct?
  }

  /** The request is over, with one terminal event, and nothing is kept for it. */
  ghost predicate Ended(a: Engine, b: Engine, id: RequestId, r: Request, reason: TerminalReason)
    requires r.kind.Direct?
  {
    var info := r.kind.info;
    && b.outstanding == a.outstanding - {id} && b.timers == a.timers - {id} && b.incoming == a.incoming - {id}
    && (forall q :: q in b.pending <==> q in a.pending && a.pending[q].id != id)
    && (forall q :: q in b.pending ==> b.pending[q] == a.pending[q])
    && b.terminals == a.terminals + [Terminal(id, reason, info.retryCount, TriesAgain(reason) && info.retryCount < a.cfg.maxRetries, info.window)]
  }

  /** What its window is left with: a queued retry, or the report that it is exhausted. */
  ghost predicate Passed(a: Engine, b: Engine, id: RequestId, r: Request, reason: TerminalReason)
    requires r.kind.Direct?
  {
    var info, key := r.kind.info, r.kind.info.window;
    var tracked := key in a.windows;
    if TriesAgain(reason) && info.retryCount < a.cfg.maxRetries && tracked && !a.windows[key].disabled && !a.disposed then
      && b.windows == a.windows[key := a.windows[key].(queue := a.windows[key].queue + [Retry(id, r)])]
      && b.exhaustions == a.exhaustions
    else if TriesAgain(reason) && info.retryCount >= a.cfg.maxRetries && tracked && !a.windows[key].exhausted then
      b.windows == a.windows[key := a.windows[key].(exhausted := true)] && b.exhaustions == a.exhaustions + [key]
    else b.windows == a.windows && b.exhaustions == a.exhaustions
  }

  ghost predicate Rest(a: Engine, b: Engine) {
    b == a.(outstanding := b.outstanding, timers := b.timers, incoming := b.incoming, pending := b.pending,
            terminals := b.terminals, windows := b.windows, exhaustions := b.exhaustions)
  }

  lemma CloseEnds(e: Engine, id: RequestId, r: Request, reason: TerminalReason)
    requires DirectOf(e, id, r)
    ensures Ended(e, Close(e, id, reason), id, r, reason) && Rest(e, Close(e, id, reason))
    ensures Close(e, id, reason).windows == e.windows && Close(e, id, reason).exhaustions == e.exhaustions
  {
  }

  lemma EndedFrame(a: Engine, b: Engine, c: Engine, id: RequestId, r: Request, reason: TerminalReason)
    requires r.kind.Direct? && Ended(a, b, id, r, reason) && Rest(a, b)
    requires c == b.(windows := c.windows, exhaustions := c.exhaustions)
    ensures Ended(a, c, id, r, reason) && Rest(a, c)
  {
  }

  /** A direct request comes to an end. */
  lemma RequestEnds(e: Engine, id: RequestId, r: Request, reason: TerminalReason)
    requires DirectOf(e, id, r)
    ensures var b := Finalize(e, id, reason);
      Ended(e, b, id, r, reason) && Passed(e, b, id, r, reason) && Rest(e, b)
    ensures FinalizeOrDrop(e, id, reason) == Finalize(e, id, reason)
  {
    var c, b := Close(e, id, reason), Finalize(e, id, reason);
    CloseEnds(e, id, r, reason);
    hide Close, Ended, Rest;
    WindowTold(e, c, id, r, reason);
    EndedFrame(e, c, b, id, r, reason);
  }

  lemma WindowTold(e: Engine, c: Engine, id: RequestId, r: Request, reason: TerminalReason)
    requires DirectOf(e, id, r) && c == Close(e, id, reason)
    requires c.windows == e.windows && c.exhaustions == e.exhaustions && Rest(e, c)
    ensures var b := Finalize(e, id, reason);
      Passed(e, b, id, r, reason) && b == c.(windows := b.windows, exhaustions := b.exhaustions)
  {
    hide Close;
  }

  /** A request without a window is just forgotten. */
  lemma PlainEnds(e: Engine, id: RequestId, reason: TerminalReason)
    requires id !in e.outstanding || !e.outstanding[id].kind.Direct?
    ensures Finalize(e, id, reason) == e
    ensures FinalizeOrDrop(e, id, reason) == e.(outstanding := e.outstanding - {id})
  {
  }

  // ----- a piece comes in -----

  /** Nobody is asked for the piece any more, and what was kept for those requests is gone. */
  ghost predicate NoLongerAsked(a: Engine, b: Engine, p: Piece, id: RequestId) {
    && id !in b.outstanding
    && (forall i :: i in b.outstanding <==> i in a.outstanding && i != id && a.outstanding[i].piece != p)
    && (forall i :: i in b.outstanding ==> b.outstanding[i] == a.outstanding[i])
  }

  /** The request's lease is released, and no other. */
  ghost predicate Released(a: Engine, b: Engine, p: Piece, id: RequestId) {
    && (forall q :: q in b.leases <==> q in a.leases && !(q == p && a.leases[q].id == id))
    && (forall q :: q in b.leases ==> b.leases[q] == a.leases[q])
  }

  lemma ReleasedLease(e: Engine, p: Piece, id: RequestId)
    ensures Released(e, Release(e, p, id), p, id) && Release(e, p, id) == e.(leases := Release(e, p, id).leases)
  {
  }

  lemma Stored(e: Engine, p: Piece, id: RequestId, data: Bytes)
    requires Registered(e, p)
    ensures Has(e, p)
    ensures var b := StoreVerified(e, p, id, data);
      && OnlyPiece(e, b, p, Complete(e.managers[p.file][p.index]))
      && b.storage == e.storage[p := data] && Released(e, b, p, id)
      && b == e.(managers := b.managers, storage := b.storage, leases := b.leases)
  {
    hide SameShape;
  }

  lemma CompetitorsGo(e: Engine, p: Piece, id: RequestId)
    requires id !in e.outstanding
    ensures var b := CancelCompeting(e, p, id);
      && (forall i :: i in b.outstanding <==> i in e.outstanding && e.outstanding[i].piece != p)
      && (forall i :: i in b.outstanding ==> b.outstanding[i] == e.outstanding[i])
      && b == e.(outstanding := b.outstanding, incoming := b.incoming, tombstones := b.tombstones, pending := b.pending)
  {
  }

  /** The terminal events a request adds: one if it is direct, none otherwise. */
  function Reported(e: Engine, id: RequestId, reason: TerminalReason): seq<Terminal> {
    if id in e.outstanding && e.outstanding[id].kind.Direct? then
      var info := e.outstanding[id].kind.info;
      [Terminal(id, reason, info.retryCount, TriesAgain(reason) && info.retryCount < e.cfg.maxRetries, info.window)]
    else []
  }

  lemma OverOrDropped(e: Engine, id: RequestId, reason: TerminalReason)
    ensures var b := FinalizeOrDrop(e, id, reason);
      && b.outstanding == e.outstanding - {id} && b.terminals == e.terminals + Reported(e, id, reason)
      && Rest(e, b)
  {
    if id in e.outstanding && e.outstanding[id].kind.Direct? {
      RequestEnds(e, id, e.outstanding[id], reason);
      hide Finalize, FinalizeOrDrop;
    } else {
      PlainEnds(e, id, reason);
      hide Finalize, FinalizeOrDrop;
      assert e.terminals + [] == e.terminals;
    }
  }

  /** Waiting headers and arriving pieces are only dropped, and only other requests for the piece are refused
      from now on. */
  ghost predicate OnlyDropped(a: Engine, b: Engine, p: Piece, id: RequestId) {
    && (forall q :: q in b.pending ==> q in a.pending && b.pending[q] == a.pending[q])
    && (forall i :: i in b.incoming ==> i in a.incoming && i != id && b.incoming[i] == a.incoming[i])
    && (forall i :: i in b.tombstones ==> i in a.tombstones || (i != id && i in a.outstanding && a.outstanding[i].piece == p))
  }

  /** Nothing but what a receipt is about. */
  ghost predicate ReceiptFrame(a: Engine, b: Engine) {
    b == a.(managers := b.managers, storage := b.storage, leases := b.leases, outstanding := b.outstanding, timers := b.timers,
            incoming := b.incoming, pending := b.pending, tombstones := b.tombstones, terminals := b.terminals)
  }

  /** Verified, a request is over or dropped, and its window is told nothing. */
  lemma VerifiedEnds(e: Engine, id: RequestId)
    ensures var b := FinalizeOrDrop(e, id, VerifiedOk);
      && b.windows == e.windows && b.exhaustions == e.exhaustions
      && (forall q :: q in b.pending ==> q in e.pending && b.pending[q] == e.pending[q])
      && (forall i :: i in b.incoming ==> i in e.incoming && b.incoming[i] == e.incoming[i])
      && (id in e.outstanding && e.outstanding[id].kind.Direct? ==> id !in b.incoming)
  {
    hide Finalize, FinalizeOrDrop;
    if id in e.outstanding && e.outstanding[id].kind.Direct? {
      RequestEnds(e, id, e.outstanding[id], VerifiedOk);
    } else {
      PlainEnds(e, id, VerifiedOk);
    }
  }

  /** The rest of what a receipt of right bytes leaves behind. */
  lemma RightPieceLeaves(e: Engine, p: Piece, id: RequestId, data: Bytes, env: Env)
    requires id in e.outstanding && id !in e.tombstones && id !in e.incoming && Registered(e, p) && Genuine(e, p, data)
    requires env.writeOk && env.persistOk
    ensures var b := ReceivePiece(e, p, id, data, env).0; ReceiptFrame(e, b) && OnlyDropped(e, b, p, id)
  {
    Stored(e, p, id, data);
    ReceivedIs(e, p, id, data, env);
    hide ReceivePiece, StoreVerified, FinalizeOrDrop, CancelCompeting, Genuine, OnlyPiece, Released, Reported, ReceiptFrame, OnlyDropped;
    var s := StoreVerified(e, p, id, data);
    OverOrDropped(s, id, VerifiedOk);
    VerifiedEnds(s, id);
    var f := FinalizeOrDrop(s, id, VerifiedOk);
    CompetitorsGo(f, p, id);
    CompetitorsOnly(f, p, id);
    ReceiptFrom(e, s, f, CancelCompeting(f, p, id));
    DroppedFrom(e, f, CancelCompeting(f, p, id), p, id);
  }

  /** The steps of a receipt of right bytes. */
  lemma ReceivedIs(e: Engine, p: Piece, id: RequestId, data: Bytes, env: Env)
    requires id in e.outstanding && id !in e.tombstones && Registered(e, p) && Genuine(e, p, data) && Has(e, p)
    requires env.writeOk && env.persistOk
    ensures ReceivePiece(e, p, id, data, env).0 == CancelCompeting(FinalizeOrDrop(StoreVerified(e, p, id, data), id, VerifiedOk), p, id)
  {
    assert Checks(e.cfg, data, e.manifests[p.file][p.index]);
    hide StoreVerified, FinalizeOrDrop, CancelCompeting, Checks;
  }

  lemma ReceiptFrom(a: Engine, s: Engine, f: Engine, c: Engine)
    requires s == a.(managers := s.managers, storage := s.storage, leases := s.leases)
    requires Rest(s, f) && f.windows == s.windows && f.exhaustions == s.exhaustions
    requires c == f.(outstanding := c.outstanding, incoming := c.incoming, tombstones := c.tombstones, pending := c.pending)
    ensures ReceiptFrame(a, c)
  {
  }

  lemma DroppedFrom(a: Engine, f: Engine, c: Engine, p: Piece, id: RequestId)
    requires id !in a.incoming && f.outstanding == a.outstanding - {id} && f.tombstones == a.tombstones
    requires forall q :: q in f.pending ==> q in a.pending && f.pending[q] == a.pending[q]
    requires forall i :: i in f.incoming ==> i in a.incoming && f.incoming[i] == a.incoming[i]
    requires forall q :: q in c.pending ==> q in f.pending && c.pending[q] == f.pending[q]
    requires forall i :: i in c.incoming ==> i in f.incoming && c.incoming[i] == f.incoming[i]
    requires forall i :: i in c.tombstones ==> i in f.tombstones || (i != id && i in f.outstanding && f.outstanding[i].piece == p)
    ensures OnlyDropped(a, c, p, id)
  {
  }

  lemma CompetitorsOnly(e: Engine, p: Piece, id: RequestId)
    ensures var b := CancelCompeting(e, p, id);
      && (forall q :: q in b.pending ==> q in e.pending && b.pending[q] == e.pending[q])
      && (forall i :: i in b.incoming ==> i in e.incoming && b.incoming[i] == e.incoming[i])
      && (forall i :: i in b.tombstones ==> i in e.tombstones || (i != id && i in e.outstanding && e.outstanding[i].piece == p))
  {
  }

  /** Right bytes for a request under way, and everything that has to be done for them succeeds: the piece
      is verified and stored, the request and all others for the piece are over, the lease is released. */
  lemma RightPieceIsVerified(e: Engine, p: Piece, id: RequestId, data: Bytes, env: Env)
    requires id in e.outstanding && id !in e.tombstones && Registered(e, p) && Genuine(e, p, data)
    requires env.writeOk && env.persistOk
    ensures var (b, result) := ReceivePiece(e, p, id, data, env);
      && result == (if env.broadcastOk then Ack else Threw)
      && OnlyPiece(e, b, p, Complete(e.managers[p.file][p.index]))
      && b.storage == e.storage[p := data] && NoLongerAsked(e, b, p, id) && Released(e, b, p, id)
      && b.terminals == e.terminals + Reported(e, id, VerifiedOk)
      && b.issued == e.issued && b.manifests == e.manifests && b.cfg == e.cfg && b.disposed == e.disposed
  {
    Stored(e, p, id, data);
    assert Checks(e.cfg, data, e.manifests[p.file][p.index]);
    hide StoreVerified, FinalizeOrDrop, CancelCompeting, Genuine, Checks, OnlyPiece, Released;
    var s := StoreVerified(e, p, id, data);
    OverOrDropped(s, id, VerifiedOk);
    var f := FinalizeOrDrop(s, id, VerifiedOk);
    CompetitorsGo(f, p, id);
    var c := CancelCompeting(f, p, id);
    PieceFrame(e, s, c, p, Complete(e.managers[p.file][p.index]), id);
  }

  lemma PieceFrame(a: Engine, b: Engine, c: Engine, p: Piece, s: PieceState, id: RequestId)
    requires OnlyPiece(a, b, p, s) && Released(a, b, p, id) && c.managers == b.managers && c.leases == b.leases
    ensures OnlyPiece(a, c, p, s) && Released(a, c, p, id)
  {
  }

  /** Wrong bytes: the piece has failed once more, nothing is stored for it, and the request is over. */
  lemma WrongPieceFails(e: Engine, p: Piece, id: RequestId, data: Bytes, env: Env)
    requires id in e.outstanding && id !in e.tombstones && Registered(e, p) && !Genuine(e, p, data)
    requires env.deleteOk && env.persistOk
    ensures var (b, result) := ReceivePiece(e, p, id, data, env);
      && result == Mismatch
      && OnlyPiece(e, b, p, Spoiled(e.managers[p.file][p.index]))
      && b.storage == e.storage - {p} && b.outstanding == e.outstanding - {id} && Released(e, b, p, id)
      && b.terminals == e.terminals + Reported(e, id, HashMismatch) && b.issued == e.issued
  {
    var r := Release(e, p, id);
    ReleasedLease(e, p, id);
    FailPiece(r, p);
    assert !Checks(e.cfg, data, e.manifests[p.file][p.index]);
    hide FinalizeOrDrop, Genuine, Checks, OnlyPiece, Released, Fail, Release;
    var f := Fail(r, p);
    SameStart(e, r, f, p, Spoiled(e.managers[p.file][p.index]));
    var d := f.(storage := f.storage - {p});
    OverOrDropped(d, id, HashMismatch);
    var b := FinalizeOrDrop(d, id, HashMismatch);
    assert ReceivePiece(e, p, id, data, env) == (b, Mismatch);
    assert Reported(d, id, HashMismatch) == Reported(e, id, HashMismatch);
    PieceFrame2(e, f, b, p, Spoiled(e.managers[p.file][p.index]));
    ReleasedFrame(e, r, b, p, id);
  }

  lemma SameStart(a: Engine, b: Engine, c: Engine, p: Piece, s: PieceState)
    requires b.managers == a.managers && OnlyPiece(b, c, p, s)
    ensures OnlyPiece(a, c, p, s)
  {
  }

  lemma PieceFrame2(a: Engine, b: Engine, c: Engine, p: Piece, s: PieceState)
    requires OnlyPiece(a, b, p, s) && c.managers == b.managers
    ensures OnlyPiece(a, c, p, s)
  {
  }

  lemma ReleasedFrame(a: Engine, b: Engine, c: Engine, p: Piece, id: RequestId)
    requires Released(a, b, p, id) && c.leases == b.leases
    ensures Released(a, c, p, id)
  {
  }

  /** An error on a direct request disables its window. */
  ghost predicate Disabled(a: Engine, b: Engine, id: RequestId) {
    b.windows ==
      if id in a.outstanding && a.outstanding[id].kind.Direct? && a.outstanding[id].kind.info.window in a.windows then
        var key := a.outstanding[id].kind.info.window;
        a.windows[key := a.windows[key].(disabled := true)]
      else a.windows
  }

  /** A direct request is over as cancelled, and its window takes no more work; another stays as it is. */
  ghost predicate Aborted(a: Engine, b: Engine, id: RequestId) {
    && Disabled(a, b, id) && b.terminals == a.terminals + Reported(a, id, Cancelled)
    && b.outstanding == (if id in a.outstanding && a.outstanding[id].kind.Direct? then a.outstanding - {id} else a.outstanding)
    && b.issued == a.issued && b.exhaustions == a.exhaustions
  }

  lemma ErrorAborts(e: Engine, id: RequestId, p: Piece)
    requires Registered(e, p)
    ensures var b := FailAndFinalize(LifecycleError(e, RequestOf(e, id)), id, p, TerminalReason.Cancelled);
      && Aborted(e, b, id) && OnlyPiece(e, b, p, Spoiled(e.managers[p.file][p.index]))
      && b.storage == e.storage && b.leases == e.leases
  {
    hide LifecycleError, Fail, Finalize, OnlyPiece;
    var l := LifecycleError(e, RequestOf(e, id));
    ErrorDisables(e, id);
    FailPiece(l, p);
    var f := Fail(l, p);
    SameStart(e, l, f, p, Spoiled(e.managers[p.file][p.index]));
    CancelEnds(f, id);
    ReportedFrame(e, f, id);
    PieceFrame2(e, f, Finalize(f, id, TerminalReason.Cancelled), p, Spoiled(e.managers[p.file][p.index]));
  }

  /** Right bytes that cannot be written: the piece has failed once more and nothing is stored. */
  lemma WriteFails(e: Engine, p: Piece, id: RequestId, data: Bytes, env: Env)
    requires id in e.outstanding && id !in e.tombstones && Registered(e, p) && Genuine(e, p, data) && !env.writeOk
    ensures var (b, result) := ReceivePiece(e, p, id, data, env);
      && result == StorageFailed && Aborted(e, b, id)
      && OnlyPiece(e, b, p, Spoiled(e.managers[p.file][p.index])) && b.storage == e.storage && b.leases == e.leases
  {
    assert Checks(e.cfg, data, e.manifests[p.file][p.index]);
    ErrorAborts(e, id, p);
    hide FailAndFinalize, LifecycleError, Checks, Genuine, OnlyPiece, Aborted, StoreVerified, CancelCompeting, FinalizeOrDrop;
  }

  /** Right bytes that are stored, when saving the session fails: the piece has failed once more. */
  lemma SaveFails(e: Engine, p: Piece, id: RequestId, data: Bytes, env: Env)
    requires id in e.outstanding && id !in e.tombstones && Registered(e, p) && Genuine(e, p, data)
    requires env.writeOk && !env.persistOk
    ensures var (b, result) := ReceivePiece(e, p, id, data, env);
      && result == PersistFailed && Aborted(e, b, id)
      && OnlyPiece(e, b, p, Spoiled(e.managers[p.file][p.index])) && b.storage == e.storage[p := data] && Released(e, b, p, id)
  {
    assert Checks(e.cfg, data, e.manifests[p.file][p.index]);
    Stored(e, p, id, data);
    hide FailAndFinalize, LifecycleError, Checks, Genuine, StoreVerified, CancelCompeting, FinalizeOrDrop, OnlyPiece, Released, Aborted;
    var s := StoreVerified(e, p, id, data);
    var was := e.managers[p.file][p.index];
    StillThere(e, s, p, Complete(was));
    ErrorAborts(s, id, p);
    var b := FailAndFinalize(LifecycleError(s, RequestOf(s, id)), id, p, TerminalReason.Cancelled);
    TwiceMarked(e, s, b, p, Complete(was), Spoiled(was));
    AbortedFrame(e, s, b, id);
    ReleasedFrame(e, s, b, p, id);
  }

  lemma StillThere(a: Engine, b: Engine, p: Piece, s: PieceState)
    requires Registered(a, p) && OnlyPiece(a, b, p, s) && b.manifests == a.manifests
    ensures Registered(b, p) && b.managers[p.file][p.index] == s
  {
  }

  lemma TwiceMarked(a: Engine, b: Engine, c: Engine, p: Piece, s: PieceState, t: PieceState)
    requires OnlyPiece(a, b, p, s) && OnlyPiece(b, c, p, t)
    ensures OnlyPiece(a, c, p, t)
  {
  }

  lemma AbortedFrame(a: Engine, b: Engine, c: Engine, id: RequestId)
    requires Aborted(b, c, id) && b == a.(managers := b.managers, storage := b.storage, leases := b.leases)
    ensures Aborted(a, c, id)
  {
  }

  /** Wrong bytes that cannot be removed: the piece has failed once more, and the call throws. */
  lemma DeleteFails(e: Engine, p: Piece, id: RequestId, data: Bytes, env: Env)
    requires id in e.outstanding && id !in e.tombstones && Registered(e, p) && !Genuine(e, p, data) && !env.deleteOk
    ensures var (b, result) := ReceivePiece(e, p, id, data, env);
      && result == Threw && OnlyPiece(e, b, p, Spoiled(e.managers[p.file][p.index]))
      && b == e.(managers := b.managers, leases := b.leases) && Released(e, b, p, id)
  {
    var r := Release(e, p, id);
    ReleasedLease(e, p, id);
    FailPiece(r, p);
    assert !Checks(e.cfg, data, e.manifests[p.file][p.index]);
    hide Genuine, Checks, OnlyPiece, Released, Fail, Release;
    SameStart(e, r, Fail(r, p), p, Spoiled(e.managers[p.file][p.index]));
    ReleasedFrame(e, r, Fail(r, p), p, id);
  }

  /** Wrong bytes, when saving the session fails: a direct request is over as cancelled, another is dropped. */
  lemma WrongPieceUnsaved(e: Engine, p: Piece, id: RequestId, data: Bytes, env: Env)
    requires id in e.outstanding && id !in e.tombstones && Registered(e, p) && !Genuine(e, p, data)
    requires env.deleteOk && !env.persistOk
    ensures var (b, result) := ReceivePiece(e, p, id, data, env);
      && result == Mismatch && OnlyPiece(e, b, p, Spoiled(e.managers[p.file][p.index]))
      && b.storage == e.storage - {p} && b.outstanding == e.outstanding - {id} && Released(e, b, p, id)
      && Disabled(e, b, id) && b.terminals == e.terminals + Reported(e, id, Cancelled)
  {
    var r := Release(e, p, id);
    ReleasedLease(e, p, id);
    FailPiece(r, p);
    assert !Checks(e.cfg, data, e.manifests[p.file][p.index]);
    hide Genuine, Checks, OnlyPiece, Released, Fail, Release, Finalize, FinalizeOrDrop, LifecycleError, Reported;
    var f := Fail(r, p);
    SameStart(e, r, f, p, Spoiled(e.managers[p.file][p.index]));
    var d := f.(storage := f.storage - {p});
    CancelledFirst(d, id);
    hide Disabled;
    var b := FinalizeOrDrop(Finalize(LifecycleError(d, RequestOf(d, id)), id, TerminalReason.Cancelled), id, HashMismatch);
    assert ReceivePiece(e, p, id, data, env) == (b, Mismatch);
    PieceFrame2(e, f, b, p, Spoiled(e.managers[p.file][p.index]));
    ReleasedFrame(e, r, b, p, id);
    DisabledFrame(e, d, b, id);
  }

  lemma DisabledFrame(a: Engine, b: Engine, c: Engine, id: RequestId)
    requires Disabled(b, c, id) && b.outstanding == a.outstanding && b.windows == a.windows && b.cfg == a.cfg
    ensures Disabled(a, c, id) && Reported(b, id, Cancelled) == Reported(a, id, Cancelled)
  {
  }

  /** Cancelled after an error, a request is over before it could be reported as mismatched. */
  lemma CancelledFirst(d: Engine, id: RequestId)
    ensures var b := FinalizeOrDrop(Finalize(LifecycleError(d, RequestOf(d, id)), id, TerminalReason.Cancelled), id, HashMismatch);
      && b.outstanding == d.outstanding - {id} && Disabled(d, b, id) && b.terminals == d.terminals + Reported(d, id, Cancelled)
      && b.managers == d.managers && b.storage == d.storage && b.leases == d.leases
  {
    hide LifecycleError, Finalize, FinalizeOrDrop, Reported;
    ErrorDisables(d, id);
    var l := LifecycleError(d, RequestOf(d, id));
    var g := Finalize(l, id, TerminalReason.Cancelled);
    CancelEnds(l, id);
    PlainEnds(g, id, HashMismatch);
    ReportedFrame(d, l, id);
  }

  lemma ReportedFrame(a: Engine, b: Engine, id: RequestId)
    requires b.outstanding == a.outstanding && b.cfg == a.cfg
    ensures Reported(b, id, Cancelled) == Reported(a, id, Cancelled)
  {
  }

  /** Cancelling ends a direct request without another try, and leaves any other request. */
  lemma CancelEnds(e: Engine, id: RequestId)
    ensures var b := Finalize(e, id, TerminalReason.Cancelled);
      && b.terminals == e.terminals + Reported(e, id, Cancelled) && b.windows == e.windows && b.exhaustions == e.exhaustions
      && b.outstanding == (if id in e.outstanding && e.outstanding[id].kind.Direct? then e.outstanding - {id} else e.outstanding)
      && (id in b.outstanding ==> !b.outstanding[id].kind.Direct?) && Rest(e, b)
  {
    hide Finalize, FinalizeOrDrop;
    if id in e.outstanding && e.outstanding[id].kind.Direct? {
      RequestEnds(e, id, e.outstanding[id], TerminalReason.Cancelled);
    } else {
      PlainEnds(e, id, TerminalReason.Cancelled);
      assert e.terminals + [] == e.terminals;
    }
  }

  lemma ErrorDisables(e: Engine, id: RequestId)
    ensures var l := LifecycleError(e, RequestOf(e, id)); l == e.(windows := l.windows) && Disabled(e, l, id)
  {
  }

  /** A request that is not, or no longer, under way changes nothing. */
  lemma StrangePieceIgnored(e: Engine, p: Piece, id: RequestId, data: Bytes, env: Env)
    requires id !in e.outstanding || id in e.tombstones
    ensures ReceivePiece(e, p, id, data, env) == (e, Unauthorized)
  {
  }

  /** The last chunk of a right piece, under its header: the piece is verified and stored. */
  lemma LastChunkVerifies(e: Engine, peer: PeerId, frame: Bytes, env: Env, h: Header, data: Bytes)
    requires peer in e.pending && h == e.pending[peer]
    requires AppendChunk(if h.id in e.incoming then Some(e.incoming[h.id]) else None, peer, h, frame) == Appended.Complete(data)
    requires h.id in e.outstanding && e.outstanding[h.id].peer == peer && e.outstanding[h.id].piece == h.piece && h.id !in e.tombstones
    requires Registered(e, h.piece) && Genuine(e, h.piece, data) && env.writeOk && env.persistOk && env.broadcastOk
    ensures var b := ReceiveBinary(e, peer, frame, env);
      && OnlyPiece(e, b, h.piece, Complete(e.managers[h.piece.file][h.piece.index]))
      && b.storage == e.storage[h.piece := data] && NoLongerAsked(e, b, h.piece, h.id) && Released(e, b, h.piece, h.id)
      && b.terminals == e.terminals + Reported(e, h.id, VerifiedOk) && b.issued == e.issued
      && ReceiptFrame(e, b) && OnlyDropped(e, b, h.piece, h.id) && peer !in b.pending
  {
    hide AppendChunk, RejectChunk, AskAgain, FailAndFinalize, LifecycleError, ReceivePiece, OnlyPiece, Released, NoLongerAsked, Genuine, ReceiveBinary, Reported;
    BinaryIs(e, peer, frame, env, h, Appended.Complete(data));
    var e2 := e.(pending := e.pending - {peer}, incoming := e.incoming - {h.id});
    GenuineFrame(e, e2, h.piece, data);
    RightPieceIsVerified(e2, h.piece, h.id, data, env);
    RightPieceLeaves(e2, h.piece, h.id, data, env);
    var b := ReceivePiece(e2, h.piece, h.id, data, env).0;
    assert Deliver(e2, peer, h, data, env) == b;
    SameStart(e, e2, b, h.piece, Complete(e.managers[h.piece.file][h.piece.index]));
    AskedFrame(e, e2, b, h.piece, h.id);
    assert Reported(e2, h.id, VerifiedOk) == Reported(e, h.id, VerifiedOk) by { ReportedAlike(e, e2, h.id); }
  }

  lemma ReportedAlike(a: Engine, b: Engine, id: RequestId)
    requires b.outstanding == a.outstanding && b.cfg == a.cfg
    ensures Reported(b, id, VerifiedOk) == Reported(a, id, VerifiedOk)
  {
  }

  lemma GenuineFrame(a: Engine, b: Engine, p: Piece, data: Bytes)
    requires Registered(a, p) && b.manifests == a.manifests && b.managers == a.managers && b.cfg == a.cfg
    ensures Registered(b, p) && (Genuine(b, p, data) <==> Genuine(a, p, data))
  {
  }

  lemma AskedFrame(a: Engine, b: Engine, c: Engine, p: Piece, id: RequestId)
    requires b.outstanding == a.outstanding && b.leases == a.leases && NoLongerAsked(b, c, p, id) && Released(b, c, p, id)
    ensures NoLongerAsked(a, c, p, id) && Released(a, c, p, id)
  {
  }
}
