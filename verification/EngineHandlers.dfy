/** What the remaining handlers do to requests, pieces, windows and leases, field by field. */
module EngineHandlers {
  import opened Common
  import opened Pieces
  import opened ChunkAssembly
  import opened Availability
  import opened GridChoice
  import opened Engine
  import opened EngineOutcomes
  import opened EngineFill

  // ----- ends of direct requests -----

  /** The piece of a direct request has failed once more, and the request is over; nothing else happens. */
  ghost predicate FailedAndEnded(a: Engine, b: Engine, id: RequestId, r: Request, reason: TerminalReason)
    requires r.kind.Direct? && Registered(a, r.piece)
  {
    && OnlyPiece(a, b, r.piece, Spoiled(a.managers[r.piece.file][r.piece.index]))
    && Ended(a, b, id, r, reason) && Passed(a, b, id, r, reason)
    && b == a.(managers := b.managers, outstanding := b.outstanding, timers := b.timers, incoming := b.incoming,
               pending := b.pending, terminals := b.terminals, windows := b.windows, exhaustions := b.exhaustions)
  }

  lemma FailsAndEnds(e: Engine, id: RequestId, r: Request, reason: TerminalReason)
    requires DirectOf(e, id, r) && Registered(e, r.piece)
    ensures FailedAndEnded(e, FailAndFinalize(e, id, r.piece, reason), id, r, reason)
  {
    hide Fail, Finalize, FinalizeOrDrop, OnlyPiece, Ended, Passed, Rest;
    var f := Fail(e, r.piece);
    FailPiece(e, r.piece);
    RequestEnds(f, id, r, reason);
    var b := Finalize(f, id, reason);
    EndFrame(e, f, b, id, r, reason);
    PieceFrame2(e, f, b, r.piece, Spoiled(e.managers[r.piece.file][r.piece.index]));
  }

  lemma EndFrame(a: Engine, b: Engine, c: Engine, id: RequestId, r: Request, reason: TerminalReason)
    requires r.kind.Direct? && b == a.(managers := b.managers)
    requires Ended(b, c, id, r, reason) && Passed(b, c, id, r, reason) && Rest(b, c)
    ensures Ended(a, c, id, r, reason) && Passed(a, c, id, r, reason) && c.managers == b.managers
    ensures c == a.(managers := c.managers, outstanding := c.outstanding, timers := c.timers, incoming := c.incoming,
                    pending := c.pending, terminals := c.terminals, windows := c.windows, exhaustions := c.exhaustions)
  {
  }

  /** A timer that fires queues the expiry of its request, if its window still takes work. */
  lemma TimerQueues(e: Engine, id: RequestId)
    ensures var b := FireTimer(e, id);
      if id in e.timers && id in e.outstanding && e.outstanding[id].kind.Direct?
         && e.outstanding[id].kind.info.window in e.windows
         && !e.windows[e.outstanding[id].kind.info.window].disabled && !e.disposed then
        var key := e.outstanding[id].kind.info.window;
        b == e.(windows := e.windows[key := e.windows[key].(queue := e.windows[key].queue + [Expire(id)])])
      else b == e
  {
  }

  /** The first task of a window's queue is taken off it whatever becomes of it. */
  function Popped(e: Engine, key: WindowKey): Engine
    requires key in e.windows && e.windows[key].queue != []
  {
    e.(windows := e.windows[key := e.windows[key].(queue := e.windows[key].queue[1..])])
  }

  predicate Runs(e: Engine, key: WindowKey, task: Task) {
    && key in e.windows && !e.windows[key].disabled && !e.disposed
    && e.windows[key].queue != [] && e.windows[key].queue[0] == task
  }

  /** A disabled window, or a disposed engine, drops its tasks; without a task nothing happens. */
  lemma DisabledDrops(e: Engine, key: WindowKey, env: Env)
    ensures key !in e.windows || e.windows[key].queue == [] ==> RunTask(e, key, env) == e
    ensures key in e.windows && e.windows[key].queue != [] && (e.windows[key].disabled || e.disposed) ==>
      RunTask(e, key, env) == Popped(e, key)
  {
  }

  /** A queued expiry ends its request as timed out if it is still under way, and does nothing otherwise. */
  lemma ExpiryEnds(e: Engine, key: WindowKey, id: RequestId, env: Env)
    requires Runs(e, key, Expire(id))
    ensures id !in e.outstanding || !e.outstanding[id].kind.Direct? ==> RunTask(e, key, env) == Popped(e, key)
    ensures id in e.outstanding && e.outstanding[id].kind.Direct? && Registered(e, e.outstanding[id].piece) ==>
      FailedAndEnded(Popped(e, key), RunTask(e, key, env), id, e.outstanding[id], RequestTimeout)
  {
    hide FailAndFinalize, FailedAndEnded;
    if id in e.outstanding && e.outstanding[id].kind.Direct? && Registered(e, e.outstanding[id].piece) {
      FailsAndEnds(Popped(e, key), id, e.outstanding[id], RequestTimeout);
    }
  }

  /** A queued retry is dropped if its request was cancelled by its peer, or if the window is gone, was
      replaced or is full. */
  lemma RetryDropped(e: Engine, key: WindowKey, id: RequestId, r: Request, env: Env)
    requires Runs(e, key, Retry(id, r))
    requires || !r.kind.Direct? || id in e.tombstones || r.kind.info.window !in e.windows
             || e.windows[r.kind.info.window].disabled || e.windows[r.kind.info.window].generation != r.kind.info.generation
             || Load(e, r.kind.info.window) >= e.windows[r.kind.info.window].cap
    ensures RunTask(e, key, env) == Popped(e, key)
  {
    hide RequestNext, Unfail, Load;
    if r.kind.Direct? {
      LoadIs(e, r.kind.info.window);
      assert InWindow(Popped(e, key), r.kind.info.window) == InWindow(e, r.kind.info.window);
    }
  }

  /** A request that is not made ends the fill there and then. */
  lemma FillStops(e: Engine, peer: PeerId, file: FileId, o: DirectOptions, cap: nat, env: Env)
    requires Load(e, o.window) < cap && !RequestNext(e, peer, file, Some(o), None, env).1
    ensures FillLoop(e, peer, file, o, cap, env) == RequestNext(e, peer, file, Some(o), None, env).0
  {
    hide RequestNext, Load;
    LoadIs(e, o.window);
  }

  // ----- requests that ran out of time -----

  predicate Overdue(e: Engine, id: RequestId, now: int) {
    id in e.outstanding && e.outstanding[id].kind.Direct? && e.outstanding[id].kind.info.expiresAt <= now
  }

  /** Their terminal events, in the order of the ids. */
  function TimedOut(e: Engine, now: int, n: nat): seq<Terminal> {
    if n == 0 then []
    else TimedOut(e, now, n - 1) + if Overdue(e, n - 1, now) then Reported(e, n - 1, RequestTimeout) else []
  }

  /** How many of the first requests for a piece are overdue. */
  function Late(e: Engine, p: Piece, now: int, n: nat): nat {
    if n == 0 then 0
    else Late(e, p, now, n - 1) + if Overdue(e, n - 1, now) && e.outstanding[n - 1].piece == p then 1 else 0
  }

  /** A piece that failed some more times. */
  function SpoiledTimes(was: PieceState, times: nat): PieceState {
    if times == 0 then was else PieceState(Failed, was.size, 0, was.retryCount + times, None)
  }

  ghost predicate AllRegistered(e: Engine) {
    forall id :: id in e.outstanding ==> Registered(e, e.outstanding[id].piece)
  }

  /** The overdue ones among the first `n` requests are over, and no others. */
  ghost predicate Expired(a: Engine, b: Engine, now: int, n: nat) {
    && (forall id :: id in b.outstanding <==> id in a.outstanding && !(id < n && Overdue(a, id, now)))
    && (forall id :: id in b.outstanding ==> b.outstanding[id] == a.outstanding[id])
    && (forall id :: id in b.timers <==> id in a.timers && !(id < n && Overdue(a, id, now)))
    && b.terminals == a.terminals + TimedOut(a, now, n)
    && b.managers.Keys == a.managers.Keys && (forall f :: f in a.managers ==> |b.managers[f]| == |a.managers[f]|)
    && (forall f, i: nat :: f in a.managers && i < |a.managers[f]| ==>
          b.managers[f][i] == SpoiledTimes(a.managers[f][i], Late(a, Piece(f, i), now, n)))
    && b == a.(managers := b.managers, outstanding := b.outstanding, timers := b.timers, incoming := b.incoming,
               pending := b.pending, terminals := b.terminals, windows := b.windows, exhaustions := b.exhaustions)
  }

  lemma ExpireOneMore(a: Engine, b: Engine, c: Engine, now: int, n: nat)
    requires AllRegistered(a) && Expired(a, b, now, n)
    requires Overdue(a, n, now) ==> n in b.outstanding && Registered(b, b.outstanding[n].piece) && b.outstanding[n].kind.Direct?
                                    && FailedAndEnded(b, c, n, b.outstanding[n], RequestTimeout)
    requires !Overdue(a, n, now) ==> c == b
    ensures Expired(a, c, now, n + 1)
  {
    hide Passed, Registered, OnlyPiece, SpoiledTimes;
    if Overdue(a, n, now) {
      var r := a.outstanding[n];
      assert Reported(a, n, RequestTimeout) == [Terminal(n, RequestTimeout, r.kind.info.retryCount, r.kind.info.retryCount < a.cfg.maxRetries, r.kind.info.window)];
      assert a.terminals + TimedOut(a, now, n + 1) == (a.terminals + TimedOut(a, now, n)) + Reported(a, n, RequestTimeout);
      ExpireOnePiece(a, b, c, now, n);
    } else {
      assert TimedOut(a, now, n) + [] == TimedOut(a, now, n);
    }
  }

  lemma ExpireOnePiece(a: Engine, b: Engine, c: Engine, now: int, n: nat)
    requires Expired(a, b, now, n) && Overdue(a, n, now) && n in b.outstanding && b.outstanding[n] == a.outstanding[n]
    requires Registered(b, b.outstanding[n].piece)
    requires var p := b.outstanding[n].piece; OnlyPiece(b, c, p, Spoiled(b.managers[p.file][p.index]))
    ensures c.managers.Keys == a.managers.Keys && (forall f :: f in a.managers ==> |c.managers[f]| == |a.managers[f]|)
    ensures forall f, i: nat :: f in a.managers && i < |a.managers[f]| ==>
      c.managers[f][i] == SpoiledTimes(a.managers[f][i], Late(a, Piece(f, i), now, n + 1))
  {
    hide TimedOut;
    var p := b.outstanding[n].piece;
    forall f, i: nat | f in a.managers && i < |a.managers[f]|
      ensures c.managers[f][i] == SpoiledTimes(a.managers[f][i], Late(a, Piece(f, i), now, n + 1))
    {
      assert b.managers[f][i] == SpoiledTimes(a.managers[f][i], Late(a, Piece(f, i), now, n));
      assert Piece(f, i) == p <==> f == p.file && i == p.index;
    }
  }

  lemma {:induction false} ExpireFirstMeaning(e: Engine, now: int, n: nat)
    requires AllRegistered(e)
    ensures Expired(e, ExpireFirst(e, now, n), now, n)
  {
    hide Expired, FailAndFinalize, FailedAndEnded, Registered;
    if n == 0 {
      NoneExpired(e, now);
    } else {
      var b := ExpireFirst(e, now, n - 1);
      ExpireFirstMeaning(e, now, n - 1);
      StillUnderWay(e, b, now, n - 1);
      if Overdue(e, n - 1, now) {
        FailsAndEnds(b, n - 1, b.outstanding[n - 1], RequestTimeout);
      }
      ExpireOneMore(e, b, ExpireFirst(e, now, n), now, n - 1);
    }
  }

  lemma NoneExpired(e: Engine, now: int)
    ensures Expired(e, e, now, 0)
  {
    assert e.terminals + [] == e.terminals;
  }

  lemma StillUnderWay(a: Engine, b: Engine, now: int, n: nat)
    requires AllRegistered(a) && Expired(a, b, now, n)
    ensures n in b.outstanding <==> n in a.outstanding
    ensures n in b.outstanding ==> b.outstanding[n] == a.outstanding[n] && Registered(b, b.outstanding[n].piece)
  {
  }

  /** `expireDirectRequests`: exactly the direct requests whose time ran out are over, each reported once as
      timed out in the order they were made, and their pieces have failed once more. */
  lemma ExpireAllMeaning(e: Engine, now: int)
    requires AllRegistered(e)
    ensures Expired(e, ExpireAll(e, now), now, |e.issued|)
  {
    hide Expired;
    ExpireFirstMeaning(e, now, |e.issued|);
  }

  // ----- asking again -----

  /** The engine with one piece in another state. */
  ghost predicate WithPiece(a: Engine, b: Engine, p: Piece, s: PieceState) {
    OnlyPiece(a, b, p, s) && b == a.(managers := b.managers)
  }

  /** A failed piece with retries left is missing again, and the next request of the same sort is made: a
      grid request under the same options, or else a plain one to the same peer. */
  ghost predicate AskedAgain(a: Engine, b: Engine, p: Piece, peer: PeerId, kind: Option<Kind>, env: Env)
    requires Registered(a, p)
  {
    var was := a.managers[p.file][p.index];
    if was.retryCount > a.cfg.maxRetries then b == a
    else exists m ::
      && WithPiece(a, m, p, was.(status := if was.status == Failed then Missing else was.status))
      && if kind.Some? && kind.value.Grid? then b == RequestNextGrid(m, p.file, kind.value.options, env).0
         else b == RequestNext(m, peer, p.file, None, None, env).0
  }

  lemma AsksAgain(e: Engine, p: Piece, peer: PeerId, kind: Option<Kind>, env: Env)
    requires Registered(e, p)
    ensures AskedAgain(e, AskAgain(e, p, peer, kind, env), p, peer, kind, env)
  {
    hide RequestNext, RequestNextGrid, OnlyPiece;
    var was := e.managers[p.file][p.index];
    if was.retryCount <= e.cfg.maxRetries {
      MissingAgain(e, p);
      assert WithPiece(e, Unfail(e, p), p, was.(status := if was.status == Failed then Missing else was.status));
    }
  }

  lemma MissingAgain(e: Engine, p: Piece)
    requires Registered(e, p)
    ensures var was := e.managers[p.file][p.index];
      WithPiece(e, Unfail(e, p), p, was.(status := if was.status == Failed then Missing else was.status))
  {
    hide SameShape;
  }

  /** A plain request: for the first piece that may be asked for, without window, lease or timer. */
  lemma PlainIsMade(e: Engine, peer: PeerId, file: FileId, env: Env) returns (i: nat)
    requires file in e.managers
    ensures var (b, scheduled) := RequestNext(e, peer, file, None, None, env);
      var some := exists j :: 0 <= j < |e.managers[file]| && Askable(e.managers[file][j], e.cfg.maxRetries);
      && (scheduled <==> some && env.sendOk(|e.issued|) && env.saveOk(|e.issued|))
      && (!some ==> b == e)
      && (scheduled ==>
            FirstAskable(e.managers[file], e.cfg.maxRetries, i) && OneMore(e, b, Request(Piece(file, i), peer, Plain), None))
  {
    hide NextPiece, Record, SameShape, OneMore, FailAndFinalize, LifecycleError, Begin, FirstAskable, Askable, Fail;
    NextIsFirst(e.managers[file], e.cfg.maxRetries);
    PlainBegins(e, peer, file, env);
    var next := NextPiece(e.managers[file], e.cfg.maxRetries);
    i := if next.Some? then next.value else 0;
    FirstIsSome(e.managers[file], e.cfg.maxRetries, i);
    if next.Some? {
      Recorded(e, Request(Piece(file, i), peer, Plain), None);
      RecordedIs(e, Request(Piece(file, i), peer, Plain), None);
    }
  }

  /** One that cannot be sent, or whose session cannot be saved, stays on record although its piece has failed. */
  lemma PlainNotMade(e: Engine, peer: PeerId, file: FileId, env: Env, i: nat)
    requires file in e.managers && file in e.manifests && |e.manifests[file]| == |e.managers[file]|
    requires FirstAskable(e.managers[file], e.cfg.maxRetries, i) && (!env.sendOk(|e.issued|) || !env.saveOk(|e.issued|))
    ensures var b, r := RequestNext(e, peer, file, None, None, env).0, Request(Piece(file, i), peer, Plain);
      && b.issued == e.issued + [Issue(r, None)] && b.outstanding == e.outstanding[|e.issued| := r]
      && OnlyPiece(e, b, Piece(file, i), Spoiled(e.managers[file][i])) && b.terminals == e.terminals && b.windows == e.windows
  {
    hide NextPiece, Record, SameShape, OneMore, OnlyPiece, FailAndFinalize, LifecycleError, Begin, Fail;
    NextIsFirst(e.managers[file], e.cfg.maxRetries);
    PlainBegins(e, peer, file, env);
    var r, id := Request(Piece(file, i), peer, Plain), |e.issued|;
    assert NextPiece(e.managers[file], e.cfg.maxRetries) == Some(i);
    hide FirstAskable, Askable;
    var m := Record(e, r, None);
    Recorded(e, r, None);
    RecordedIs(e, r, None);
    MadeState(e, m, r, None);
    PlainFails(m, id, r);
    TwiceMarked(e, m, Fail(m, r.piece), r.piece, AskedState(e.managers[file][i], peer), Spoiled(e.managers[file][i]));
  }

  lemma FirstIsSome(s: States, maxRetries: nat, i: nat)
    ensures FirstAskable(s, maxRetries, i) ==> i < |s| && Askable(s[i], maxRetries)
  {
  }

  lemma PlainBegins(e: Engine, peer: PeerId, file: FileId, env: Env)
    requires file in e.managers
    ensures var begun, next := Begin(e, peer, file, None, None, env), NextPiece(e.managers[file], e.cfg.maxRetries);
      if next.None? then begun == None
      else Has(e, Piece(file, next.value)) && begun == Some(Record(e, Request(Piece(file, next.value), peer, Plain), None))
  {
    hide NextPiece, Record;
  }

  lemma MadeState(a: Engine, b: Engine, r: Request, parent: Option<RequestId>)
    requires Has(a, r.piece) && OneMore(a, b, r, parent)
    ensures b.issued == a.issued + [Issue(r, parent)] && b.outstanding == a.outstanding[|a.issued| := r]
    ensures OnlyPiece(a, b, r.piece, AskedState(a.managers[r.piece.file][r.piece.index], r.peer))
    ensures b.terminals == a.terminals && b.windows == a.windows && b.manifests == a.manifests && b.cfg == a.cfg
    ensures Has(b, r.piece) && b.managers[r.piece.file][r.piece.index] == AskedState(a.managers[r.piece.file][r.piece.index], r.peer)
  {
  }

  lemma PlainFails(e: Engine, id: RequestId, r: Request)
    requires id in e.outstanding && e.outstanding[id] == r && !r.kind.Direct? && Registered(e, r.piece)
    ensures forall reason :: FailAndFinalize(e, id, r.piece, reason) == Fail(e, r.piece)
    ensures LifecycleError(e, Some(r)) == e
    ensures OnlyPiece(e, Fail(e, r.piece), r.piece, Spoiled(e.managers[r.piece.file][r.piece.index]))
    ensures Fail(e, r.piece) == e.(managers := Fail(e, r.piece).managers)
  {
    hide OnlyPiece;
    FailPiece(e, r.piece);
  }

  // ----- answers of the peer -----

  /** An acknowledgement of a request under way ends it, whatever became of its piece; any other is ignored. */
  lemma AckEnds(e: Engine, peer: PeerId, id: RequestId, p: Piece)
    ensures var b := ReceiveAck(e, peer, id, p);
      if id in e.outstanding && e.outstanding[id].peer == peer && e.outstanding[id].piece == p then
        && b.outstanding == e.outstanding - {id} && Released(e, b, p, id)
        && b.terminals == e.terminals + Reported(e, id, Acknowledged)
        && b.managers == e.managers && b.storage == e.storage && b.issued == e.issued
      else b == e
  {
    hide FinalizeOrDrop, Released, Release, Reported;
    if id in e.outstanding && e.outstanding[id].peer == peer && e.outstanding[id].piece == p {
      var l := Release(e, p, id);
      ReleasedLease(e, p, id);
      OverOrDropped(l, id, Acknowledged);
      ReportedSame(e, l, id, Acknowledged);
      ReleasedFrame(e, l, FinalizeOrDrop(l, id, Acknowledged), p, id);
    }
  }

  lemma ReportedSame(a: Engine, b: Engine, id: RequestId, reason: TerminalReason)
    requires b.outstanding == a.outstanding && b.cfg == a.cfg
    ensures Reported(b, id, reason) == Reported(a, id, reason)
  {
  }

  /** A cancellation by the peer leaves the request on record but its answer will be refused. */
  lemma CancelMarks(e: Engine, id: RequestId)
    ensures ReceiveCancel(e, id) == e.(tombstones := e.tombstones + {id})
  {
  }

  /** The request is over or dropped, its lease released, its piece failed once more. */
  ghost predicate Rejected(a: Engine, b: Engine, p: Piece, id: RequestId, reason: TerminalReason)
    requires Registered(a, p)
  {
    && OnlyPiece(a, b, p, Spoiled(a.managers[p.file][p.index])) && Released(a, b, p, id)
    && b.outstanding == a.outstanding - {id} && b.terminals == a.terminals + Reported(a, id, reason)
    && b.storage == a.storage && b.issued == a.issued && b.tombstones == a.tombstones && b.table == a.table
    && b.cfg == a.cfg && b.manifests == a.manifests && b.disposed == a.disposed
  }

  lemma Rejecting(e: Engine, f: Engine, p: Piece, id: RequestId, reason: TerminalReason)
    requires Registered(e, p) && f == Fail(Release(e, p, id), p)
    ensures Rejected(e, FinalizeOrDrop(f, id, reason), p, id, reason)
  {
    hide FinalizeOrDrop, Fail, Release, OnlyPiece, Released, Reported;
    var l := Release(e, p, id);
    ReleasedLease(e, p, id);
    FailPiece(l, p);
    var was := e.managers[p.file][p.index];
    SameStart(e, l, f, p, Spoiled(was));
    OverOrDropped(f, id, reason);
    ReportedSame(e, f, id, reason);
    var b := FinalizeOrDrop(f, id, reason);
    PieceFrame2(e, f, b, p, Spoiled(was));
    ReleasedFrame(e, l, b, p, id);
  }

  /** A rejection by the peer asked: a direct request is over, any other is made again. */
  lemma RejectEnds(e: Engine, peer: PeerId, id: RequestId, env: Env)
    requires id in e.outstanding && e.outstanding[id].peer == peer ==> Registered(e, e.outstanding[id].piece)
    ensures var b := ReceiveReject(e, peer, id, env);
      if id in e.outstanding && e.outstanding[id].peer == peer then
        var r := e.outstanding[id];
        if r.kind.Direct? then Rejected(e, b, r.piece, id, ProviderReject)
        else exists m :: Rejected(e, m, r.piece, id, ProviderReject) && Registered(m, r.piece) && AskedAgain(m, b, r.piece, r.peer, Some(r.kind), env)
      else b == e
  {
    hide FinalizeOrDrop, Fail, Release, AskAgain, AskedAgain, Rejected;
    if id in e.outstanding && e.outstanding[id].peer == peer {
      var r := e.outstanding[id];
      var m := FinalizeOrDrop(Fail(Release(e, r.piece, id), r.piece), id, ProviderReject);
      Rejecting(e, Fail(Release(e, r.piece, id), r.piece), r.piece, id, ProviderReject);
      StaysRegistered(e, m, r.piece, id, ProviderReject);
      AsksAgain(m, r.piece, r.peer, Some(r.kind), env);
    }
  }

  lemma StaysRegistered(a: Engine, b: Engine, p: Piece, id: RequestId, reason: TerminalReason)
    requires Registered(a, p) && Rejected(a, b, p, id, reason)
    ensures Registered(b, p) && b.managers[p.file][p.index] == Spoiled(a.managers[p.file][p.index])
  {
  }

  // ----- headers and refused chunks -----

  /** A refused chunk: its request is over or dropped and what arrived of it is gone; one that was not
      direct is made again, if the peer could be told. */
  lemma ChunkRefused(e: Engine, peer: PeerId, h: Header, env: Env)
    requires Registered(e, h.piece)
    ensures var b, e1 := RejectChunk(e, peer, h, env), e.(incoming := e.incoming - {h.id});
      if !env.replyOk || (h.id in e.outstanding && e.outstanding[h.id].kind.Direct?) then Rejected(e1, b, h.piece, h.id, InvalidChunk)
      else exists m :: Rejected(e1, m, h.piece, h.id, InvalidChunk) && Registered(m, h.piece)
                       && AskedAgain(m, b, h.piece, peer, if h.id in e.outstanding then Some(e.outstanding[h.id].kind) else None, env)
  {
    hide FinalizeOrDrop, Fail, Release, AskAgain, AskedAgain, Rejected;
    var e1 := e.(incoming := e.incoming - {h.id});
    var m := FinalizeOrDrop(Fail(Release(e1, h.piece, h.id), h.piece), h.id, InvalidChunk);
    assert m == RejectChunkCore(e, h);
    Rejecting(e1, Fail(Release(e1, h.piece, h.id), h.piece), h.piece, h.id, InvalidChunk);
    StaysRegistered(e1, m, h.piece, h.id, InvalidChunk);
    AsksAgain(m, h.piece, peer, KindOf(e, h.id), env);
  }

  /** A header counts only for a request under way to its peer for its piece that the peer did not cancel.
      It waits for its chunk; repeated, it changes nothing; while another one waits, it is refused. */
  lemma HeaderHandled(e: Engine, peer: PeerId, h: Header, env: Env)
    ensures var b := ReceiveHeader(e, peer, h, env);
      if h.id !in e.outstanding || e.outstanding[h.id].peer != peer || e.outstanding[h.id].piece != h.piece || h.id in e.tombstones then b == e
      else if peer !in e.pending then b == e.(pending := e.pending[peer := h])
      else if e.pending[peer] == h then b == e
      else b == RejectChunk(e, peer, h, env)
  {
    hide RejectChunk;
  }

  /** A chunk without a header is dropped. */
  lemma ChunkWithoutHeader(e: Engine, peer: PeerId, frame: Bytes, env: Env)
    requires peer !in e.pending
    ensures ReceiveBinary(e, peer, frame, env) == e
  {
    hide RejectChunk, Deliver, AppendChunk;
  }
}
