/** Which pieces a window asks for, and when it stops. */
module EngineFill {
  import opened Common
  import opened Pieces
  import opened ChunkAssembly
  import opened Availability
  import opened GridChoice
  import opened Engine
  import E = Engine
  import opened EngineOutcomes

  /** Missing or failed, with retries left. */
  predicate Askable(s: PieceState, maxRetries: nat) {
    (s.status == Missing || s.status == Failed) && s.retryCount <= maxRetries
  }

  ghost predicate FirstAskable(s: States, maxRetries: nat, i: nat) {
    i < |s| && Askable(s[i], maxRetries) && forall j :: 0 <= j < i ==> !Askable(s[j], maxRetries)
  }

  lemma {:induction false} FirstAmong(s: States, missing: seq<nat>, maxRetries: nat)
    requires forall k :: 0 <= k < |missing| ==> missing[k] < |s| && Wanted(s[missing[k]])
    ensures NextAmong(s, missing, maxRetries).None? ==> forall k :: 0 <= k < |missing| ==> s[missing[k]].retryCount > maxRetries
    ensures NextAmong(s, missing, maxRetries).Some? ==>
      exists k :: 0 <= k < |missing| && missing[k] == NextAmong(s, missing, maxRetries).value
        && s[missing[k]].retryCount <= maxRetries && forall j :: 0 <= j < k ==> s[missing[j]].retryCount > maxRetries
    decreases |missing|
  {
    if missing != [] {
      if s[missing[0]].retryCount > maxRetries {
        var rest := missing[1..];
        FirstAmong(s, rest, maxRetries);
        if NextAmong(s, rest, maxRetries).Some? {
          var k :| 0 <= k < |rest| && rest[k] == NextAmong(s, rest, maxRetries).value
            && s[rest[k]].retryCount <= maxRetries && forall j :: 0 <= j < k ==> s[rest[j]].retryCount > maxRetries;
          assert missing[k + 1] == rest[k];
          forall j | 0 <= j < k + 1
            ensures s[missing[j]].retryCount > maxRetries
          {
            assert j > 0 ==> missing[j] == rest[j - 1];
          }
        } else {
          forall k | 0 <= k < |missing|
            ensures s[missing[k]].retryCount > maxRetries
          {
            assert k > 0 ==> missing[k] == rest[k - 1];
          }
        }
      }
    }
  }

  /** The piece asked for next is the first that may be asked for. */
  lemma NextIsFirst(s: States, maxRetries: nat)
    ensures NextPiece(s, maxRetries).Some? ==> FirstAskable(s, maxRetries, NextPiece(s, maxRetries).value)
    ensures NextPiece(s, maxRetries).None? ==> forall i :: 0 <= i < |s| ==> !Askable(s[i], maxRetries)
  {
    var missing := MissingPieces(s);
    FirstAmong(s, missing, maxRetries);
    forall i | 0 <= i < |s| && Askable(s[i], maxRetries)
      ensures NextPiece(s, maxRetries).Some? && NextPiece(s, maxRetries).value <= i
    {
      assert Wanted(s[i]);
      assert i in missing;
    }
  }

  function AskedState(was: PieceState, peer: PeerId): PieceState {
    PieceState(Requested, was.size, 0, was.retryCount, Some(peer))
  }

  /** One more request is on record, and its piece marked; a timer runs if it is direct. */
  ghost predicate OneMore(a: Engine, b: Engine, r: Request, parent: Option<RequestId>)
    requires Has(a, r.piece)
  {
    var id := |a.issued|;
    && b.issued == a.issued + [Issue(r, parent)] && b.outstanding == a.outstanding[id := r]
    && b.timers == (if r.kind.Direct? then a.timers + {id} else a.timers)
    && OnlyPiece(a, b, r.piece, AskedState(a.managers[r.piece.file][r.piece.index], r.peer))
    && b == a.(managers := b.managers, outstanding := b.outstanding, issued := b.issued, timers := b.timers)
  }

  lemma Recorded(e: Engine, r: Request, parent: Option<RequestId>)
    requires Has(e, r.piece)
    ensures OneMore(e, Record(e, r, parent), r, parent)
  {
    hide SameShape;
  }

  function DirectFor(e: Engine, piece: Piece, peer: PeerId, o: DirectOptions, now: int): Request
    requires o.window in e.windows
  {
    Request(piece, peer, Direct(DirectInfo(o.window, o.controller, o.timeoutMs, now + o.timeoutMs, e.windows[o.window].generation, o.retryCount)))
  }

  /** The next request of a tracked window, when sending and saving succeed. */
  lemma NextIsMade(e: Engine, peer: PeerId, file: FileId, o: DirectOptions, parent: Option<RequestId>, env: Env) returns (i: nat)
    requires file in e.managers && o.window in e.windows && o.timeoutMs > 0
    requires env.sendOk(|e.issued|) && env.saveOk(|e.issued|)
    ensures var (b, scheduled) := RequestNext(e, peer, file, Some(o), parent, env);
      && (scheduled <==> exists j :: 0 <= j < |e.managers[file]| && Askable(e.managers[file][j], e.cfg.maxRetries))
      && (!scheduled ==> b == e)
      && (scheduled ==>
            && FirstAskable(e.managers[file], e.cfg.maxRetries, i)
            && OneMore(e, b, DirectFor(e, Piece(file, i), peer, o, env.view.now), parent))
  {
    hide NextPiece, Record, SameShape, OneMore, FailAndFinalize, LifecycleError;
    NextIsFirst(e.managers[file], e.cfg.maxRetries);
    var next := NextPiece(e.managers[file], e.cfg.maxRetries);
    i := if next.Some? then next.value else 0;
    if next.Some? {
      var r := DirectFor(e, Piece(file, next.value), peer, o, env.view.now);
      assert Request(Piece(file, next.value), peer, MakeKind(e, Some(o), env.view.now)) == r;
      Recorded(e, r, parent);
      RecordedIs(e, r, parent);
      assert RequestNext(e, peer, file, Some(o), parent, env) == (Record(e, r, parent), true);
    }
  }

  lemma RecordedIs(e: Engine, r: Request, parent: Option<RequestId>)
    requires Has(e, r.piece)
    ensures |Record(e, r, parent).issued| == |e.issued| + 1 && Record(e, r, parent).issued[|e.issued|].request == r
    ensures |e.issued| in Record(e, r, parent).outstanding
  {
    hide SameShape;
  }

  /** A request that cannot be sent, or whose session cannot be saved, is over at once and its piece has
      failed once more; in the second case its window takes no more work. */
  lemma NextNotMade(e: Engine, peer: PeerId, file: FileId, o: DirectOptions, parent: Option<RequestId>, env: Env, i: nat)
    requires file in e.managers && file in e.manifests && |e.manifests[file]| == |e.managers[file]| && o.window in e.windows && o.timeoutMs > 0
    requires FirstAskable(e.managers[file], e.cfg.maxRetries, i) && |e.issued| !in e.outstanding
    requires !env.sendOk(|e.issued|) || !env.saveOk(|e.issued|)
    ensures var (b, scheduled) := RequestNext(e, peer, file, Some(o), parent, env);
      var r := DirectFor(e, Piece(file, i), peer, o, env.view.now);
      var reason := if !env.sendOk(|e.issued|) then SendFailed else TerminalReason.Cancelled;
      && !scheduled && b.issued == e.issued + [Issue(r, parent)] && b.outstanding == e.outstanding
      && b.terminals == e.terminals + [Terminal(|e.issued|, reason, o.retryCount, reason == SendFailed && o.retryCount < e.cfg.maxRetries, o.window)]
      && OnlyPiece(e, b, Piece(file, i), Spoiled(e.managers[file][i]))
      && (env.sendOk(|e.issued|) ==> o.window in b.windows && b.windows[o.window] == e.windows[o.window].(disabled := true))
  {
    hide NextPiece, Record, SameShape, FailAndFinalize, LifecycleError, OnlyPiece;
    var p, id := Piece(file, i), |e.issued|;
    var r := DirectFor(e, p, peer, o, env.view.now);
    NextIsFirst(e.managers[file], e.cfg.maxRetries);
    assert NextPiece(e.managers[file], e.cfg.maxRetries) == Some(i);
    assert Request(p, peer, MakeKind(e, Some(o), env.view.now)) == r;
    var m := Record(e, r, parent);
    Recorded(e, r, parent);
    RecordedIs(e, r, parent);
    var asked := AskedState(e.managers[file][i], peer);
    StillThere(e, m, p, asked);
    var b := RequestNext(e, peer, file, Some(o), parent, env).0;
    if !env.sendOk(id) {
      assert b == FailAndFinalize(m, id, p, SendFailed);
      SendFails(m, id, p, r);
    } else {
      assert b == FailAndFinalize(LifecycleError(m, RequestOf(m, id)), id, p, TerminalReason.Cancelled);
      ErrorAborts(m, id, p);
    }
    TwiceMarked(e, m, b, p, asked, Spoiled(e.managers[file][i]));
    assert e.outstanding[id := r] - {id} == e.outstanding;
  }

  lemma SendFails(e: Engine, id: RequestId, p: Piece, r: Request)
    requires DirectOf(e, id, r) && Registered(e, p)
    ensures var b, info := FailAndFinalize(e, id, p, SendFailed), r.kind.info;
      && b.issued == e.issued && b.outstanding == e.outstanding - {id}
      && b.terminals == e.terminals + [Terminal(id, SendFailed, info.retryCount, info.retryCount < e.cfg.maxRetries, info.window)]
      && OnlyPiece(e, b, p, Spoiled(e.managers[p.file][p.index]))
  {
    hide Fail, Finalize, OnlyPiece;
    FailPiece(e, p);
    RequestEnds(Fail(e, p), id, r, SendFailed);
    PieceFrame2(e, Fail(e, p), FailAndFinalize(e, id, p, SendFailed), p, Spoiled(e.managers[p.file][p.index]));
  }

  // ----- filling -----

  /** How many requests of the window are under way. */
  function Load(e: Engine, key: WindowKey): nat {
    |set id | id in e.outstanding && e.outstanding[id].kind.Direct? && e.outstanding[id].kind.info.window == key|
  }

  predicate FreshIds(e: Engine) {
    forall id :: id in e.outstanding ==> id < |e.issued|
  }

  lemma LoadGrows(a: Engine, b: Engine, r: Request, key: WindowKey)
    requires FreshIds(a) && b.outstanding == a.outstanding[|a.issued| := r] && |b.issued| == |a.issued| + 1
    requires r.kind.Direct? && r.kind.info.window == key
    ensures Load(b, key) == Load(a, key) + 1 && FreshIds(b)
  {
    var before := set id | id in a.outstanding && a.outstanding[id].kind.Direct? && a.outstanding[id].kind.info.window == key;
    var after := set id | id in b.outstanding && b.outstanding[id].kind.Direct? && b.outstanding[id].kind.info.window == key;
    assert after == before + {|a.issued|};
  }

  lemma LoadIs(e: Engine, key: WindowKey)
    ensures Load(e, key) == |InWindow(e, key)|
  {
    assert InWindow(e, key) == set id | id in e.outstanding && e.outstanding[id].kind.Direct? && e.outstanding[id].kind.info.window == key;
  }

  /** Request `k` is for a piece of the file, made for the window. */
  ghost predicate MadeFor(e: Engine, b: Engine, peer: PeerId, file: FileId, o: DirectOptions, now: int, k: nat)
    requires file in e.managers && o.window in e.windows && k < |b.issued|
  {
    var p := b.issued[k].request.piece;
    && p.file == file && p.index < |e.managers[file]| && Askable(e.managers[file][p.index], e.cfg.maxRetries)
    && b.issued[k] == Issue(DirectFor(e, p, peer, o, now), None)
    && k in b.outstanding && b.outstanding[k] == b.issued[k].request
  }

  predicate Asks(b: Engine, i: nat, from: nat, to: nat)
    requires to <= |b.issued|
  {
    exists k :: from <= k < to && b.issued[k].request.piece.index == i
  }

  /** The requests added are for the first pieces that may be asked for, in their order, until the window
      is full or there is no such piece. */
  ghost predicate Filled(e: Engine, b: Engine, peer: PeerId, file: FileId, o: DirectOptions, cap: nat, now: int)
    requires file in e.managers && o.window in e.windows
  {
    var n := |e.issued|;
    && e.issued <= b.issued && (forall k :: n <= k < |b.issued| ==> MadeFor(e, b, peer, file, o, now, k))
    && (forall j, k :: n <= j < k < |b.issued| ==> b.issued[j].request.piece.index < b.issued[k].request.piece.index)
    && (forall i: nat, k :: n <= k < |b.issued| && i < Min(b.issued[k].request.piece.index, |e.managers[file]|) ==>
          Askable(e.managers[file][i], e.cfg.maxRetries) ==> Asks(b, i, n, k))
    && Load(b, o.window) == Load(e, o.window) + (|b.issued| - n) && (|b.issued| > n ==> Load(b, o.window) <= cap)
    && (Load(b, o.window) < cap ==>
          forall i: nat :: i < |e.managers[file]| && Askable(e.managers[file][i], e.cfg.maxRetries) ==> Asks(b, i, n, |b.issued|))
    && (forall id :: id in e.outstanding ==> id in b.outstanding && b.outstanding[id] == e.outstanding[id])
    && (forall id :: id in b.outstanding ==> id in e.outstanding || n <= id < |b.issued|)
    && MarkedAsked(e, b, peer, file)
  }

  /** Exactly the pieces asked for are marked so. */
  ghost predicate MarkedAsked(e: Engine, b: Engine, peer: PeerId, file: FileId)
    requires file in e.managers
  {
    && b.managers.Keys == e.managers.Keys && (forall f :: f in e.managers && f != file ==> b.managers[f] == e.managers[f])
    && |b.managers[file]| == |e.managers[file]| && |e.issued| <= |b.issued|
    && forall i: nat :: i < |e.managers[file]| ==>
         b.managers[file][i] == if Asks(b, i, |e.issued|, |b.issued|) then AskedState(e.managers[file][i], peer) else e.managers[file][i]
  }

  lemma NothingFilled(e: Engine, peer: PeerId, file: FileId, o: DirectOptions, cap: nat, now: int)
    requires file in e.managers && o.window in e.windows
    requires Load(e, o.window) < cap ==> forall i :: 0 <= i < |e.managers[file]| ==> !Askable(e.managers[file][i], e.cfg.maxRetries)
    ensures Filled(e, e, peer, file, o, cap, now)
  {
    hide Load;
  }

  /** One request, and then what `Filled` says of the rest. */
  lemma FillOn(e: Engine, m: Engine, b: Engine, peer: PeerId, file: FileId, o: DirectOptions, cap: nat, now: int, i: nat)
    requires file in e.managers && o.window in e.windows && FreshIds(e) && Load(e, o.window) < cap
    requires FirstAskable(e.managers[file], e.cfg.maxRetries, i) && OneMore(e, m, DirectFor(e, Piece(file, i), peer, o, now), None)
    requires file in m.managers && o.window in m.windows && Filled(m, b, peer, file, o, cap, now)
    ensures Filled(e, b, peer, file, o, cap, now)
  {
    hide Filled, Load, MadeFor, Asks, MarkedAsked;
    FirstIsGone(e, m, peer, file, o, now, i);
    FillMakes(e, m, b, peer, file, o, cap, now, i);
    FillFirst(e, m, b, peer, file, o, cap, now, i);
    FillMarks(e, m, b, peer, file, o, cap, now, i);
    FillCounts(e, m, b, peer, file, o, cap, now, i);
    FilledFrom(e, b, peer, file, o, cap, now);
  }

  lemma FirstIsGone(e: Engine, m: Engine, peer: PeerId, file: FileId, o: DirectOptions, now: int, i: nat)
    requires file in e.managers && o.window in e.windows && file in m.managers
    requires FirstAskable(e.managers[file], e.cfg.maxRetries, i) && OneMore(e, m, DirectFor(e, Piece(file, i), peer, o, now), None)
    ensures forall j: nat :: j < |e.managers[file]| ==>
      && j < |m.managers[file]|
      && (Askable(m.managers[file][j], e.cfg.maxRetries) <==> j != i && Askable(e.managers[file][j], e.cfg.maxRetries))
      && (Askable(e.managers[file][j], e.cfg.maxRetries) ==> i <= j)
  {
    forall j: nat | j < |e.managers[file]|
      ensures j < |m.managers[file]|
      ensures m.managers[file][j] == if j == i then AskedState(e.managers[file][j], peer) else e.managers[file][j]
    {
    }
  }

  /** The parts of `Filled` together. */
  lemma FilledFrom(e: Engine, b: Engine, peer: PeerId, file: FileId, o: DirectOptions, cap: nat, now: int)
    requires file in e.managers && o.window in e.windows && e.issued <= b.issued
    requires var n := |e.issued|;
      && (forall k :: n <= k < |b.issued| ==> MadeFor(e, b, peer, file, o, now, k))
      && (forall j, k :: n <= j < k < |b.issued| ==> b.issued[j].request.piece.index < b.issued[k].request.piece.index)
      && (forall x: nat, k :: n <= k < |b.issued| && x < Min(b.issued[k].request.piece.index, |e.managers[file]|) ==>
            Askable(e.managers[file][x], e.cfg.maxRetries) ==> Asks(b, x, n, k))
      && (Load(b, o.window) < cap ==>
            forall x: nat :: x < |e.managers[file]| && Askable(e.managers[file][x], e.cfg.maxRetries) ==> Asks(b, x, n, |b.issued|))
    requires MarkedAsked(e, b, peer, file) && Counted(e, b, o.window, cap)
    ensures Filled(e, b, peer, file, o, cap, now)
  {
    hide Load, MadeFor, Asks, MarkedAsked, Askable;
  }

  ghost predicate Counted(e: Engine, b: Engine, key: WindowKey, cap: nat) {
    var n := |e.issued|;
    && n <= |b.issued|
    && Load(b, key) == Load(e, key) + (|b.issued| - n) && (|b.issued| > n ==> Load(b, key) <= cap)
    && (forall id :: id in e.outstanding ==> id in b.outstanding && b.outstanding[id] == e.outstanding[id])
    && (forall id :: id in b.outstanding ==> id in e.outstanding || n <= id < |b.issued|)
  }

  lemma FillCounts(e: Engine, m: Engine, b: Engine, peer: PeerId, file: FileId, o: DirectOptions, cap: nat, now: int, i: nat)
    requires file in e.managers && o.window in e.windows && FreshIds(e) && Load(e, o.window) < cap && i < |e.managers[file]|
    requires OneMore(e, m, DirectFor(e, Piece(file, i), peer, o, now), None)
    requires file in m.managers && o.window in m.windows && Filled(m, b, peer, file, o, cap, now)
    ensures Counted(e, b, o.window, cap)
  {
    LoadGrows(e, m, DirectFor(e, Piece(file, i), peer, o, now), o.window);
    hide Load, MadeFor, Asks, MarkedAsked, Askable, OnlyPiece;
    assert |m.issued| == |e.issued| + 1;
    forall id | id in e.outstanding
      ensures id in b.outstanding && b.outstanding[id] == e.outstanding[id]
    {
      assert id in m.outstanding && m.outstanding[id] == e.outstanding[id];
    }
  }

  lemma FillMakes(e: Engine, m: Engine, b: Engine, peer: PeerId, file: FileId, o: DirectOptions, cap: nat, now: int, i: nat)
    requires file in e.managers && o.window in e.windows && i < |e.managers[file]| && Askable(e.managers[file][i], e.cfg.maxRetries)
    requires OneMore(e, m, DirectFor(e, Piece(file, i), peer, o, now), None)
    requires file in m.managers && o.window in m.windows && Filled(m, b, peer, file, o, cap, now)
    requires forall j: nat :: j < |e.managers[file]| ==>
      (Askable(m.managers[file][j], e.cfg.maxRetries) <==> j != i && Askable(e.managers[file][j], e.cfg.maxRetries))
    ensures e.issued <= b.issued && forall k :: |e.issued| <= k < |b.issued| ==> MadeFor(e, b, peer, file, o, now, k)
  {
    hide Load, Askable, Asks, MarkedAsked;
    var n := |e.issued|;
    assert b.issued[n] == m.issued[n];
    forall k | n <= k < |b.issued|
      ensures MadeFor(e, b, peer, file, o, now, k)
    {
      if k > n {
        assert MadeFor(m, b, peer, file, o, now, k);
      }
    }
  }

  lemma FillFirst(e: Engine, m: Engine, b: Engine, peer: PeerId, file: FileId, o: DirectOptions, cap: nat, now: int, i: nat)
    requires file in e.managers && o.window in e.windows && i < |e.managers[file]|
    requires OneMore(e, m, DirectFor(e, Piece(file, i), peer, o, now), None)
    requires file in m.managers && o.window in m.windows && Filled(m, b, peer, file, o, cap, now)
    requires forall j: nat :: j < |e.managers[file]| ==>
      && (Askable(m.managers[file][j], e.cfg.maxRetries) <==> j != i && Askable(e.managers[file][j], e.cfg.maxRetries))
      && (Askable(e.managers[file][j], e.cfg.maxRetries) ==> i <= j)
    ensures var n := |e.issued|;
      && n < |b.issued| && (forall k :: n < k < |b.issued| ==> b.issued[k].request.piece.index > i)
      && (forall j, k :: n <= j < k < |b.issued| ==> b.issued[j].request.piece.index < b.issued[k].request.piece.index)
      && (forall x: nat, k :: n <= k < |b.issued| && x < Min(b.issued[k].request.piece.index, |e.managers[file]|) ==>
            Askable(e.managers[file][x], e.cfg.maxRetries) ==> Asks(b, x, n, k))
      && (Load(b, o.window) < cap ==>
            forall x: nat :: x < |e.managers[file]| && Askable(e.managers[file][x], e.cfg.maxRetries) ==> Asks(b, x, n, |b.issued|))
  {
    hide Load, Askable, MarkedAsked;
    var n := |e.issued|;
    assert b.issued[n] == m.issued[n];
    forall k | n < k < |b.issued|
      ensures i < b.issued[k].request.piece.index
    {
      assert MadeFor(m, b, peer, file, o, now, k);
    }
    forall x: nat, k | n <= k < |b.issued| && x < b.issued[k].request.piece.index && x < |e.managers[file]| && Askable(e.managers[file][x], e.cfg.maxRetries)
      ensures Asks(b, x, n, k)
    {
      if x == i {
        assert b.issued[n].request.piece.index == x;
      } else {
        assert k > n;
        assert Asks(b, x, n + 1, k);
      }
    }
    forall x: nat | Load(b, o.window) < cap && x < |e.managers[file]| && Askable(e.managers[file][x], e.cfg.maxRetries)
      ensures Asks(b, x, n, |b.issued|)
    {
      if x == i {
        assert b.issued[n].request.piece.index == x;
      } else {
        assert Asks(b, x, n + 1, |b.issued|);
      }
    }
  }

  lemma FillMarks(e: Engine, m: Engine, b: Engine, peer: PeerId, file: FileId, o: DirectOptions, cap: nat, now: int, i: nat)
    requires file in e.managers && o.window in e.windows && i < |e.managers[file]|
    requires OneMore(e, m, DirectFor(e, Piece(file, i), peer, o, now), None)
    requires file in m.managers && o.window in m.windows && Filled(m, b, peer, file, o, cap, now)
    requires forall k :: |m.issued| <= k < |b.issued| ==> b.issued[k].request.piece.index != i
    ensures MarkedAsked(e, b, peer, file)
  {
    hide Load, Askable, MadeFor;
    var n := |e.issued|;
    assert b.issued[n] == m.issued[n];
    assert MarkedAsked(m, b, peer, file);
    forall j: nat | j < |e.managers[file]|
      ensures b.managers[file][j] == if Asks(b, j, n, |b.issued|) then AskedState(e.managers[file][j], peer) else e.managers[file][j]
    {
      assert m.managers[file][j] == if j == i then AskedState(e.managers[file][j], peer) else e.managers[file][j];
      if j == i {
        assert b.issued[n].request.piece.index == j;
        assert !Asks(b, j, n + 1, |b.issued|);
      } else if Asks(b, j, n, |b.issued|) {
        var k :| n <= k < |b.issued| && b.issued[k].request.piece.index == j;
        assert k != n;
        assert Asks(b, j, n + 1, |b.issued|);
      }
    }
    forall f | f in e.managers && f != file
      ensures b.managers[f] == e.managers[f]
    {
      assert m.managers[f] == e.managers[f];
    }
  }

  /** Filling a tracked window, when sending and saving succeed: the first pieces that may be asked for
      are asked for, in their order, until the window is full or there is no such piece. */
  lemma {:induction false} FillMeaning(e: Engine, peer: PeerId, file: FileId, o: DirectOptions, cap: nat, env: Env)
    requires file in e.managers && o.window in e.windows && o.timeoutMs > 0 && FreshIds(e)
    requires forall id: RequestId :: id >= |e.issued| ==> env.sendOk(id) && env.saveOk(id)
    ensures Filled(e, FillLoop(e, peer, file, o, cap, env), peer, file, o, cap, env.view.now)
    decreases Unrequested(e, file)
  {
    hide Filled, Load, OneMore, Askable, RequestNext, Unrequested;
    LoadIs(e, o.window);
    if Load(e, o.window) >= cap {
      NothingFilled(e, peer, file, o, cap, env.view.now);
    } else {
      var (m, scheduled) := RequestNext(e, peer, file, Some(o), None, env);
      var i := NextIsMade(e, peer, file, o, None, env);
      if scheduled {
        OneMoreFrame(e, m, DirectFor(e, Piece(file, i), peer, o, env.view.now));
        RequestUsesUpOne(e, peer, file, Some(o), None, env);
        FillMeaning(m, peer, file, o, cap, env);
        FillOn(e, m, FillLoop(m, peer, file, o, cap, env), peer, file, o, cap, env.view.now, i);
      } else {
        NothingFilled(e, peer, file, o, cap, env.view.now);
      }
    }
  }

  /** And nothing else changes. */
  ghost predicate FillFrame(a: Engine, b: Engine) {
    b == a.(managers := b.managers, outstanding := b.outstanding, issued := b.issued, timers := b.timers)
  }

  lemma {:induction false} FillTouches(e: Engine, peer: PeerId, file: FileId, o: DirectOptions, cap: nat, env: Env)
    requires file in e.managers && o.window in e.windows && o.timeoutMs > 0 && FreshIds(e)
    requires forall id: RequestId :: id >= |e.issued| ==> env.sendOk(id) && env.saveOk(id)
    ensures FillFrame(e, FillLoop(e, peer, file, o, cap, env))
    decreases Unrequested(e, file)
  {
    hide Load, OneMore, Askable, RequestNext, Unrequested;
    LoadIs(e, o.window);
    if Load(e, o.window) < cap {
      var (m, scheduled) := RequestNext(e, peer, file, Some(o), None, env);
      var i := NextIsMade(e, peer, file, o, None, env);
      if scheduled {
        var r := DirectFor(e, Piece(file, i), peer, o, env.view.now);
        OneMoreFrame(e, m, r);
        OneMoreTouches(e, m, r);
        RequestUsesUpOne(e, peer, file, Some(o), None, env);
        FillTouches(m, peer, file, o, cap, env);
      }
    }
  }

  lemma OneMoreTouches(e: Engine, m: Engine, r: Request)
    requires Has(e, r.piece) && OneMore(e, m, r, None)
    ensures FillFrame(e, m)
  {
  }

  lemma OneMoreFrame(e: Engine, m: Engine, r: Request)
    requires Has(e, r.piece) && OneMore(e, m, r, None) && FreshIds(e)
    ensures FreshIds(m) && m.managers.Keys == e.managers.Keys && m.windows == e.windows && |m.issued| == |e.issued| + 1
    ensures m.cfg == e.cfg
  {
  }

  // ----- windows -----

  /** Opening a window: a new one is tracked under a generation of its own with its fill queued, a known
      one of the same cap and identity gets another fill unless it is disabled, and nothing else happens. */
  lemma OpenMeaning(e: Engine, peer: PeerId, file: FileId, o: DirectOptions, cap: nat, env: Env)
    requires !e.disposed
    ensures var b, key, fill := Step(e, DoOpen(peer, file, o, cap), env), o.window, Fill(o.(retryCount := 0));
      if cap > 0 && key !in e.windows then
        && b.windows == e.windows[key := Window(file, peer, o.controller, cap, e.nextGeneration, [fill], false, false)]
        && b.windowOrder == e.windowOrder + [key] && b.nextGeneration == e.nextGeneration + 1
        && b == e.(windows := b.windows, windowOrder := b.windowOrder, nextGeneration := b.nextGeneration)
      else if cap > 0 && e.windows[key].cap == cap && e.windows[key].file == file && e.windows[key].peer == peer
              && e.windows[key].controller == o.controller && !e.windows[key].disabled then
        b == e.(windows := e.windows[key := e.windows[key].(queue := e.windows[key].queue + [fill])])
      else b == e
  {
    if cap > 0 && o.window !in e.windows {
      var n := AddWindow(e, o.window, NewWindow(file, peer, o.controller, cap, e.nextGeneration));
      assert n.windows[o.window].queue + [Fill(o.(retryCount := 0))] == [Fill(o.(retryCount := 0))];
    }
  }

  /** A fill at the head of a window's queue, when sending and saving succeed. */
  lemma TaskFills(e: Engine, key: WindowKey, o: DirectOptions, env: Env)
    requires key in e.windows && !e.windows[key].disabled && !e.disposed && FreshIds(e)
    requires e.windows[key].queue != [] && e.windows[key].queue[0] == Fill(o) && o.window == key
    requires e.windows[key].file in e.managers && o.timeoutMs > 0
    requires forall id: RequestId :: id >= |e.issued| ==> env.sendOk(id) && env.saveOk(id)
    ensures var w, b := e.windows[key], RunTask(e, key, env);
      var p := e.(windows := e.windows[key := w.(queue := w.queue[1..])]);
      Filled(p, b, w.peer, w.file, o, w.cap, env.view.now) && FillFrame(p, b)
  {
    hide Filled, FillLoop, FillFrame;
    var w := e.windows[key];
    var p := e.(windows := e.windows[key := w.(queue := w.queue[1..])]);
    FillMeaning(p, w.peer, w.file, o, w.cap, env);
    FillTouches(p, w.peer, w.file, o, w.cap, env);
  }

  /** A queued retry runs: when sending and saving succeed, and the window is the one the request was made
      for and has room, the piece may be asked for again and the next request follows that one, with one
      more retry on its count. */
  lemma RetryRuns(e: Engine, key: WindowKey, id: RequestId, r: Request, env: Env)
    requires key in e.windows && !e.windows[key].disabled && !e.disposed && FreshIds(e)
    requires e.windows[key].queue != [] && e.windows[key].queue[0] == Retry(id, r)
    requires r.kind.Direct? && r.kind.info.window == key && r.kind.info.timeoutMs > 0 && id !in e.tombstones
    requires r.kind.info.generation == e.windows[key].generation && Load(e, key) < e.windows[key].cap
    requires Has(e, r.piece) && StateOf(e, r.piece).status == Failed && StateOf(e, r.piece).retryCount <= e.cfg.maxRetries
    requires env.sendOk(|e.issued|) && env.saveOk(|e.issued|)
    ensures var b := RunTask(e, key, env);
      && |b.issued| == |e.issued| + 1 && b.issued[..|e.issued|] == e.issued && b.issued[|e.issued|].parent == Some(id)
      && var made := b.issued[|e.issued|].request;
         && made.piece.file == r.piece.file && made.piece.index <= r.piece.index && made.peer == r.peer
         && made.kind == Direct(r.kind.info.(retryCount := r.kind.info.retryCount + 1, expiresAt := env.view.now + r.kind.info.timeoutMs))
         && b.outstanding == e.outstanding[|e.issued| := made]
  {
    hide Load, OneMore, RequestNext, SameShape, OnlyPiece;
    var p := PopTask(e, key);
    LoadIs(e, key);
    assert InWindow(p, key) == InWindow(e, key);
    var info, u := r.kind.info, Unfail(p, r.piece);
    var o := DirectOptions(key, info.controller, info.timeoutMs, info.retryCount + 1);
    Reopened(p, r.piece);
    assert RunTask(e, key, env) == RequestNext(u, r.peer, r.piece.file, Some(o), Some(id), env).0;
    var i := NextIsMade(u, r.peer, r.piece.file, o, Some(id), env);
    assert Askable(u.managers[r.piece.file][r.piece.index], u.cfg.maxRetries);
    NotBefore(u.managers[r.piece.file], u.cfg.maxRetries, i, r.piece.index);
    MadeIs(u, RunTask(e, key, env), DirectFor(u, Piece(r.piece.file, i), r.peer, o, env.view.now), Some(id));
  }

  lemma NotBefore(s: States, maxRetries: nat, i: nat, j: nat)
    requires FirstAskable(s, maxRetries, i) && j < |s| && Askable(s[j], maxRetries)
    ensures i <= j
  {
  }

  lemma MadeIs(a: Engine, b: Engine, r: Request, parent: Option<RequestId>)
    requires Has(a, r.piece) && OneMore(a, b, r, parent)
    ensures b.issued == a.issued + [Issue(r, parent)] && b.outstanding == a.outstanding[|a.issued| := r]
  {
  }

  lemma Reopened(e: Engine, p: Piece)
    requires Has(e, p) && StateOf(e, p).status == Failed
    ensures var u := Unfail(e, p);
      && u == e.(managers := u.managers) && p.file in u.managers && |u.managers[p.file]| == |e.managers[p.file]|
      && u.managers[p.file][p.index] == e.managers[p.file][p.index].(status := Missing)
  {
    hide SameShape;
  }
}
