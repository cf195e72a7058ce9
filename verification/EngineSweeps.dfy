/** Handlers that go over many requests at once: leases that ran out, cancellation, disposal; and what
    becomes of a piece once it was received. */
module EngineSweeps {
  import opened Common
  import opened Pieces
  import opened ChunkAssembly
  import opened Availability
  import opened GridChoice
  import opened Engine
  import opened EngineRuns
  import opened EngineOutcomes
  import opened EngineFill
  import opened EngineHandlers

  // ----- leases -----

  /** The lease under which a request was made ran out. */
  predicate RanOut(e: Engine, id: RequestId, now: int) {
    && id < |e.issued| && e.issued[id].request.piece in e.leases
    && e.leases[e.issued[id].request.piece].id == id && e.leases[e.issued[id].request.piece].expiresAt <= now
  }

  function MissingOnceMore(was: PieceState): PieceState {
    PieceState(Missing, was.size, 0, was.retryCount + 1, None)
  }

  /** Of the leases of the first `n` requests those that ran out are gone, with their requests and what
      arrived for them; a piece still asked for under such a lease is missing again. Nothing else happens. */
  ghost predicate LeasesSwept(a: Engine, b: Engine, now: int, n: nat) {
    && LeasesGone(a, b, now, n) && RequestsGone(a, b, now, n) && ArrivedGone(a, b, now, n) && PiecesSwept(a, b, now, n)
    && b == a.(leases := b.leases, outstanding := b.outstanding, incoming := b.incoming, managers := b.managers)
  }

  ghost predicate LeasesGone(a: Engine, b: Engine, now: int, n: nat) {
    && (forall p :: p in b.leases <==> p in a.leases && !(a.leases[p].id < n && a.leases[p].expiresAt <= now))
    && (forall p :: p in b.leases ==> b.leases[p] == a.leases[p])
  }

  ghost predicate RequestsGone(a: Engine, b: Engine, now: int, n: nat) {
    && (forall id :: id in b.outstanding <==> id in a.outstanding && !(id < n && RanOut(a, id, now)))
    && (forall id :: id in b.outstanding ==> b.outstanding[id] == a.outstanding[id])
  }

  ghost predicate ArrivedGone(a: Engine, b: Engine, now: int, n: nat) {
    && (forall id :: id in b.incoming <==> id in a.incoming && !(id < n && id in a.outstanding && RanOut(a, id, now)))
    && (forall id :: id in b.incoming ==> b.incoming[id] == a.incoming[id])
  }

  ghost predicate PiecesSwept(a: Engine, b: Engine, now: int, n: nat) {
    && b.managers.Keys == a.managers.Keys && (forall f :: f in a.managers ==> |b.managers[f]| == |a.managers[f]|)
    && (forall f, i: nat :: f in a.managers && i < |a.managers[f]| ==>
          b.managers[f][i] == if Swept(a, Piece(f, i), now, n) then MissingOnceMore(a.managers[f][i]) else a.managers[f][i])
  }

  predicate Swept(e: Engine, p: Piece, now: int, n: nat) {
    p in e.leases && e.leases[p].id < n && e.leases[p].expiresAt <= now && e.leases[p].id in e.outstanding
  }

  lemma ReopenMeans(e: Engine, p: Piece)
    requires Has(e, p)
    ensures WithPiece(e, Reopen(e, p), p, MissingOnceMore(StateOf(e, p)))
  {
    hide SameShape;
  }

  /** What one lease that ran out takes with it. */
  ghost predicate TakenBy(a: Engine, b: Engine, id: RequestId)
    requires id < |a.issued| && Has(a, a.issued[id].request.piece)
  {
    var p := a.issued[id].request.piece;
    && b.leases == a.leases - {p} && b.outstanding == a.outstanding - {id}
    && b.incoming == (if id in a.outstanding then a.incoming - {id} else a.incoming)
    && (if id in a.outstanding then OnlyPiece(a, b, p, MissingOnceMore(StateOf(a, p))) else b.managers == a.managers)
    && b == a.(leases := b.leases, outstanding := b.outstanding, incoming := b.incoming, managers := b.managers)
  }

  lemma LeaseRunsOut(e: Engine, id: RequestId, now: int)
    requires Ledger(e) && id < |e.issued|
    ensures Has(e, e.issued[id].request.piece)
    ensures !RanOut(e, id, now) ==> ExpireLease(e, id, now) == e
    ensures RanOut(e, id, now) ==> TakenBy(e, ExpireLease(e, id, now), id)
  {
    hide Reopen, OnlyPiece, SameShape;
    if RanOut(e, id, now) && id in e.outstanding {
      UnderWayTaken(e, id);
      assert ExpireLease(e, id, now) == TakenAway(e, id);
    } else if RanOut(e, id, now) {
      assert e.outstanding - {id} == e.outstanding;
    }
  }

  function TakenAway(e: Engine, id: RequestId): Engine
    requires id < |e.issued| && Has(e, e.issued[id].request.piece)
  {
    var p := e.issued[id].request.piece;
    Reopen(e.(leases := e.leases - {p}, outstanding := e.outstanding - {id}, incoming := e.incoming - {id}), p)
  }

  lemma UnderWayTaken(e: Engine, id: RequestId)
    requires id < |e.issued| && Has(e, e.issued[id].request.piece) && id in e.outstanding
    ensures TakenBy(e, TakenAway(e, id), id)
  {
    hide Reopen, OnlyPiece;
    var p := e.issued[id].request.piece;
    var d := e.(leases := e.leases - {p}, outstanding := e.outstanding - {id}, incoming := e.incoming - {id});
    ReopenMeans(d, p);
    SameStart(e, d, Reopen(d, p), p, MissingOnceMore(StateOf(e, p)));
  }

  lemma SweepOneMore(a: Engine, b: Engine, c: Engine, now: int, n: nat)
    requires Ledger(a) && LeasesOfIssued(a) && n < |a.issued| && LeasesSwept(a, b, now, n)
    requires Has(b, a.issued[n].request.piece)
    requires if RanOut(b, n, now) then TakenBy(b, c, n) else c == b
    ensures LeasesSwept(a, c, now, n + 1)
  {
    hide PiecesSwept, OnlyPiece, Ledger, LeasesOfIssued, RanOut;
    SameRanOut(a, b, now, n);
    SweepPieces(a, b, c, now, n);
    OneLease(a, n);
    if RanOut(a, n, now) {
      SweepRequests(a, b, c, now, n);
    } else {
      KeepRequests(a, b, now, n);
    }
  }

  lemma OneLease(a: Engine, n: nat)
    requires LeasesOfIssued(a) && n < |a.issued|
    ensures forall q :: q in a.leases && a.leases[q].id == n ==> q == a.issued[n].request.piece
  {
    forall q | q in a.leases && a.leases[q].id == n
      ensures q == a.issued[n].request.piece
    {
      assert LeaseOfIssued(a, q);
    }
  }

  lemma SameRanOut(a: Engine, b: Engine, now: int, n: nat)
    requires n < |a.issued| && LeasesSwept(a, b, now, n)
    ensures RanOut(b, n, now) <==> RanOut(a, n, now)
    ensures n in b.outstanding <==> n in a.outstanding
  {
    hide PiecesSwept;
  }

  lemma SweepRequests(a: Engine, b: Engine, c: Engine, now: int, n: nat)
    requires n < |a.issued| && LeasesSwept(a, b, now, n) && RanOut(a, n, now) && RanOut(b, n, now)
    requires forall q :: q in a.leases && a.leases[q].id == n ==> q == a.issued[n].request.piece
    requires Has(b, a.issued[n].request.piece) && TakenBy(b, c, n) && (n in b.outstanding <==> n in a.outstanding)
    requires PiecesSwept(a, c, now, n + 1)
    ensures LeasesSwept(a, c, now, n + 1)
  {
    hide PiecesSwept, OnlyPiece, LeasesGone, RequestsGone, ArrivedGone, RanOut;
    SweepLeases(a, b, c, now, n);
    SweepUnderWay(a, b, c, now, n);
    SweepArrived(a, b, c, now, n);
  }

  lemma SweepLeases(a: Engine, b: Engine, c: Engine, now: int, n: nat)
    requires n < |a.issued| && LeasesGone(a, b, now, n) && RanOut(a, n, now) && c.leases == b.leases - {a.issued[n].request.piece}
    requires forall q :: q in a.leases && a.leases[q].id == n ==> q == a.issued[n].request.piece
    ensures LeasesGone(a, c, now, n + 1)
  {
  }

  lemma SweepUnderWay(a: Engine, b: Engine, c: Engine, now: int, n: nat)
    requires RequestsGone(a, b, now, n) && RanOut(a, n, now) && c.outstanding == b.outstanding - {n}
    ensures RequestsGone(a, c, now, n + 1)
  {
    hide RanOut;
  }

  lemma SweepArrived(a: Engine, b: Engine, c: Engine, now: int, n: nat)
    requires ArrivedGone(a, b, now, n) && RanOut(a, n, now) && c.incoming == if n in a.outstanding then b.incoming - {n} else b.incoming
    ensures ArrivedGone(a, c, now, n + 1)
  {
    hide RanOut;
  }

  lemma KeepRequests(a: Engine, b: Engine, now: int, n: nat)
    requires n < |a.issued| && LeasesSwept(a, b, now, n) && !RanOut(a, n, now)
    requires forall q :: q in a.leases && a.leases[q].id == n ==> q == a.issued[n].request.piece
    requires PiecesSwept(a, b, now, n + 1)
    ensures LeasesSwept(a, b, now, n + 1)
  {
    hide PiecesSwept;
  }

  lemma SweepPieces(a: Engine, b: Engine, c: Engine, now: int, n: nat)
    requires Ledger(a) && LeasesOfIssued(a) && n < |a.issued| && PiecesSwept(a, b, now, n)
    requires (RanOut(b, n, now) <==> RanOut(a, n, now)) && (n in b.outstanding <==> n in a.outstanding) && b.issued == a.issued
    requires Has(b, a.issued[n].request.piece) && if RanOut(b, n, now) then TakenBy(b, c, n) else c == b
    ensures PiecesSwept(a, c, now, n + 1)
  {
    var p := a.issued[n].request.piece;
    forall f, i: nat | f in a.managers && i < |a.managers[f]|
      ensures c.managers[f][i] == if Swept(a, Piece(f, i), now, n + 1) then MissingOnceMore(a.managers[f][i]) else a.managers[f][i]
    {
      var q := Piece(f, i);
      assert q in a.leases ==> LeaseOfIssued(a, q);
      assert q == p <==> f == p.file && i == p.index;
    }
  }

  lemma {:induction false} SweepFirst(e: Engine, now: int, n: nat)
    requires Ledger(e) && LeasesOfIssued(e) && n <= |e.issued|
    ensures LeasesSwept(e, ExpireLeasesFirst(e, now, n), now, n)
  {
    hide LeasesSwept, ExpireLease, OnlyPiece, Ledger, LeasesOfIssued;
    if n == 0 {
      NothingSwept(e, now);
    } else {
      var b := ExpireLeasesFirst(e, now, n - 1);
      SweepFirst(e, now, n - 1);
      SweptLedger(e, b, now, n - 1);
      LeaseRunsOut(b, n - 1, now);
      SweepOneMore(e, b, ExpireLease(b, n - 1, now), now, n - 1);
    }
  }

  lemma NothingSwept(e: Engine, now: int)
    ensures LeasesSwept(e, e, now, 0)
  {
  }

  lemma SweptLedger(a: Engine, b: Engine, now: int, n: nat)
    requires Ledger(a) && n < |a.issued| && LeasesSwept(a, b, now, n)
    ensures Ledger(b) && b.issued == a.issued && Has(b, a.issued[n].request.piece)
  {
    forall k | 0 <= k < |b.issued|
      ensures Has(b, b.issued[k].request.piece)
    {
      assert Has(a, a.issued[k].request.piece);
    }
  }

  /** `expireRequestLeases`: exactly the leases that ran out are gone; requests still under way under them are
      dropped without a terminal event, and their pieces are missing again with one more retry on record. */
  lemma LeaseExpiryMeaning(e: Engine, now: int)
    requires Books(e)
    ensures LeasesSwept(e, ExpireLeases(e, now), now, |e.issued|)
    ensures forall p :: p in ExpireLeases(e, now).leases <==> p in e.leases && e.leases[p].expiresAt > now
  {
    hide ExpireLeasesFirst, Ledger, Arrivals, PiecesPerManifest;
    SweepFirst(e, now, |e.issued|);
    forall p | p in e.leases
      ensures e.leases[p].id < |e.issued|
    {
      assert LeaseOfIssued(e, p);
    }
  }

  /** A file that nobody advertised yet is taken to be held in full by the owner, for thirty seconds. */
  lemma OwnerHoldsAll(e: Engine, file: FileId, o: GridOptions, now: int, i: nat)
    requires file in e.manifests && file !in e.table && i < |e.manifests[file]|
    ensures var b := Bootstrap(e, file, o, now);
      && file in b.table && |b.table[file].providers| == |e.manifests[file]|
      && b.table[file].providers[i] == [Provider(o.owner, Owner, now, now + 30_000)]
      && (forall f :: f != file ==> (f in b.table <==> f in e.table) && (f in e.table ==> b.table[f] == e.table[f]))
      && b == e.(table := b.table)
  {
    var n := |e.manifests[file]|;
    var m := PieceMap(file, seq(n, k => k), n, 1, now);
    assert m.verified[i] == i;
    assert NewFile(n).providers[i] == [];
  }

  // ----- cancelling -----

  predicate Fits(want: Option<nat>, have: nat) {
    want == None || want == Some(have)
  }

  /** The requests that a selector is about. */
  predicate Selected(s: Selector, r: Request) {
    && r.kind.Direct? && Fits(s.file, r.piece.file) && Fits(s.peer, r.peer) && Fits(s.controller, r.kind.info.controller)
    && Fits(s.window, r.kind.info.window) && Fits(s.generation, r.kind.info.generation)
  }

  predicate SelectedWindow(s: Selector, key: WindowKey, w: Window) {
    && Fits(s.window, key) && Fits(s.file, w.file) && Fits(s.peer, w.peer)
    && Fits(s.controller, w.controller) && Fits(s.generation, w.generation)
  }

  predicate Gone(e: Engine, s: Selector, id: RequestId) {
    id in e.outstanding && Selected(s, e.outstanding[id])
  }

  /** Their terminal events, in the order of the ids. */
  function CancelReports(e: Engine, s: Selector, n: nat): seq<Terminal> {
    if n == 0 then []
    else CancelReports(e, s, n - 1) + if Gone(e, s, n - 1) then
        [Terminal(n - 1, TerminalReason.Cancelled, e.outstanding[n - 1].kind.info.retryCount, false, e.outstanding[n - 1].kind.info.window)]
      else []
  }

  /** The selected ones among the first `n` requests are over, and nothing is kept for them. */
  ghost predicate Withdrawn(a: Engine, b: Engine, s: Selector, n: nat) {
    && Withheld(a, b, s, n) && Discarded(a, b, s, n) && b.terminals == a.terminals + CancelReports(a, s, n)
    && (forall id: RequestId :: id in b.tombstones <==> id in a.tombstones || (id < n && Gone(a, s, id)))
    && b == a.(outstanding := b.outstanding, timers := b.timers, incoming := b.incoming, pending := b.pending,
               tombstones := b.tombstones, terminals := b.terminals)
  }

  ghost predicate Withheld(a: Engine, b: Engine, s: Selector, n: nat) {
    && (forall id :: id in b.outstanding <==> id in a.outstanding && !(id < n && Gone(a, s, id)))
    && (forall id :: id in b.outstanding ==> b.outstanding[id] == a.outstanding[id])
    && (forall id :: id in b.timers <==> id in a.timers && !(id < n && Gone(a, s, id)))
  }

  ghost predicate Discarded(a: Engine, b: Engine, s: Selector, n: nat) {
    && b.incoming.Keys == (set id | id in a.incoming && !(id < n && Gone(a, s, id)))
    && (forall q :: q in b.pending <==> q in a.pending && !(a.pending[q].id < n && Gone(a, s, a.pending[q].id)))
    && (forall q :: q in b.pending ==> b.pending[q] == a.pending[q])
  }

  lemma WithdrawOne(e: Engine, s: Selector, id: RequestId)
    ensures !Gone(e, s, id) ==> CancelOne(e, s, id) == e
    ensures Gone(e, s, id) ==>
      && id in e.outstanding && e.outstanding[id].kind.Direct?
      && var t, b := e.(tombstones := e.tombstones + {id}), CancelOne(e, s, id);
      && Ended(t, b, id, e.outstanding[id], TerminalReason.Cancelled) && Rest(t, b)
      && b.windows == e.windows && b.exhaustions == e.exhaustions
  {
    hide Finalize, Ended, Rest;
    assert id in e.outstanding ==> (SelectsRequest(s, e.outstanding[id]) <==> Selected(s, e.outstanding[id]));
    if Gone(e, s, id) {
      var t := e.(tombstones := e.tombstones + {id});
      RequestEnds(t, id, e.outstanding[id], TerminalReason.Cancelled);
    }
  }

  lemma WithdrawOneMore(a: Engine, b: Engine, c: Engine, s: Selector, n: nat)
    requires Withdrawn(a, b, s, n) && Gone(a, s, n) && n in a.outstanding && n in b.outstanding
    requires b.outstanding[n] == a.outstanding[n] && a.outstanding[n].kind.Direct?
    requires var t := b.(tombstones := b.tombstones + {n});
      && Ended(t, c, n, b.outstanding[n], TerminalReason.Cancelled) && Rest(t, c) && c.windows == b.windows && c.exhaustions == b.exhaustions
    ensures Withdrawn(a, c, s, n + 1)
  {
    hide Gone, Withheld, Discarded, CancelReports;
    ReportOneMore(a, s, n);
    var info := a.outstanding[n].kind.info;
    var t := Terminal(n, TerminalReason.Cancelled, info.retryCount, false, info.window);
    assert a.terminals + (CancelReports(a, s, n) + [t]) == (a.terminals + CancelReports(a, s, n)) + [t];
    WithholdOneMore(a, b, c, s, n);
    DiscardOneMore(a, b, c, s, n);
  }

  lemma ReportOneMore(a: Engine, s: Selector, n: nat)
    requires Gone(a, s, n)
    ensures a.outstanding[n].kind.Direct?
    ensures var info := a.outstanding[n].kind.info;
      CancelReports(a, s, n + 1) == CancelReports(a, s, n) + [Terminal(n, TerminalReason.Cancelled, info.retryCount, false, info.window)]
  {
  }

  lemma WithholdOneMore(a: Engine, b: Engine, c: Engine, s: Selector, n: nat)
    requires Withheld(a, b, s, n) && Gone(a, s, n) && c.outstanding == b.outstanding - {n} && c.timers == b.timers - {n}
    ensures Withheld(a, c, s, n + 1)
  {
    hide Gone;
  }

  lemma DiscardOneMore(a: Engine, b: Engine, c: Engine, s: Selector, n: nat)
    requires Discarded(a, b, s, n) && Gone(a, s, n) && c.incoming == b.incoming - {n}
    requires forall q :: q in c.pending <==> q in b.pending && b.pending[q].id != n
    requires forall q :: q in c.pending ==> c.pending[q] == b.pending[q]
    ensures Discarded(a, c, s, n + 1)
  {
    hide Gone;
  }

  lemma WithdrawNoMore(a: Engine, b: Engine, s: Selector, n: nat)
    requires Withdrawn(a, b, s, n) && !Gone(a, s, n)
    ensures Withdrawn(a, b, s, n + 1)
  {
    hide Gone;
    assert CancelReports(a, s, n) + [] == CancelReports(a, s, n);
    hide CancelReports;
  }

  lemma {:induction false} WithdrawFirst(e: Engine, s: Selector, n: nat)
    ensures Withdrawn(e, CancelRequests(e, s, n), s, n)
  {
    hide Withdrawn, CancelOne, Ended, Rest, Selected, Gone;
    if n == 0 {
      NothingWithdrawn(e, s);
    } else {
      var b := CancelRequests(e, s, n - 1);
      WithdrawFirst(e, s, n - 1);
      StillThereToo(e, b, s, n - 1);
      WithdrawOne(b, s, n - 1);
      if Gone(e, s, n - 1) {
        ReportOneMore(e, s, n - 1);
        WithdrawOneMore(e, b, CancelOne(b, s, n - 1), s, n - 1);
      } else {
        WithdrawNoMore(e, b, s, n - 1);
      }
    }
  }

  lemma NothingWithdrawn(e: Engine, s: Selector)
    ensures Withdrawn(e, e, s, 0)
  {
    assert e.terminals + [] == e.terminals;
  }

  lemma StillThereToo(a: Engine, b: Engine, s: Selector, n: nat)
    requires Withdrawn(a, b, s, n)
    ensures n in b.outstanding <==> n in a.outstanding
    ensures n in b.outstanding ==> b.outstanding[n] == a.outstanding[n]
    ensures Gone(a, s, n) <==> Gone(b, s, n)
    ensures Gone(a, s, n) ==> n in b.outstanding
  {
  }

  /** The selected ones among the first `n` windows take no more work, under a generation not used before. */
  ghost predicate Stopped(a: Engine, b: Engine, s: Selector, n: nat)
    requires n <= |a.windowOrder|
  {
    && b.windows.Keys == a.windows.Keys && a.nextGeneration <= b.nextGeneration
    && (forall key :: key in a.windows ==>
          if key in a.windowOrder[..n] && SelectedWindow(s, key, a.windows[key]) then
            && a.nextGeneration <= b.windows[key].generation < b.nextGeneration
            && b.windows[key] == a.windows[key].(disabled := true, generation := b.windows[key].generation)
          else b.windows[key] == a.windows[key])
    && b == a.(windows := b.windows, nextGeneration := b.nextGeneration)
  }

  lemma {:induction false} StopFirst(e: Engine, s: Selector, n: nat)
    requires n <= |e.windowOrder|
    ensures Stopped(e, DisableWindows(e, s, n), s, n)
  {
    hide DisableWindow;
    if n > 0 {
      var b := DisableWindows(e, s, n - 1);
      StopFirst(e, s, n - 1);
      StopOne(e, b, s, n - 1);
    }
  }

  lemma StopOne(a: Engine, b: Engine, s: Selector, n: nat)
    requires n < |a.windowOrder| && Stopped(a, b, s, n)
    ensures Stopped(a, DisableWindow(b, s, a.windowOrder[n]), s, n + 1)
  {
    var key := a.windowOrder[n];
    assert a.windowOrder[..n + 1] == a.windowOrder[..n] + [key];
    var c := DisableWindow(b, s, key);
    forall k | k in a.windows
      ensures k in a.windowOrder[..n + 1] <==> k in a.windowOrder[..n] || k == key
      ensures SelectsWindow(s, k, a.windows[k]) <==> SelectedWindow(s, k, a.windows[k])
    {
    }
  }

  /** `cancelDirectRequests`: every selected window that is tracked in order is disabled under a new
      generation, every selected request is over as cancelled and its later answers refused, and nothing
      else changes. */
  lemma CancelMeaning(e: Engine, s: Selector)
    requires FreshIds(e)
    ensures var d := DisableWindows(e, s, |e.windowOrder|);
      && Stopped(e, d, s, |e.windowOrder|) && Withdrawn(d, CancelDirect(e, s), s, |e.issued|)
    ensures var b := CancelDirect(e, s);
      && (forall id :: id in b.outstanding <==> id in e.outstanding && !Selected(s, e.outstanding[id]))
      && b.terminals == e.terminals + CancelReports(e, s, |e.issued|)
      && b.managers == e.managers && b.storage == e.storage && b.leases == e.leases && b.issued == e.issued
  {
    hide Selected, DisableWindows, CancelRequests, CancelReports;
    var d := DisableWindows(e, s, |e.windowOrder|);
    StopFirst(e, s, |e.windowOrder|);
    WithdrawFirst(d, s, |e.issued|);
    SameReports(e, d, s, |e.issued|);
  }

  lemma {:induction false} SameReports(a: Engine, b: Engine, s: Selector, n: nat)
    requires b.outstanding == a.outstanding
    ensures CancelReports(b, s, n) == CancelReports(a, s, n)
  {
    hide Selected;
    if n > 0 {
      SameReports(a, b, s, n - 1);
    }
  }

  /** `dispose`: as if everything was cancelled, and then nothing is left under way; a second time does nothing. */
  lemma DisposeMeaning(e: Engine)
    requires FreshIds(e)
    ensures e.disposed ==> Dispose(e) == e
    ensures !e.disposed ==>
      var b := Dispose(e);
      && b.disposed && b.outstanding == map[] && b.timers == {} && b.windows == map[] && b.windowOrder == []
      && b.terminals == e.terminals + CancelReports(e, Selector(None, None, None, None, None), |e.issued|)
      && b.managers == e.managers && b.storage == e.storage && b.leases == e.leases && b.issued == e.issued
  {
    hide CancelDirect, CancelReports;
    CancelMeaning(e, Everything);
  }

  // ----- after a receipt -----

  /** Once a piece was received, the request it came for decides: an error ends it as cancelled with its window
      disabled and the piece failed; a right piece, a direct request or a peer that cannot be told ends it
      there; a grid request for another outcome is made again. */
  lemma DeliveryFollows(e: Engine, peer: PeerId, h: Header, data: Bytes, env: Env)
    requires h.id in e.outstanding && e.outstanding[h.id].peer == peer && e.outstanding[h.id].piece == h.piece
    requires Registered(e, h.piece) && Registered(ReceivePiece(e, h.piece, h.id, data, env).0, h.piece)
    ensures var b, (next, result), r := Deliver(e, peer, h, data, env), ReceivePiece(e, h.piece, h.id, data, env), e.outstanding[h.id];
      if result == Threw then
        && OnlyPiece(next, b, h.piece, Spoiled(next.managers[h.piece.file][h.piece.index]))
        && b.storage == next.storage && b.terminals == next.terminals + Reported(next, h.id, TerminalReason.Cancelled)
        && b.manifests == next.manifests && b.outstanding.Keys <= next.outstanding.Keys
        && (r.kind.Direct? && r.kind.info.window in next.windows ==>
              b.windows == next.windows[r.kind.info.window := next.windows[r.kind.info.window].(disabled := true)])
      else if result == Ack || !env.replyOk || !r.kind.Grid? then b == next
      else AskedAgain(next, b, h.piece, peer, Some(r.kind), env)
  {
    hide ReceivePiece, AskAgain, AskedAgain, Fail, Finalize, OnlyPiece, Reported;
    var (next, result) := ReceivePiece(e, h.piece, h.id, data, env);
    var r := e.outstanding[h.id];
    var l := LifecycleError(next, Some(r));
    FailPiece(l, h.piece);
    var f := Fail(l, h.piece);
    CancelEnds(f, h.id);
    ReportedFrame(next, f, h.id);
    SameStart(next, l, f, h.piece, Spoiled(next.managers[h.piece.file][h.piece.index]));
    PieceFrame2(next, f, Finalize(f, h.id, TerminalReason.Cancelled), h.piece, Spoiled(next.managers[h.piece.file][h.piece.index]));
    AsksAgain(next, h.piece, peer, Some(r.kind), env);
  }

  /** The last chunk of a right piece that can be stored and saved: the piece is verified exactly if the new piece
      map reaches all known peers. If it does not, the piece has failed once more although it is stored, its
      request ended as verified, and its window takes no more work. */
  lemma VerifiedExactly(e: Engine, peer: PeerId, frame: Bytes, env: Env, h: Header, data: Bytes)
    requires peer in e.pending && h == e.pending[peer]
    requires AppendChunk(if h.id in e.incoming then Some(e.incoming[h.id]) else None, peer, h, frame) == Appended.Complete(data)
    requires h.id in e.outstanding && e.outstanding[h.id].peer == peer && e.outstanding[h.id].piece == h.piece && h.id !in e.tombstones
    requires Registered(e, h.piece) && Genuine(e, h.piece, data) && env.writeOk && env.persistOk
    ensures var b, was, r := ReceiveBinary(e, peer, frame, env), e.managers[h.piece.file][h.piece.index], e.outstanding[h.id];
      && Registered(b, h.piece)
      && (b.managers[h.piece.file][h.piece.index].status == Verified <==> env.broadcastOk)
      && b.storage == e.storage[h.piece := data] && b.terminals == e.terminals + Reported(e, h.id, VerifiedOk)
      && (!env.broadcastOk ==>
            && b.managers[h.piece.file][h.piece.index] == PieceState(Failed, was.size, 0, was.retryCount + 1, None)
            && (r.kind.Direct? && r.kind.info.window in e.windows ==>
                  r.kind.info.window in b.windows && b.windows[r.kind.info.window].disabled))
  {
    hide AppendChunk, ReceivePiece, OnlyPiece, Released, NoLongerAsked, Genuine, ReceiveBinary, Reported, Deliver, ReceiptFrame, OnlyDropped, AskedAgain;
    var was := e.managers[h.piece.file][h.piece.index];
    if env.broadcastOk {
      LastChunkVerifies(e, peer, frame, env, h, data);
      SweptPiece(e, ReceiveBinary(e, peer, frame, env), h.piece, EngineOutcomes.Complete(was));
    } else {
      ChunkIsLast(e, peer, frame, env, h, data);
      var e2 := e.(pending := e.pending - {peer}, incoming := e.incoming - {h.id});
      GenuineFrame(e, e2, h.piece, data);
      RightPieceIsVerified(e2, h.piece, h.id, data, env);
      RightPieceLeaves(e2, h.piece, h.id, data, env);
      var next := ReceivePiece(e2, h.piece, h.id, data, env).0;
      SweptPiece(e2, next, h.piece, EngineOutcomes.Complete(was));
      DeliveryFollows(e2, peer, h, data, env);
      SweptPiece(next, Deliver(e2, peer, h, data, env), h.piece, Spoiled(EngineOutcomes.Complete(was)));
      NothingReported(e2, next, h.piece, h.id);
      ReportedAlike(e, e2, h.id);
      assert next.terminals + [] == next.terminals;
      assert next.windows == e.windows by { ReceiptWindows(e2, next); }
    }
  }

  lemma ChunkIsLast(e: Engine, peer: PeerId, frame: Bytes, env: Env, h: Header, data: Bytes)
    requires peer in e.pending && h == e.pending[peer]
    requires AppendChunk(if h.id in e.incoming then Some(e.incoming[h.id]) else None, peer, h, frame) == Appended.Complete(data)
    ensures ReceiveBinary(e, peer, frame, env) == Deliver(e.(pending := e.pending - {peer}, incoming := e.incoming - {h.id}), peer, h, data, env)
  {
    hide Deliver, AppendChunk, RejectChunk;
  }

  lemma ReceiptWindows(a: Engine, b: Engine)
    requires ReceiptFrame(a, b)
    ensures b.windows == a.windows
  {
  }

  lemma SweptPiece(a: Engine, b: Engine, p: Piece, s: PieceState)
    requires Registered(a, p) && OnlyPiece(a, b, p, s) && (ReceiptFrame(a, b) || b.manifests == a.manifests)
    ensures Registered(b, p) && b.managers[p.file][p.index] == s
  {
  }

  lemma NothingReported(a: Engine, b: Engine, p: Piece, id: RequestId)
    requires NoLongerAsked(a, b, p, id)
    ensures Reported(b, id, TerminalReason.Cancelled) == []
  {
  }

  /** What arrives for a request that is not under way to its peer for its piece is not looked at. */
  lemma StrayDelivery(e: Engine, peer: PeerId, h: Header, data: Bytes, env: Env)
    requires h.id !in e.outstanding || e.outstanding[h.id].peer != peer || e.outstanding[h.id].piece != h.piece
    ensures Deliver(e, peer, h, data, env) == e
  {
  }

  // ----- which handler -----

  /** A disposed engine reacts to no message; otherwise each goes to its handler. */
  lemma FramesHandled(e: Engine, peer: PeerId, h: Header, frame: Bytes, env: Env)
    ensures Step(e, DoHeader(peer, h), env) == if e.disposed then e else ReceiveHeader(e, peer, h, env)
    ensures Step(e, DoBinary(peer, frame), env) == if e.disposed then e else ReceiveBinary(e, peer, frame, env)
  {
    hide ReceiveHeader, ReceiveBinary;
  }

  lemma AnswersHandled(e: Engine, peer: PeerId, id: RequestId, p: Piece, env: Env)
    ensures Step(e, DoAck(peer, id, p), env) == if e.disposed then e else ReceiveAck(e, peer, id, p)
    ensures Step(e, DoCancelMessage(id), env) == if e.disposed then e else ReceiveCancel(e, id)
    ensures Step(e, DoReject(peer, id), env) == if e.disposed then e else ReceiveReject(e, peer, id, env)
  {
    hide ReceiveAck, ReceiveCancel, ReceiveReject;
  }

  lemma MapsHandled(e: Engine, peer: PeerId, role: Role, m: PieceMap, env: Env)
    ensures Step(e, DoMap(peer, role, m), env) == if e.disposed then e else e.(table := Update(e.table, peer, role, m).0)
  {
    hide Update;
  }

  /** A grid round asks only while the file has fewer requests under way than allowed. */
  lemma RoundHandled(e: Engine, file: FileId, o: GridOptions, maxInFlightTotal: nat, env: Env)
    ensures var load := |set id | id in e.outstanding && e.outstanding[id].piece.file == file|;
      Step(e, DoGrid(file, o, maxInFlightTotal), env) ==
        if load < maxInFlightTotal then RequestNextGrid(e, file, o, env).0 else e
  {
    hide RequestNextGrid;
    assert OfFile(e, file) == set id | id in e.outstanding && e.outstanding[id].piece.file == file;
  }

  lemma OthersHandled(e: Engine, s: Selector, id: RequestId, key: WindowKey, env: Env)
    ensures Step(e, DoExpireLeases, env) == ExpireLeases(e, env.view.now) && Step(e, DoExpireAll, env) == ExpireAll(e, env.view.now)
    ensures Step(e, DoDispose, env) == Dispose(e) && Step(e, DoCancel(s), env) == CancelDirect(e, s)
    ensures Step(e, DoTimer(id), env) == FireTimer(e, id) && Step(e, DoTask(key), env) == RunTask(e, key, env)
  {
    hide ExpireLeases, ExpireAll, Dispose, CancelDirect, FireTimer, RunTask;
  }
}
