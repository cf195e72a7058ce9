/** What every handler of the engine does to the books, whatever kind of request it serves:
    the ledger only grows, retries pay for requests, and verified pieces stay backed by their bytes. */
module EngineSteps {
  import opened Common
  import opened Pieces
  import opened ChunkAssembly
  import opened Availability
  import opened GridChoice
  import opened Engine

  // ----- the relation -----

  predicate NewRequest(a: Engine, b: Engine, id: RequestId, r: Request) {
    |a.issued| <= id < |b.issued| && b.issued[id].request == r
  }

  /** Requests are only added to the ledger; whatever is outstanding, pending, arriving or leased
      either was so before or, for requests and leases, belongs to a newly issued request. */
  ghost predicate Evolves(a: Engine, b: Engine) {
    && a.cfg == b.cfg && a.manifests == b.manifests && a.disposed == b.disposed && SameShape(a, b)
    && a.issued <= b.issued && a.terminals <= b.terminals
    && (forall k :: |a.issued| <= k < |b.issued| ==> Has(b, b.issued[k].request.piece))
    && (forall id :: id in b.outstanding ==>
          (id in a.outstanding && a.outstanding[id] == b.outstanding[id]) || NewRequest(a, b, id, b.outstanding[id]))
    && (forall q :: q in b.pending ==> q in a.pending && a.pending[q] == b.pending[q])
    && (forall id :: id in b.incoming ==> id in a.incoming && a.incoming[id] == b.incoming[id])
    && (forall p :: p in b.leases ==>
          (p in a.leases && a.leases[p] == b.leases[p]) || LeaseOfNew(a, b, p))
  }

  predicate LeaseOfNew(a: Engine, b: Engine, p: Piece)
    requires p in b.leases
  {
    && |a.issued| <= b.leases[p].id < |b.issued|
    && b.issued[b.leases[p].id].request.piece == p && b.issued[b.leases[p].id].request.kind.Grid?
    && b.issued[b.leases[p].id].request.peer == b.leases[p].peer
  }

  /** How often `p` was asked for. */
  function Asked(issued: seq<Issue>, p: Piece): nat {
    if issued == [] then 0
    else Asked(issued[..|issued| - 1], p) + if issued[|issued| - 1].request.piece == p then 1 else 0
  }

  /** Retries recorded, plus the request a piece that is not reported missing stands for, minus requests made. */
  function Slack(e: Engine, p: Piece): int
    requires Has(e, p)
  {
    StateOf(e, p).retryCount + (if Wanted(StateOf(e, p)) then 0 else 1) - Asked(e.issued, p)
  }

  /** Nothing uses up slack, and with slack left a new request never exceeds the retry budget. */
  ghost predicate Frugal(a: Engine, b: Engine) {
    forall p :: Has(a, p) && Has(b, p) ==>
      && Slack(b, p) >= Slack(a, p)
      && (Slack(a, p) >= 0 ==> Asked(b.issued, p) <= Max(Asked(a.issued, p), a.cfg.maxRetries + 1))
  }

  predicate Backed(e: Engine, p: Piece) {
    p in e.storage && DescriptorOf(e, p).Some? && Checks(e.cfg, e.storage[p], DescriptorOf(e, p).value)
  }

  /** Every verified piece is stored with bytes that match its descriptor. */
  ghost predicate Integral(e: Engine) {
    forall p :: Has(e, p) && StateOf(e, p).status.Verified? ==> Backed(e, p)
  }

  /** No piece is in one of the two states the engine itself never uses. */
  ghost predicate Settled(e: Engine) {
    forall p :: Has(e, p) ==> !StateOf(e, p).status.Receiving? && !StateOf(e, p).status.Received?
  }

  ghost predicate Goes(a: Engine, b: Engine) {
    Evolves(a, b) && Frugal(a, b) && (Integral(a) ==> Integral(b)) && (Settled(a) ==> Settled(b))
  }

  lemma EvolvesTrans(a: Engine, b: Engine, c: Engine)
    requires Evolves(a, b) && Evolves(b, c)
    ensures Evolves(a, c)
  {
    forall k | |a.issued| <= k < |c.issued|
      ensures Has(c, c.issued[k].request.piece)
    {
      if k < |b.issued| {
        assert c.issued[k] == b.issued[k];
      }
    }
    forall id | id in c.outstanding
      ensures (id in a.outstanding && a.outstanding[id] == c.outstanding[id]) || NewRequest(a, c, id, c.outstanding[id])
    {
      assert |a.issued| <= id < |b.issued| ==> c.issued[id] == b.issued[id];
    }
    forall p | p in c.leases
      ensures (p in a.leases && a.leases[p] == c.leases[p]) || LeaseOfNew(a, c, p)
    {
      if p in b.leases && b.leases[p] == c.leases[p] {
        assert |a.issued| <= b.leases[p].id < |b.issued| ==> c.issued[b.leases[p].id] == b.issued[b.leases[p].id];
      }
    }
  }

  lemma FrugalTrans(a: Engine, b: Engine, c: Engine)
    requires SameShape(a, b) && SameShape(b, c) && a.cfg == b.cfg
    requires Frugal(a, b) && Frugal(b, c)
    ensures Frugal(a, c)
  {
  }

  lemma GoesTrans(a: Engine, b: Engine, c: Engine)
    requires Goes(a, b) && Goes(b, c)
    ensures Goes(a, c)
  {
    EvolvesTrans(a, b, c);
    FrugalTrans(a, b, c);
  }

  // ----- letting go of things -----

  /** `b` differs from `a` only in things dropped or in fields the relation does not mention. */
  ghost predicate Trims(a: Engine, b: Engine) {
    && a.cfg == b.cfg && a.manifests == b.manifests && a.disposed == b.disposed
    && a.managers == b.managers && a.storage == b.storage
    && a.issued == b.issued && a.terminals <= b.terminals
    && (forall id :: id in b.outstanding ==> id in a.outstanding && a.outstanding[id] == b.outstanding[id])
    && (forall q :: q in b.pending ==> q in a.pending && a.pending[q] == b.pending[q])
    && (forall id :: id in b.incoming ==> id in a.incoming && a.incoming[id] == b.incoming[id])
    && (forall p :: p in b.leases ==> p in a.leases && a.leases[p] == b.leases[p])
  }

  lemma TrimsGoes(a: Engine, b: Engine)
    requires Trims(a, b)
    ensures Goes(a, b)
  {
  }

  /** Fields the relation does not mention may change freely. */
  lemma SideFieldsGo(a: Engine, b: Engine)
    requires b == a.(timers := b.timers, tombstones := b.tombstones, windows := b.windows, windowOrder := b.windowOrder,
                     nextGeneration := b.nextGeneration, table := b.table, exhaustions := b.exhaustions)
    ensures Trims(a, b) && Goes(a, b)
  {
    TrimsGoes(a, b);
  }

  lemma TrimsTrans(a: Engine, b: Engine, c: Engine)
    requires Trims(a, b) && Trims(b, c)
    ensures Trims(a, c)
  {
  }

  lemma CloseTrims(e: Engine, id: RequestId, reason: TerminalReason)
    requires IsDirect(e, id)
    ensures Trims(e, Close(e, id, reason))
  {
  }

  lemma FinalizeTrims(e: Engine, id: RequestId, reason: TerminalReason)
    ensures Trims(e, Finalize(e, id, reason))
    ensures Trims(e, FinalizeOrDrop(e, id, reason))
  {
    if IsDirect(e, id) {
      hide Trims, Close, Enqueue;
      var c, f := Close(e, id, reason), Finalize(e, id, reason);
      CloseTrims(e, id, reason);
      EnqueueTrims(c, e.outstanding[id].kind.info.window, Retry(id, e.outstanding[id]));
      SideFieldsGo(c, c.(windows := f.windows, exhaustions := f.exhaustions));
      TrimsTrans(e, c, f);
    } else {
      DropTrims(e, id);
    }
  }

  lemma DropTrims(e: Engine, id: RequestId)
    ensures Trims(e, e) && Trims(e, e.(outstanding := e.outstanding - {id}))
  {
  }

  lemma EnqueueTrims(e: Engine, key: WindowKey, task: Task)
    ensures Trims(e, Enqueue(e, key, task))
  {
  }

  lemma LifecycleErrorTrims(e: Engine, r: Option<Request>)
    ensures Trims(e, LifecycleError(e, r))
  {
  }

  lemma {:induction false} DisableTrims(e: Engine, s: Selector, n: nat)
    requires n <= |e.windowOrder|
    ensures Trims(e, DisableWindows(e, s, n))
  {
  }

  lemma {:induction false} CancelTrims(e: Engine, s: Selector, n: nat)
    ensures Trims(e, CancelRequests(e, s, n))
  {
    if n > 0 {
      CancelTrims(e, s, n - 1);
      var c := CancelRequests(e, s, n - 1);
      if n - 1 in c.outstanding && SelectsRequest(s, c.outstanding[n - 1]) {
        FinalizeTrims(c.(tombstones := c.tombstones + {n - 1}), n - 1, Cancelled);
      }
    }
  }

  lemma CancelDirectTrims(e: Engine, s: Selector)
    ensures Trims(e, CancelDirect(e, s))
  {
    DisableTrims(e, s, |e.windowOrder|);
    CancelTrims(DisableWindows(e, s, |e.windowOrder|), s, |e.issued|);
  }

  // ----- marking pieces -----

  /** A new state for one piece that keeps its slack and, if verified, is backed. */
  lemma SetStateGoes(e: Engine, p: Piece, s: PieceState)
    requires Has(e, p)
    requires s.retryCount + (if Wanted(s) then 0 else 1)
          >= StateOf(e, p).retryCount + (if Wanted(StateOf(e, p)) then 0 else 1)
    requires s.status.Verified? ==> Backed(e, p)
    requires !s.status.Receiving? && !s.status.Received?
    ensures Goes(e, SetState(e, p, s))
  {
    var b := SetState(e, p, s);
    forall q | Has(e, q)
      ensures StateOf(b, q) == if q == p then s else StateOf(e, q)
      ensures Backed(b, q) == Backed(e, q)
    {
    }
  }

  lemma FailGoes(e: Engine, p: Piece)
    ensures Goes(e, Fail(e, p)) && Goes(e, Unfail(e, p)) && Goes(e, Unfail(Fail(e, p), p))
  {
    hide Goes;
    TrimsGoes(e, e);
    if Has(e, p) {
      SetStateGoes(e, p, MarkFailed(StateOf(e, p)));
      if StateOf(e, p).status.Failed? {
        SetStateGoes(e, p, ResetFailedToMissing(StateOf(e, p)));
      }
      var f := Fail(e, p);
      SetStateGoes(f, p, ResetFailedToMissing(StateOf(f, p)));
      GoesTrans(e, f, Unfail(f, p));
    }
  }

  lemma FailAndFinalizeGoes(e: Engine, id: RequestId, p: Piece, reason: TerminalReason)
    ensures Goes(e, FailAndFinalize(e, id, p, reason))
  {
    FailGoes(e, p);
    FinalizeTrims(Fail(e, p), id, reason);
    TrimsGoes(Fail(e, p), FailAndFinalize(e, id, p, reason));
    GoesTrans(e, Fail(e, p), FailAndFinalize(e, id, p, reason));
  }

  // ----- issuing requests -----

  lemma AskedSnoc(issued: seq<Issue>, x: Issue, p: Piece)
    ensures Asked(issued + [x], p) == Asked(issued, p) + if x.request.piece == p then 1 else 0
  {
    assert (issued + [x])[..|issued|] == issued;
  }

  /** The engine with the lease of a grid request taken. */
  function Leasing(e: Engine, p: Piece, lease: Option<Lease>): Engine {
    if lease.Some? then e.(leases := e.leases[p := lease.value]) else e
  }

  ghost predicate LeaseFits(e: Engine, r: Request, lease: Option<Lease>) {
    lease.Some? ==> r.kind.Grid? && lease.value.id == |e.issued| && lease.value.peer == r.peer
  }

  lemma RecordState(e: Engine, r: Request, parent: Option<RequestId>, lease: Option<Lease>, p: Piece)
    requires Has(e, r.piece) && Has(e, p)
    ensures var b := Record(Leasing(e, r.piece, lease), r, parent);
      && Has(b, p) && StateOf(b, p) == (if p == r.piece then MarkRequested(StateOf(e, p), r.peer) else StateOf(e, p))
      && Asked(b.issued, p) == Asked(e.issued, p) + (if r.piece == p then 1 else 0)
      && (Backed(b, p) <==> Backed(e, p))
  {
    hide Asked, Checks;
    AskedSnoc(e.issued, Issue(r, parent), p);
  }

  lemma RecordEvolves(e: Engine, r: Request, parent: Option<RequestId>, lease: Option<Lease>)
    requires Has(e, r.piece) && LeaseFits(e, r, lease)
    ensures Evolves(e, Record(Leasing(e, r.piece, lease), r, parent))
  {
  }

  /** A request for a piece reported missing that has retries left. */
  lemma RecordGoes(e: Engine, r: Request, parent: Option<RequestId>, lease: Option<Lease>)
    requires Has(e, r.piece) && Wanted(StateOf(e, r.piece)) && StateOf(e, r.piece).retryCount <= e.cfg.maxRetries
    requires LeaseFits(e, r, lease)
    ensures Goes(e, Record(Leasing(e, r.piece, lease), r, parent))
  {
    hide Evolves, Asked, Backed, Record, LeaseFits;
    var b := Record(Leasing(e, r.piece, lease), r, parent);
    RecordEvolves(e, r, parent, lease);
    assert SameShape(e, b) by { EvolvesShape(e, b); }
    forall p | Has(e, p)
      ensures StateOf(b, p) == if p == r.piece then MarkRequested(StateOf(e, p), r.peer) else StateOf(e, p)
      ensures Asked(b.issued, p) == Asked(e.issued, p) + if r.piece == p then 1 else 0
      ensures Backed(b, p) <==> Backed(e, p)
    {
      RecordState(e, r, parent, lease, p);
    }
  }

  lemma EvolvesShape(a: Engine, b: Engine)
    requires Evolves(a, b)
    ensures SameShape(a, b) && a.cfg == b.cfg
  {
  }

  lemma WithWindowGoes(e: Engine, peer: PeerId, file: FileId, options: Option<DirectOptions>)
    ensures var w := WithWindow(e, peer, file, options);
      Trims(e, w) && Goes(e, w) && w.managers == e.managers && w.issued == e.issued && w.cfg == e.cfg && w.leases == e.leases
  {
    hide Trims, Goes;
    SideFieldsGo(e, WithWindow(e, peer, file, options));
  }

  lemma BeginGoes(e: Engine, peer: PeerId, file: FileId, options: Option<DirectOptions>, parent: Option<RequestId>, env: Env)
    requires Begin(e, peer, file, options, parent, env).Some?
    ensures Goes(e, Begin(e, peer, file, options, parent, env).value)
    ensures var b := Begin(e, peer, file, options, parent, env).value;
      |b.issued| == |e.issued| + 1 && |e.issued| in b.outstanding
  {
    hide Goes, Trims, WithWindow, MakeKind;
    var piece := Piece(file, NextPiece(e.managers[file], e.cfg.maxRetries).value);
    var w := WithWindow(e, peer, file, options);
    WithWindowGoes(e, peer, file, options);
    var r := Request(piece, peer, MakeKind(w, options, env.view.now));
    RecordGoes(w, r, parent, None);
    GoesTrans(e, w, Record(w, r, parent));
  }

  lemma ErrorGoes(e: Engine, r: Option<Request>, id: RequestId, p: Piece)
    ensures Goes(e, LifecycleError(e, r))
    ensures Goes(e, FailAndFinalize(LifecycleError(e, r), id, p, Cancelled))
  {
    var l := LifecycleError(e, r);
    LifecycleErrorTrims(e, r);
    TrimsGoes(e, l);
    FailAndFinalizeGoes(l, id, p, Cancelled);
    GoesTrans(e, l, FailAndFinalize(l, id, p, Cancelled));
  }

  lemma RequestNextGoes(e: Engine, peer: PeerId, file: FileId, options: Option<DirectOptions>, parent: Option<RequestId>, env: Env)
    ensures Goes(e, RequestNext(e, peer, file, options, parent, env).0)
  {
    hide Goes, FailAndFinalize, LifecycleError, Begin, Trims;
    DropTrims(e, 0);
    TrimsGoes(e, e);
    var begun := Begin(e, peer, file, options, parent, env);
    if begun.Some? {
      var id, b := |e.issued|, begun.value;
      BeginGoes(e, peer, file, options, parent, env);
      var piece := b.issued[id].request.piece;
      if !env.sendOk(id) {
        FailAndFinalizeGoes(b, id, piece, SendFailed);
        GoesTrans(e, b, FailAndFinalize(b, id, piece, SendFailed));
      } else if !env.saveOk(id) {
        ErrorGoes(b, Some(b.outstanding[id]), id, piece);
        GoesTrans(e, b, FailAndFinalize(LifecycleError(b, Some(b.outstanding[id])), id, piece, Cancelled));
      }
    }
  }

  lemma {:induction false} FillGoes(e: Engine, peer: PeerId, file: FileId, o: DirectOptions, cap: nat, env: Env)
    ensures Goes(e, FillLoop(e, peer, file, o, cap, env))
    decreases Unrequested(e, file)
  {
    TrimsGoes(e, e);
    if |InWindow(e, o.window)| < cap {
      var (next, scheduled) := RequestNext(e, peer, file, Some(o), None, env);
      RequestNextGoes(e, peer, file, Some(o), None, env);
      if scheduled {
        RequestUsesUpOne(e, peer, file, Some(o), None, env);
        FillGoes(next, peer, file, o, cap, env);
        GoesTrans(e, next, FillLoop(next, peer, file, o, cap, env));
      }
    }
  }

  // ----- chunks -----

  /** What becomes of a chunk whose header waits. */
  lemma BinaryIs(e: Engine, peer: PeerId, frame: Bytes, env: Env, h: Header, r: Appended)
    requires peer in e.pending && h == e.pending[peer]
    requires r == AppendChunk(if h.id in e.incoming then Some(e.incoming[h.id]) else None, peer, h, frame)
    ensures r.Reject? ==> ReceiveBinary(e, peer, frame, env) == RejectChunk(e.(pending := e.pending - {peer}), peer, h, env)
    ensures r.Incomplete? ==> ReceiveBinary(e, peer, frame, env) == e.(pending := e.pending - {peer}, incoming := e.incoming[h.id := r.assembly])
    ensures r.Complete? ==>
      ReceiveBinary(e, peer, frame, env) == Deliver(e.(pending := e.pending - {peer}, incoming := e.incoming - {h.id}), peer, h, r.data, env)
  {
    hide RejectChunk, Deliver, AppendChunk;
  }
}
