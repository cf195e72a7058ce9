/** When chunks meet the headers they were sent with, and how the requests made to an honest peer end. */
module TransferPairing {
  import opened Common
  import opened Pieces
  import opened ChunkAssembly
  import opened Availability
  import opened Engine
  import opened EngineSteps
  import opened EngineRuns
  import opened EngineEndings
  import opened TransferProtocol

  // ----- pairing -----

  /** A header whose chunk was never sent still waits, and the next frame is a chunk, or the header of
      a request under way. */
  predicate Clash(link: Link, w: World) {
    && !w.e.disposed && link.peer in w.e.pending && w.e.pending[link.peer] in w.torn && w.channel != []
    && (w.channel[0].BinaryFrame? || (w.channel[0].HeaderFrame? && Active(w.e, link.peer, w.channel[0].header)))
  }

  /** What is to happen to the next frame: the header of a request under way leaves that request under
      way, and a chunk is dropped or joins the request whose header came immediately before it. */
  predicate Paired(link: Link, w: World, env: Env)
    requires link.chunkBytes > 0 && w.channel != []
  {
    match w.channel[0]
    case HeaderFrame(h) => Active(w.e, link.peer, h) ==> h.id in Step(w.e, DoHeader(link.peer, h), env).outstanding
    case BinaryFrame(bytes) => link.peer in w.e.pending ==> Announced(link, w, w.e.pending[link.peer], bytes)
    case RefusalFrame(_) => true
  }

  /** A refused chunk ends the request of its header. */
  lemma RejectEnds(e: Engine, peer: PeerId, h: Header, env: Env)
    requires Books(e) && h.id in e.outstanding
    ensures h.id !in RejectChunk(e, peer, h, env).outstanding
  {
    hide Fail, Release, AskAgain, Frugal, Arrivals, LeasesOfIssued, Enqueue, SameShape;
    var r := RejectChunkCore(e, h);
    assert h.id < |e.issued| && h.id !in r.outstanding && r.issued == e.issued by {
      assert Ledger(e);
      CoreEnds(e, h);
    }
    AskAgainGoes(r, h.piece, peer, KindOf(e, h.id), env);
    hide RejectChunkCore;
  }

  lemma CoreEnds(e: Engine, h: Header)
    ensures h.id !in RejectChunkCore(e, h).outstanding && RejectChunkCore(e, h).issued == e.issued
  {
    hide FinalizeOrDrop, SameShape, Release;
    var f := Fail(Release(e.(incoming := e.incoming - {h.id}), h.piece, h.id), h.piece);
    ReleaseFrame(e.(incoming := e.incoming - {h.id}), h.piece, h.id);
    FailOutstanding(Release(e.(incoming := e.incoming - {h.id}), h.piece, h.id), h.piece);
    DropEnds(f, h.id, InvalidChunk);
  }

  lemma DropEnds(e: Engine, id: RequestId, reason: TerminalReason)
    ensures id !in FinalizeOrDrop(e, id, reason).outstanding && FinalizeOrDrop(e, id, reason).issued == e.issued
  {
    hide Trims, Close, Enqueue, Retryable;
    FinalizeTrims(e, id, reason);
    if IsDirect(e, id) {
      var c, key := Close(e, id, reason), e.outstanding[id].kind.info.window;
      CloseEnds(e, id, reason);
      EnqueueOutstanding(c, key, Retry(id, e.outstanding[id]));
    }
    TrimsIssued(e, FinalizeOrDrop(e, id, reason));
  }

  lemma CloseEnds(e: Engine, id: RequestId, reason: TerminalReason)
    requires IsDirect(e, id)
    ensures id !in Close(e, id, reason).outstanding
  {
    hide DropPending;
  }

  lemma EnqueueOutstanding(e: Engine, key: WindowKey, t: Task)
    ensures Enqueue(e, key, t).outstanding == e.outstanding && Enqueue(e, key, t).pending == e.pending
  {
  }

  lemma TrimsIssued(a: Engine, b: Engine)
    requires Trims(a, b)
    ensures b.issued == a.issued
  {
  }

  lemma WaitingNotTorn(link: Link, w: World, plan: seq<Segment>, h: Header)
    requires link.chunkBytes > 0 && Tracks(link, w, plan) && Waiting(h, plan)
    ensures h !in w.torn
  {
    hide Laid, Sending, InStep, Slot, ArrivalsInOrder, Parts;
    assert Whole(link, plan[0]);
    assert plan[0].id == h.id;
  }

  /** A chunk is never taken under a header of another answer that was the last frame taken. */
  lemma StaleNotAnnounced(link: Link, w: World, plan: seq<Segment>)
    requires link.chunkBytes > 0 && Tracks(link, w, plan) && w.channel != [] && w.channel[0].BinaryFrame?
    requires link.peer in w.e.pending && LeftWaiting(w, w.e.pending[link.peer], plan)
    ensures !Announced(link, w, w.e.pending[link.peer], w.channel[0].bytes)
  {
    hide Scheduled, Laid, Sending, TornPlaced, Slot, ArrivalsInOrder, AppendChunk, Parts, Ours, SlotFree, Whole;
    HeadOfWire(link, w, plan);
    var s := plan[0];
    assert s.from % 2 == 1 && w.lastTaken == Some(FrameAt(s.piece, s.id, s.parts, s.from - 1));
  }

  lemma HeaderPaired(link: Link, w: World, env: Env, plan: seq<Segment>)
    requires link.chunkBytes > 0 && Tracks(link, w, plan) && Books(w.e) && w.channel != [] && w.channel[0].HeaderFrame? && !w.e.disposed
    ensures Paired(link, w, env) <==> !Clash(link, w)
  {
    hide Tracks, Books, Taken, RejectChunk, SlotFree;
    var e, h := w.e, w.channel[0].header;
    HeaderTaken(link, w, env, plan);
    if link.peer in e.pending {
      OnlyStale(link, w, plan);
      HeaderRefused(link, w, env, plan);
      if Active(e, link.peer, h) {
        RejectEnds(e, link.peer, h, env);
      }
    }
  }

  lemma ChunkPaired(link: Link, w: World, env: Env, plan: seq<Segment>)
    requires link.chunkBytes > 0 && Tracks(link, w, plan) && Books(w.e) && w.channel != [] && w.channel[0].BinaryFrame? && !w.e.disposed
    ensures Paired(link, w, env) <==> !Clash(link, w)
  {
    if link.peer in w.e.pending {
      var h := w.e.pending[link.peer];
      assert Waiting(h, plan) || LeftWaiting(w, h, plan);
      BooksArrivals(w.e);
      if Waiting(h, plan) {
        WaitingNotTorn(link, w, plan, h);
        HonestChunk(link, w, plan);
      } else {
        StaleNotAnnounced(link, w, plan);
      }
    }
    hide Tracks, Books, Announced, Step;
  }

  lemma PairedUnlessClash(link: Link, w: World, env: Env)
    requires link.chunkBytes > 0 && Inv(link, w) && w.channel != [] && !w.e.disposed
    ensures Paired(link, w, env) <==> !Clash(link, w)
  {
    hide Tracks, Books, Paired, Clash;
    var plan :| Tracks(link, w, plan);
    match w.channel[0]
    case HeaderFrame(_) => HeaderPaired(link, w, env, plan);
    case BinaryFrame(_) => ChunkPaired(link, w, env, plan);
    case RefusalFrame(_) => RefusalPaired(link, w, env);
  }

  lemma RefusalPaired(link: Link, w: World, env: Env)
    requires link.chunkBytes > 0 && w.channel != [] && w.channel[0].RefusalFrame?
    ensures Paired(link, w, env) && !Clash(link, w)
  {
  }

  // ----- runs -----

  lemma {:induction false} PossiblePrefix(link: Link, w: World, run: seq<Happening>, k: nat)
    requires link.chunkBytes > 0 && Possible(link, w, run) && k <= |run|
    ensures Possible(link, w, run[..k])
  {
    hide Play, Can;
    if k < |run| {
      var n := |run| - 1;
      PossiblePrefix(link, w, run[..n], k);
      assert run[..n][..k] == run[..k];
    } else {
      assert run[..k] == run;
    }
  }

  /** The world before move `k` of a run. */
  ghost function At(link: Link, w: World, run: seq<Happening>, k: nat): World
    requires link.chunkBytes > 0 && Possible(link, w, run) && k <= |run|
  {
    PossiblePrefix(link, w, run, k);
    Play(link, w, run[..k])
  }

  lemma AtKeeps(link: Link, w0: World, run: seq<Happening>, k: nat)
    requires link.chunkBytes > 0 && Quiet(w0) && Possible(link, w0, run) && k <= |run|
    ensures Inv(link, At(link, w0, run, k))
  {
    hide Possible, Play, Inv;
    PossiblePrefix(link, w0, run, k);
    PlayKeeps(link, w0, run[..k]);
  }

  lemma AtNext(link: Link, w0: World, run: seq<Happening>, k: nat)
    requires link.chunkBytes > 0 && Possible(link, w0, run) && k < |run|
    ensures var w := At(link, w0, run, k);
      Can(link, w, run[k].move) && At(link, w0, run, k + 1) == Next(link, w, run[k].move, run[k].env)
  {
    hide Next, Can;
    PossiblePrefix(link, w0, run, k + 1);
    assert run[..k + 1][..k] == run[..k];
  }

  /** The receiver handles a frame in move `k`. */
  ghost predicate Handles(link: Link, w0: World, run: seq<Happening>, k: nat)
    requires link.chunkBytes > 0 && Possible(link, w0, run) && k < |run|
  {
    run[k].move.Take? && At(link, w0, run, k).channel != [] && !At(link, w0, run, k).e.disposed
  }

  ghost predicate PairedAt(link: Link, w0: World, run: seq<Happening>, k: nat)
    requires link.chunkBytes > 0 && Possible(link, w0, run) && k < |run|
  {
    Handles(link, w0, run, k) ==> Paired(link, At(link, w0, run, k), run[k].env)
  }

  ghost predicate ClashAt(link: Link, w0: World, run: seq<Happening>, k: nat)
    requires link.chunkBytes > 0 && Possible(link, w0, run) && k < |run|
  {
    Handles(link, w0, run, k) && Clash(link, At(link, w0, run, k))
  }

  ghost predicate NoClash(link: Link, w0: World, run: seq<Happening>)
    requires link.chunkBytes > 0 && Possible(link, w0, run)
  {
    forall k: nat :: k < |run| ==> !ClashAt(link, w0, run, k)
  }

  /** In every state that two parties can reach, with any sends failing at any time and anything else
      happening to the receiver: the next frame is handled as it should be exactly if it does not meet a
      header that was sent without its chunk and still waits. */
  lemma PairingExactly(link: Link, w0: World, run: seq<Happening>, env: Env)
    requires link.chunkBytes > 0 && Quiet(w0) && Possible(link, w0, run)
    ensures var w := Play(link, w0, run);
      w.channel != [] && !w.e.disposed ==> (Paired(link, w, env) <==> !Clash(link, w))
  {
    hide Inv, Paired, Clash;
    PlayKeeps(link, w0, run);
    var w := Play(link, w0, run);
    if w.channel != [] && !w.e.disposed {
      PairedUnlessClash(link, w, env);
    }
  }

  /** Over a whole run: every frame ever handled was handled so if and only if no such meeting took place. */
  lemma RunPairsExactly(link: Link, w0: World, run: seq<Happening>)
    requires link.chunkBytes > 0 && Quiet(w0) && Possible(link, w0, run)
    ensures (forall k: nat :: k < |run| ==> PairedAt(link, w0, run, k)) <==> NoClash(link, w0, run)
  {
    hide Inv, Paired, Clash, Possible, At;
    forall k: nat | k < |run|
      ensures PairedAt(link, w0, run, k) <==> !ClashAt(link, w0, run, k)
    {
      AtKeeps(link, w0, run, k);
      if Handles(link, w0, run, k) {
        PairedUnlessClash(link, At(link, w0, run, k), run[k].env);
      }
    }
  }

  // ----- how requests end -----

  predicate Faulted(reason: TerminalReason, faithful: bool) {
    reason.InvalidChunk? || (faithful && reason.HashMismatch?)
  }

  predicate Others(link: Link, e: Engine, id: RequestId) {
    id < |e.issued| && e.issued[id].request.peer != link.peer
  }

  /** Requests that ended because a chunk was refused were not made to the peer and, if `faithful`,
      neither were those whose bytes did not match. */
  ghost predicate WellEnded(link: Link, e: Engine, faithful: bool) {
    forall k :: 0 <= k < |e.terminals| && Faulted(e.terminals[k].reason, faithful) ==> Others(link, e, e.terminals[k].id)
  }

  /** What the peer serves is what the manifests describe. */
  ghost predicate Faithful(link: Link, e: Engine) {
    forall p: Piece :: Matches(e, p, link.content(p))
  }

  /** The meeting ends a direct request as `invalid_chunk`: the one whose header comes too early, or the
      one whose header waits, if the chunk is not of the size it announced. */
  predicate Breaks(link: Link, w: World) {
    && Clash(link, w)
    && (w.channel[0].HeaderFrame? ==> IsDirect(w.e, w.channel[0].header.id))
    && (w.channel[0].BinaryFrame? ==>
          IsDirect(w.e, w.e.pending[link.peer].id) && |w.channel[0].bytes| != w.e.pending[link.peer].payloadSize)
  }

  lemma CleanKeepsEnded(link: Link, a: Engine, b: Engine, blamed: set<(RequestId, TerminalReason)>, faithful: bool)
    requires WellEnded(link, a, faithful) && CleanBut(a, b, blamed) && a.issued <= b.issued
    requires forall x :: x in blamed && Faulted(x.1, faithful) ==> Others(link, a, x.0)
    ensures WellEnded(link, b, faithful)
  {
    forall k | 0 <= k < |b.terminals| && Faulted(b.terminals[k].reason, faithful)
      ensures Others(link, b, b.terminals[k].id)
    {
      if k < |a.terminals| {
        assert b.terminals[k] == a.terminals[k];
      } else {
        assert (b.terminals[k].id, b.terminals[k].reason) in blamed;
      }
      assert Others(link, a, b.terminals[k].id);
    }
  }

  lemma BlamedElsewhere(link: Link, e: Engine, a: Action)
    requires Books(e) && Elsewhere(a, link.peer)
    ensures forall x :: x in Blamed(e, a) ==> Others(link, e, x.0)
  {
    if a.DoBinary? && a.peer in e.pending {
      assert Announces(e, a.peer, e.pending[a.peer]);
    }
  }

  lemma ReceiverEndsWell(link: Link, e: Engine, a: Action, env: Env, faithful: bool)
    requires Books(e) && Elsewhere(a, link.peer) && WellEnded(link, e, faithful)
    ensures WellEnded(link, Step(e, a, env), faithful)
  {
    hide Books, Step, WellEnded, CleanBut, Others, Faulted;
    StepClean(e, a, env);
    BlamedElsewhere(link, e, a);
    StepIssued(e, a, env);
    CleanKeepsEnded(link, e, Step(e, a, env), Blamed(e, a), faithful);
  }

  lemma SameEndsWell(link: Link, a: Engine, b: Engine, faithful: bool)
    requires WellEnded(link, a, faithful) && b.terminals == a.terminals && a.issued <= b.issued
    ensures WellEnded(link, b, faithful)
  {
    forall k | 0 <= k < |b.terminals| && Faulted(b.terminals[k].reason, faithful)
      ensures Others(link, b, b.terminals[k].id)
    {
      assert Others(link, a, a.terminals[k].id);
    }
  }

  lemma DeliveryEndsWell(link: Link, e: Engine, h: Header, data: Bytes, env: Env, faithful: bool)
    requires WellEnded(link, e, faithful) && (faithful ==> Matches(e, h.piece, data))
    ensures WellEnded(link, Deliver(e, link.peer, h, data, env), faithful)
  {
    hide Deliver, WellEnded, CleanBut, Matches, Goes;
    DeliverClean(e, link.peer, h, data, env);
    DeliverGoes(e, link.peer, h, data, env);
    GoesIssued(e, Deliver(e, link.peer, h, data, env));
    CleanKeepsEnded(link, e, Deliver(e, link.peer, h, data, env), if Matches(e, h.piece, data) then {} else {(h.id, HashMismatch)}, faithful);
  }

  lemma LastChunkEndsWell(link: Link, e: Engine, h: Header, data: Bytes, env: Env, faithful: bool)
    requires WellEnded(link, e, faithful) && (faithful ==> Faithful(link, e) && data == link.content(h.piece))
    ensures WellEnded(link, Deliver(e.(pending := e.pending - {link.peer}).(incoming := e.incoming - {h.id}), link.peer, h, data, env), faithful)
  {
    hide WellEnded, Faithful, Deliver, Matches;
    var e2 := e.(pending := e.pending - {link.peer}).(incoming := e.incoming - {h.id});
    SameEndsWell(link, e, e2, faithful);
    if faithful {
      FaithfulPiece(link, e, e2, h.piece);
    }
    DeliveryEndsWell(link, e2, h, data, env, faithful);
  }

  lemma FaithfulPiece(link: Link, a: Engine, b: Engine, p: Piece)
    requires Faithful(link, a) && b.manifests == a.manifests && b.cfg == a.cfg
    ensures Matches(b, p, link.content(p))
  {
    hide Matches;
    assert Matches(a, p, link.content(p));
    MatchesSame(a, b, p, link.content(p));
  }

  lemma MatchesSame(a: Engine, b: Engine, p: Piece, data: Bytes)
    requires b.manifests == a.manifests && b.cfg == a.cfg
    ensures Matches(a, p, data) <==> Matches(b, p, data)
  {
  }

  /** A refused chunk of a grid or plain request is blamed on nobody. */
  lemma RejectUnseen(link: Link, e: Engine, h: Header, env: Env, faithful: bool)
    requires WellEnded(link, e, faithful) && !IsDirect(e, h.id)
    ensures WellEnded(link, RejectChunk(e, link.peer, h, env), faithful)
  {
    hide WellEnded, CleanBut, WindowsStand, AskAgain, Fail, Goes, Release;
    var r := RejectChunkCore(e, h);
    CoreUnseen(e, h);
    RejectCoreGoes(e, h);
    GoesIssued(e, r);
    hide RejectChunkCore;
    SameEndsWell(link, e, r, faithful);
    AskAgainClean(r, h.piece, link.peer, KindOf(e, h.id), env);
    AskAgainGoes(r, h.piece, link.peer, KindOf(e, h.id), env);
    GoesIssued(r, AskAgain(r, h.piece, link.peer, KindOf(e, h.id), env));
    CleanKeepsEnded(link, r, AskAgain(r, h.piece, link.peer, KindOf(e, h.id), env), {}, faithful);
  }

  lemma CoreUnseen(e: Engine, h: Header)
    requires !IsDirect(e, h.id)
    ensures RejectChunkCore(e, h).terminals == e.terminals
  {
    hide Fail, Release;
    var r := Release(e.(incoming := e.incoming - {h.id}), h.piece, h.id);
    assert r.terminals == e.terminals && r.outstanding == e.outstanding by { ReleaseFrame(e.(incoming := e.incoming - {h.id}), h.piece, h.id); }
    FailTerminals(r, h.piece);
    assert Fail(r, h.piece).outstanding == r.outstanding by { FailOutstanding(r, h.piece); }
  }

  lemma ReleaseFrame(e: Engine, p: Piece, id: RequestId)
    ensures Release(e, p, id) == e.(leases := Release(e, p, id).leases)
  {
  }

  lemma FailOutstanding(e: Engine, p: Piece)
    ensures Fail(e, p) == e.(managers := Fail(e, p).managers)
  {
    hide SameShape;
  }

  /** A refused chunk of a direct request ends it as `invalid_chunk`. */
  lemma RejectSeen(e: Engine, peer: PeerId, h: Header, env: Env)
    requires IsDirect(e, h.id)
    ensures var b, info := RejectChunk(e, peer, h, env), e.outstanding[h.id].kind.info;
      && b.terminals == e.terminals + [Terminal(h.id, InvalidChunk, info.retryCount, info.retryCount < e.cfg.maxRetries, info.window)]
      && (peer in e.pending && e.pending[peer].id != h.id ==> peer in b.pending && b.pending[peer] == e.pending[peer])
  {
    var i := e.(incoming := e.incoming - {h.id});
    var s := Release(i, h.piece, h.id);
    ReleaseFrame(i, h.piece, h.id);
    FailOutstanding(s, h.piece);
    hide Enqueue, SameShape, AskAgain, Release, Fail;
    var f := Fail(s, h.piece);
    EnqueueTerminals(Close(f, h.id, InvalidChunk), e.outstanding[h.id].kind.info.window, Retry(h.id, e.outstanding[h.id]));
    EnqueueOutstanding(Close(f, h.id, InvalidChunk), e.outstanding[h.id].kind.info.window, Retry(h.id, e.outstanding[h.id]));
  }

  /** A chunk taken under a header without one is refused exactly if it is not of the announced size. */
  lemma StaleChunk(link: Link, w: World, plan: seq<Segment>)
    requires link.chunkBytes > 0 && Tracks(link, w, plan) && Arrivals(w.e) && w.channel != [] && w.channel[0].BinaryFrame?
    requires link.peer in w.e.pending && LeftWaiting(w, w.e.pending[link.peer], plan)
    ensures var e, h, frame := w.e, w.e.pending[link.peer], w.channel[0].bytes;
      AppendChunk(if h.id in e.incoming then Some(e.incoming[h.id]) else None, link.peer, h, frame).Reject? <==> |frame| != h.payloadSize
  {
    var e, h, frame := w.e, w.e.pending[link.peer], w.channel[0].bytes;
    var existing := if h.id in e.incoming then Some(e.incoming[h.id]) else None;
    assert Announces(e, link.peer, h);
    if existing.Some? {
      assert Arrives(e, h.id, e.incoming[h.id]);
    }
    assert 0 <= h.chunkIndex < h.totalChunks;
    hide Scheduled, Laid, Sending, TornPlaced, InStep, Slot, ArrivalsInOrder, Tracks, Arrivals, AppendChunk, Sound;
    AppendKeepsSound(existing, link.peer, h, frame);
  }

  /** What comes of a chunk, given what joining it to its assembly yields. */
  lemma JoinedEndsWell(link: Link, e: Engine, frame: Bytes, env: Env, faithful: bool)
    requires WellEnded(link, e, faithful) && link.peer in e.pending && !e.disposed
    requires var h := e.pending[link.peer];
      var r := AppendChunk(if h.id in e.incoming then Some(e.incoming[h.id]) else None, link.peer, h, frame);
      && (r.Reject? ==> !IsDirect(e, h.id))
      && (r.Complete? && faithful ==> Faithful(link, e) && r.data == link.content(h.piece))
    ensures WellEnded(link, Step(e, DoBinary(link.peer, frame), env), faithful)
  {
    hide WellEnded, Faithful, RejectChunk, Deliver, AppendChunk;
    var h, e1 := e.pending[link.peer], e.(pending := e.pending - {link.peer});
    match AppendChunk(if h.id in e.incoming then Some(e.incoming[h.id]) else None, link.peer, h, frame)
    case Reject =>
      SameEndsWell(link, e, e1, faithful);
      RejectUnseen(link, e1, h, env, faithful);
    case Incomplete(a) => SameEndsWell(link, e, e1.(incoming := e1.incoming[h.id := a]), faithful);
    case Complete(data) => LastChunkEndsWell(link, e, h, data, env, faithful);
  }

  lemma ChunkEndsWell(link: Link, w: World, env: Env, plan: seq<Segment>, faithful: bool)
    requires link.chunkBytes > 0 && Tracks(link, w, plan) && Books(w.e) && w.channel != [] && w.channel[0].BinaryFrame? && !w.e.disposed
    requires WellEnded(link, w.e, faithful) && (faithful ==> Faithful(link, w.e))
    requires !Breaks(link, w) && (faithful ==> !Clash(link, w))
    ensures WellEnded(link, Step(w.e, TakeAction(link, w.channel[0]), env), faithful)
  {
    hide Tracks, Books, Arrivals, WellEnded, Faithful, AppendChunk, Parts, Ours, Waiting, SlotFree, RejectChunk, Deliver, Prefixed;
    ChunkSlot(link, w, plan);
    BooksArrivals(w.e);
    if link.peer in w.e.pending {
      if Waiting(w.e.pending[link.peer], plan) {
        HonestChunk(link, w, plan);
      } else {
        StaleChunk(link, w, plan);
        assert Clash(link, w);
      }
      JoinedEndsWell(link, w.e, w.channel[0].bytes, env, faithful);
    }
  }

  lemma HeaderEndsWell(link: Link, w: World, env: Env, plan: seq<Segment>, faithful: bool)
    requires link.chunkBytes > 0 && Tracks(link, w, plan) && Books(w.e) && w.channel != [] && w.channel[0].HeaderFrame? && !w.e.disposed
    requires WellEnded(link, w.e, faithful) && !Breaks(link, w)
    ensures WellEnded(link, Step(w.e, TakeAction(link, w.channel[0]), env), faithful)
  {
    hide Tracks, Taken, WellEnded, RejectChunk, Books, SlotFree;
    var e, h := w.e, w.channel[0].header;
    HeaderTaken(link, w, env, plan);
    if link.peer in e.pending && Active(e, link.peer, h) {
      OnlyStale(link, w, plan);
      HeaderRefused(link, w, env, plan);
      RejectUnseen(link, e, h, env, faithful);
    } else {
      SameEndsWell(link, e, Step(e, TakeAction(link, w.channel[0]), env), faithful);
    }
  }

  lemma RefusalEndsWell(link: Link, e: Engine, id: RequestId, env: Env, faithful: bool)
    requires Books(e) && WellEnded(link, e, faithful)
    ensures WellEnded(link, Step(e, DoReject(link.peer, id), env), faithful)
  {
    hide Books, Step, WellEnded, CleanBut;
    StepClean(e, DoReject(link.peer, id), env);
    StepIssued(e, DoReject(link.peer, id), env);
    CleanKeepsEnded(link, e, Step(e, DoReject(link.peer, id), env), {}, faithful);
  }

  lemma DisposedIgnores(link: Link, e: Engine, f: Frame, env: Env)
    requires e.disposed
    ensures Step(e, TakeAction(link, f), env) == e
  {
  }

  lemma MoveEndsWell(link: Link, w: World, m: Move, env: Env, faithful: bool)
    requires link.chunkBytes > 0 && Inv(link, w) && Can(link, w, m)
    requires WellEnded(link, w.e, faithful) && (faithful ==> Faithful(link, w.e))
    requires m.Take? ==> !Breaks(link, w) && (faithful ==> !Clash(link, w))
    ensures WellEnded(link, Next(link, w, m, env).e, faithful)
  {
    hide Tracks, Step, Books, WellEnded, Faithful, Breaks, Clash, Frames, Parts;
    match m
    case Receiver(a) => ReceiverEndsWell(link, w.e, a, env, faithful);
    case Take =>
      if w.e.disposed {
        DisposedIgnores(link, w.e, w.channel[0], env);
      } else {
        var plan :| Tracks(link, w, plan);
        match w.channel[0]
        case HeaderFrame(_) => HeaderEndsWell(link, w, env, plan, faithful);
        case BinaryFrame(_) => ChunkEndsWell(link, w, env, plan, faithful);
        case RefusalFrame(id) => RefusalEndsWell(link, w.e, id, env, faithful);
      }
    case _ =>
  }

  lemma FaithfulStays(link: Link, a: Engine, b: Engine)
    requires Faithful(link, a) && b.manifests == a.manifests && b.cfg == a.cfg
    ensures Faithful(link, b)
  {
    hide Matches;
    forall p: Piece
      ensures Matches(b, p, link.content(p))
    {
      MatchesSame(a, b, p, link.content(p));
    }
  }

  lemma StepManifests(e: Engine, a: Action, env: Env)
    requires Books(e)
    ensures Step(e, a, env).manifests == e.manifests && Step(e, a, env).cfg == e.cfg
  {
    hide Step, Books, Keeps;
    StepKeeps(e, a, env);
    KeepsManifests(e, Step(e, a, env));
  }

  lemma MoveManifests(link: Link, w: World, m: Move, env: Env)
    requires link.chunkBytes > 0 && Inv(link, w) && Can(link, w, m)
    ensures Next(link, w, m, env).e.manifests == w.e.manifests && Next(link, w, m, env).e.cfg == w.e.cfg
  {
    hide Step, Books, Tracks, Frames, Parts;
    match m
    case Receiver(a) => StepManifests(w.e, a, env);
    case Take => StepManifests(w.e, TakeAction(link, w.channel[0]), env);
    case _ =>
  }

  ghost predicate BreaksAt(link: Link, w0: World, run: seq<Happening>, k: nat)
    requires link.chunkBytes > 0 && Possible(link, w0, run) && k < |run|
  {
    Handles(link, w0, run, k) && Breaks(link, At(link, w0, run, k))
  }

  lemma StartEndsWell(link: Link, e: Engine, faithful: bool)
    requires Start(e)
    ensures WellEnded(link, e, faithful)
  {
  }

  lemma {:induction false} RunEndsWell(link: Link, w0: World, run: seq<Happening>, faithful: bool, n: nat)
    requires link.chunkBytes > 0 && Quiet(w0) && Possible(link, w0, run) && n <= |run| && (faithful ==> Faithful(link, w0.e))
    requires forall k: nat :: k < |run| ==> !BreaksAt(link, w0, run, k) && (faithful ==> !ClashAt(link, w0, run, k))
    ensures var e := At(link, w0, run, n).e; WellEnded(link, e, faithful) && (faithful ==> Faithful(link, e))
  {
    hide Next, Can, Inv, Faithful, WellEnded, Possible, At, Breaks, Clash;
    if n == 0 {
      assert At(link, w0, run, 0) == w0 by { AtStart(link, w0, run); }
      StartEndsWell(link, w0.e, faithful);
    } else {
      var w := At(link, w0, run, n - 1);
      RunEndsWell(link, w0, run, faithful, n - 1);
      AtKeeps(link, w0, run, n - 1);
      AtNext(link, w0, run, n - 1);
      assert !BreaksAt(link, w0, run, n - 1);
      NothingToMeet(link, w);
      MoveEndsWell(link, w, run[n - 1].move, run[n - 1].env, faithful);
      MoveManifests(link, w, run[n - 1].move, run[n - 1].env);
      if faithful {
        FaithfulStays(link, w.e, At(link, w0, run, n).e);
      }
    }
  }

  lemma NothingToMeet(link: Link, w: World)
    ensures w.e.disposed || w.channel == [] ==> !Breaks(link, w) && !Clash(link, w)
  {
  }

  lemma AtStart(link: Link, w0: World, run: seq<Happening>)
    requires link.chunkBytes > 0 && Possible(link, w0, run)
    ensures At(link, w0, run, 0) == w0
  {
    assert run[..0] == [];
  }

  lemma AtEnd(link: Link, w0: World, run: seq<Happening>)
    requires link.chunkBytes > 0 && Possible(link, w0, run)
    ensures At(link, w0, run, |run|) == Play(link, w0, run)
  {
    assert run[..|run|] == run;
  }

  /** On every run without such a meeting, no request made to the peer ends as `invalid_chunk` and, if
      the peer holds what the manifests describe, none ends as `hash_mismatch`. */
  lemma NoHonestRequestFails(link: Link, w0: World, run: seq<Happening>, faithful: bool)
    requires link.chunkBytes > 0 && Quiet(w0) && Possible(link, w0, run) && (faithful ==> Faithful(link, w0.e))
    requires NoClash(link, w0, run)
    ensures var e := Play(link, w0, run).e;
      forall k :: 0 <= k < |e.terminals| && Ours(link, e, e.terminals[k].id) ==>
        !e.terminals[k].reason.InvalidChunk? && (faithful ==> !e.terminals[k].reason.HashMismatch?)
  {
    hide Possible, Play, At, Clash, Faithful;
    forall k: nat | k < |run|
      ensures !BreaksAt(link, w0, run, k) && !ClashAt(link, w0, run, k)
    {
      assert !ClashAt(link, w0, run, k);
    }
    RunEndsWell(link, w0, run, faithful, |run|);
    AtEnd(link, w0, run);
  }

  /** Some request made to the peer ended as `invalid_chunk`. */
  ghost predicate Invalidated(link: Link, e: Engine) {
    exists k :: 0 <= k < |e.terminals| && e.terminals[k].reason.InvalidChunk? && Ours(link, e, e.terminals[k].id)
  }

  lemma InvalidatedStays(link: Link, a: Engine, b: Engine)
    requires Invalidated(link, a) && a.terminals <= b.terminals && a.issued <= b.issued
    ensures Invalidated(link, b)
  {
    var k :| 0 <= k < |a.terminals| && a.terminals[k].reason.InvalidChunk? && Ours(link, a, a.terminals[k].id);
    assert b.terminals[k] == a.terminals[k];
  }

  lemma MoveGrows(link: Link, w: World, m: Move, env: Env)
    requires link.chunkBytes > 0 && Inv(link, w) && Can(link, w, m)
    ensures w.e.terminals <= Next(link, w, m, env).e.terminals && w.e.issued <= Next(link, w, m, env).e.issued
  {
    hide Step, Books, Tracks, Frames, Parts;
    match m
    case Receiver(a) => StepIssued(w.e, a, env);
    case Take => StepIssued(w.e, TakeAction(link, w.channel[0]), env);
    case _ =>
  }

  /** The terminal event of a refused chunk of one of ours. */
  lemma RefusalCounts(link: Link, e: Engine, h: Header, env: Env)
    requires Books(e) && IsDirect(e, h.id) && Ours(link, e, h.id)
    ensures Invalidated(link, RejectChunk(e, link.peer, h, env))
  {
    hide RejectChunk, Books, Goes;
    var b := RejectChunk(e, link.peer, h, env);
    RejectSeen(e, link.peer, h, env);
    RejectChunkGoes(e, link.peer, h, env);
    GoesIssued(e, b);
    assert b.terminals[|e.terminals|].id == h.id;
  }

  lemma BrokenNow(link: Link, w: World, env: Env)
    requires link.chunkBytes > 0 && Inv(link, w) && Breaks(link, w)
    ensures Invalidated(link, Step(w.e, TakeAction(link, w.channel[0]), env))
  {
    hide Tracks, RejectChunk, Arrivals, Books, Invalidated, Goes, Deliver, Ours;
    var e, f, waits := w.e, w.channel[0], w.e.pending[link.peer];
    var plan :| Tracks(link, w, plan);
    BooksArrivals(e);
    if f.HeaderFrame? {
      HeadersDiffer(link, w, plan);
      ActiveIsOurs(link, e, f.header);
      RefusalCounts(link, e, f.header, env);
    } else {
      WaitsForOurs(link, e);
      var e1 := e.(pending := e.pending - {link.peer});
      FrameTaken(e, link.peer, f.bytes);
      PendingKeeps(e, e1);
      OursFrame(link, e, e1, waits.id);
      RefusalCounts(link, e1, waits, env);
    }
  }

  lemma OursFrame(link: Link, a: Engine, b: Engine, id: RequestId)
    requires b.issued == a.issued && Ours(link, a, id)
    ensures Ours(link, b, id)
  {
  }

  lemma ActiveIsOurs(link: Link, e: Engine, h: Header)
    requires Books(e) && Active(e, link.peer, h)
    ensures Ours(link, e, h.id)
  {
    hide Arrivals, LeasesOfIssued;
  }

  lemma HeadersDiffer(link: Link, w: World, plan: seq<Segment>)
    requires link.chunkBytes > 0 && Tracks(link, w, plan) && w.channel != [] && w.channel[0].HeaderFrame? && link.peer in w.e.pending
    ensures w.channel[0].header != w.e.pending[link.peer]
  {
    hide Tracks, SlotFree, Whole;
    OnlyStale(link, w, plan);
    HeadOfWire(link, w, plan);
  }

  lemma WaitsForOurs(link: Link, e: Engine)
    requires Arrivals(e) && link.peer in e.pending
    ensures Ours(link, e, e.pending[link.peer].id)
  {
    assert Announces(e, link.peer, e.pending[link.peer]);
  }

  lemma {:induction false} BrokenLater(link: Link, w0: World, run: seq<Happening>, k: nat, n: nat)
    requires link.chunkBytes > 0 && Quiet(w0) && Possible(link, w0, run) && k < n <= |run| && BreaksAt(link, w0, run, k)
    ensures Invalidated(link, At(link, w0, run, n).e)
  {
    hide Next, Can, Inv, Invalidated, Possible, At, Breaks, Step;
    var w := At(link, w0, run, n - 1);
    AtKeeps(link, w0, run, n - 1);
    AtNext(link, w0, run, n - 1);
    if k < n - 1 {
      BrokenLater(link, w0, run, k, n - 1);
      MoveGrows(link, w, run[n - 1].move, run[n - 1].env);
      InvalidatedStays(link, w.e, At(link, w0, run, n).e);
    } else {
      BrokenNow(link, w, run[k].env);
      TakeSteps(link, w, run[k].env);
    }
  }

  lemma TakeSteps(link: Link, w: World, env: Env)
    requires link.chunkBytes > 0 && w.channel != []
    ensures Next(link, w, Take, env).e == Step(w.e, TakeAction(link, w.channel[0]), env)
  {
    hide Step;
  }

  /** On every run: some request made to the peer ends as `invalid_chunk` if and only if a direct request
      is broken by such a meeting. */
  lemma InvalidExactly(link: Link, w0: World, run: seq<Happening>)
    requires link.chunkBytes > 0 && Quiet(w0) && Possible(link, w0, run)
    ensures Invalidated(link, Play(link, w0, run).e) <==> exists k: nat :: k < |run| && BreaksAt(link, w0, run, k)
  {
    hide Possible, Play, At, Breaks, Handles;
    AtEnd(link, w0, run);
    if k: nat :| k < |run| && BreaksAt(link, w0, run, k) {
      BrokenLater(link, w0, run, k, |run|);
    } else {
      RunEndsWell(link, w0, run, false, |run|);
    }
  }
}
