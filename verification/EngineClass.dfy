/** The transfer engine as the object it is: fields updated in place by its handlers. Every method is
    proved to do exactly what the handler functions of `Engine` say, and a valid object is one that has
    gone through a run, so what is proved of runs holds of its fields. */
module EngineClass {
  import opened Common
  import opened Pieces
  import opened ChunkAssembly
  import opened Availability
  import opened GridChoice
  import opened Engine
  import opened EngineSteps
  import opened EngineRuns
  import opened EngineDirect

  class PonsWarpEngine {
    const cfg: Config
    var manifests: map<FileId, seq<Descriptor>>
    var managers: map<FileId, States>
    var storage: map<Piece, Bytes>
    var outstandingRequests: map<RequestId, Request>
    var issued: seq<Issue>
    var directTimers: set<RequestId>
    var directTombstones: set<RequestId>
    var directWindows: map<WindowKey, Window>
    var windowOrder: seq<WindowKey>
    var nextDirectGeneration: nat
    var pendingChunks: map<PeerId, Header>
    var incomingChunks: map<RequestId, Assembly>
    var availability: Table
    var leases: map<Piece, Lease>
    var terminals: seq<Terminal>
    var exhaustions: seq<WindowKey>
    var disposed: bool

    ghost const origin: Engine
    ghost var history: seq<Event>   // what was handled so far

    function Abs(): Engine
      reads this
    {
      Engine(cfg, manifests, managers, storage, outstandingRequests, issued, directTimers, directTombstones, directWindows,
             windowOrder, nextDirectGeneration, pendingChunks, incomingChunks, availability, leases, terminals, exhaustions, disposed)
    }

    /** Whatever the object went through, its books are in order, verified pieces are backed by stored
        bytes and, if it made direct requests only, each of them is accounted for exactly once. */
    ghost predicate Valid()
      reads this
    {
      && Start(origin) && Abs() == Run(origin, history)
      && Books(Abs()) && Integral(Abs()) && Settled(Abs())
      && (DirectOnly(history) ==> Once(Abs(), {}))
    }

    constructor (cfg: Config, manifests: map<FileId, seq<Descriptor>>)
      ensures Valid() && Start(Abs()) && history == [] && this.cfg == cfg && this.manifests == manifests
    {
      this.cfg, this.manifests := cfg, manifests;
      managers := map f | f in manifests :: Initial(manifests[f]);
      storage, outstandingRequests, issued, directTimers, directTombstones := map[], map[], [], {}, {};
      directWindows, windowOrder, nextDirectGeneration := map[], [], 0;
      pendingChunks, incomingChunks, availability, leases := map[], map[], map[], map[];
      terminals, exhaustions, disposed := [], [], false;
      history := [];
      origin := Engine(cfg, manifests, map f | f in manifests :: Initial(manifests[f]), map[], map[], [], {}, {}, map[], [], 0,
                       map[], map[], map[], map[], [], [], false);
      new;
      Reached(origin, []);
    }

    // ----- pieces -----

    method MarkFailedPiece(p: Piece)
      modifies this`managers
      ensures Abs() == Fail(old(Abs()), p)
    {
      if p.file in managers && p.index < |managers[p.file]| {
        var s := managers[p.file];
        managers := managers[p.file := s[p.index := MarkFailed(s[p.index])]];
      }
    }

    method ResetFailed(p: Piece)
      modifies this`managers
      ensures Abs() == Unfail(old(Abs()), p)
    {
      if p.file in managers && p.index < |managers[p.file]| && managers[p.file][p.index].status.Failed? {
        var s := managers[p.file];
        managers := managers[p.file := s[p.index := ResetFailedToMissing(s[p.index])]];
      }
    }

    // ----- windows -----

    method EnqueueWindow(key: WindowKey, task: Task)
      modifies this`directWindows
      ensures Abs() == Enqueue(old(Abs()), key, task)
    {
      if key in directWindows && !directWindows[key].disabled && !disposed {
        var w := directWindows[key];
        directWindows := directWindows[key := w.(queue := w.queue + [task])];
      }
    }

    method EmitDirectLifecycleError(r: Option<Request>)
      modifies this`directWindows
      ensures Abs() == LifecycleError(old(Abs()), r)
    {
      if r.Some? && r.value.kind.Direct? {
        var key := r.value.kind.info.window;
        if key in directWindows {
          directWindows := directWindows[key := directWindows[key].(disabled := true)];
        }
      }
    }

    method ForgetChunks(id: RequestId)
      modifies this`incomingChunks, this`pendingChunks
      ensures Abs() == old(Abs()).(incoming := old(incomingChunks) - {id}, pending := DropPending(old(pendingChunks), id))
    {
      incomingChunks := incomingChunks - {id};
      pendingChunks := map peer | peer in pendingChunks && pendingChunks[peer].id != id :: pendingChunks[peer];
    }

    method ForgetRequest(id: RequestId)
      modifies this`outstandingRequests, this`directTimers
      ensures Abs() == old(Abs()).(outstanding := old(outstandingRequests) - {id}, timers := old(directTimers) - {id})
    {
      outstandingRequests := outstandingRequests - {id};
      directTimers := directTimers - {id};
    }

    /** Everything kept for the request goes, and its terminal event is emitted. */
    method CloseRequest(id: RequestId, reason: TerminalReason)
      requires id in outstandingRequests && outstandingRequests[id].kind.Direct?
      modifies this
      ensures Abs() == Close(old(Abs()), id, reason)
    {
      hide DropPending, Retryable;
      var info := outstandingRequests[id].kind.info;
      ForgetRequest(id);
      ForgetChunks(id);
      terminals := terminals + [Terminal(id, reason, info.retryCount, Retryable(reason) && info.retryCount < cfg.maxRetries, info.window)];
    }

    method ReportExhausted(key: WindowKey)
      requires key in directWindows
      modifies this`directWindows, this`exhaustions
      ensures Abs() == old(Abs()).(windows := old(directWindows)[key := old(directWindows)[key].(exhausted := true)], exhaustions := old(exhaustions) + [key])
    {
      directWindows := directWindows[key := directWindows[key].(exhausted := true)];
      exhaustions := exhaustions + [key];
    }

    method FinalizeDirectRequest(id: RequestId, reason: TerminalReason) returns (done: bool)
      modifies this
      ensures Abs() == Finalize(old(Abs()), id, reason) && done == IsDirect(old(Abs()), id)
    {
      hide Close, Enqueue;
      if id !in outstandingRequests || !outstandingRequests[id].kind.Direct? {
        return false;
      }
      done := true;
      var r := outstandingRequests[id];
      var info := r.kind.info;
      CloseRequest(id, reason);
      if Retryable(reason) && info.retryCount < cfg.maxRetries {
        EnqueueWindow(info.window, Retry(id, r));
      } else if Retryable(reason) && info.window in directWindows && !directWindows[info.window].exhausted {
        ReportExhausted(info.window);
      }
    }

    method FinalizeOrDelete(id: RequestId, reason: TerminalReason)
      modifies this
      ensures Abs() == FinalizeOrDrop(old(Abs()), id, reason)
    {
      var done := FinalizeDirectRequest(id, reason);
      if !done {
        outstandingRequests := outstandingRequests - {id};
      }
    }

    method FailRequest(id: RequestId, p: Piece, reason: TerminalReason)
      modifies this
      ensures Abs() == FailAndFinalize(old(Abs()), id, p, reason)
    {
      MarkFailedPiece(p);
      var _ := FinalizeDirectRequest(id, reason);
    }

    method ExpireDirectRequest(id: RequestId)
      modifies this
      ensures Abs() == ExpireDirect(old(Abs()), id)
    {
      if id in outstandingRequests && outstandingRequests[id].kind.Direct? {
        FailRequest(id, outstandingRequests[id].piece, RequestTimeout);
      }
    }

    method ExpireDirectRequests(now: int)
      modifies this
      ensures Abs() == ExpireAll(old(Abs()), now)
    {
      hide ExpireDirect;
      var n := |issued|;
      for id := 0 to n
        invariant Abs() == ExpireFirst(old(Abs()), now, id)
      {
        if id in outstandingRequests && outstandingRequests[id].kind.Direct? && outstandingRequests[id].kind.info.expiresAt <= now {
          ExpireDirectRequest(id);
        }
      }
    }

    // ----- asking -----

    /** `OwnerFirstScheduler.next`. */
    method NextMissing(file: FileId) returns (next: Option<nat>)
      requires file in managers
      ensures next == NextPiece(managers[file], cfg.maxRetries)
    {
      var s := managers[file];
      var missing := MissingPieces(s);
      for k := 0 to |missing|
        invariant NextAmong(s, missing, cfg.maxRetries) == NextAmong(s, missing[k..], cfg.maxRetries)
      {
        if s[missing[k]].retryCount <= cfg.maxRetries {
          return Some(missing[k]);
        }
      }
      next := None;
    }

    method EnsureWindow(peer: PeerId, file: FileId, options: Option<DirectOptions>)
      modifies this`directWindows, this`windowOrder
      ensures Abs() == WithWindow(old(Abs()), peer, file, options)
    {
      if options.Some? && options.value.window !in directWindows {
        var key := options.value.window;
        directWindows := directWindows[key := NewWindow(file, peer, options.value.controller, 1, 0)];
        windowOrder := windowOrder + [key];
      }
    }

    method RecordRequest(r: Request, parent: Option<RequestId>)
      requires Has(Abs(), r.piece)
      modifies this`managers, this`outstandingRequests, this`issued, this`directTimers
      ensures Abs() == Record(old(Abs()), r, parent)
    {
      hide SameShape;
      var id, s := |issued|, managers[r.piece.file];
      managers := managers[r.piece.file := s[r.piece.index := MarkRequested(s[r.piece.index], r.peer)]];
      outstandingRequests := outstandingRequests[id := r];
      issued := issued + [Issue(r, parent)];
      if r.kind.Direct? {
        directTimers := directTimers + {id};
      }
    }

    /** Up to the point where the request is recorded. */
    method BeginRequest(peer: PeerId, file: FileId, options: Option<DirectOptions>, parent: Option<RequestId>, env: Env)
      returns (begun: bool)
      modifies this
      ensures begun == Begin(old(Abs()), peer, file, options, parent, env).Some?
      ensures Abs() == if begun then Begin(old(Abs()), peer, file, options, parent, env).value else old(Abs())
    {
      hide NextPiece, Record, SameShape;
      if file !in managers {
        return false;
      }
      var next := NextMissing(file);
      if next.None? || (options.Some? && options.value.timeoutMs == 0) {
        return false;
      }
      EnsureWindow(peer, file, options);
      var kind := Plain;
      if options.Some? {
        var o := options.value;
        kind := Direct(DirectInfo(o.window, o.controller, o.timeoutMs, env.view.now + o.timeoutMs,
                                  if o.window in directWindows then directWindows[o.window].generation else 0, o.retryCount));
      }
      RecordRequest(Request(Piece(file, next.value), peer, kind), parent);
      begun := true;
    }

    method RequestNextPiece(peer: PeerId, file: FileId, options: Option<DirectOptions>, parent: Option<RequestId>, env: Env)
      returns (scheduled: bool)
      modifies this
      ensures (Abs(), scheduled) == RequestNext(old(Abs()), peer, file, options, parent, env)
    {
      hide Begin, FailAndFinalize, LifecycleError;
      BegunIsRecorded(Abs(), peer, file, options, parent, env);
      var id := |issued|;
      scheduled := BeginRequest(peer, file, options, parent, env);
      if !scheduled {
        return;
      }
      var r := outstandingRequests[id];
      if !env.sendOk(id) {
        FailRequest(id, r.piece, SendFailed);
        return false;
      }
      if !env.saveOk(id) {
        EmitDirectLifecycleError(Some(r));
        FailRequest(id, r.piece, Cancelled);
        return false;
      }
    }

    method RequestPieceWindow(peer: PeerId, file: FileId, o: DirectOptions, cap: nat) returns (result: OpenResult)
      modifies this
      ensures (Abs(), result) == OpenWindow(old(Abs()), peer, file, o, cap)
    {
      if cap == 0 {
        return InvalidCap;
      }
      if o.window !in directWindows {
        directWindows := directWindows[o.window := NewWindow(file, peer, o.controller, cap, nextDirectGeneration)];
        windowOrder := windowOrder + [o.window];
        nextDirectGeneration := nextDirectGeneration + 1;
      } else {
        var w := directWindows[o.window];
        if w.cap != cap {
          return CapMismatch;
        }
        if w.file != file || w.peer != peer || w.controller != o.controller {
          return IdentityMismatch;
        }
        if w.disabled {
          return WindowCancelled;
        }
      }
      EnqueueWindow(o.window, Fill(o));
      result := Opened;
    }

    method CountOutstandingForWindow(key: WindowKey) returns (count: nat)
      ensures count == |InWindow(Abs(), key)|
    {
      count := 0;
      var rest := outstandingRequests.Keys;
      ghost var counted: set<RequestId> := {};
      while rest != {}
        invariant rest <= outstandingRequests.Keys
        invariant counted == Keyed(outstandingRequests, key) - rest && count == |counted|
        decreases |rest|
      {
        var id: RequestId :| id in rest;
        if outstandingRequests[id].kind.Direct? && outstandingRequests[id].kind.info.window == key {
          count := count + 1;
          counted := counted + {id};
        }
        rest := rest - {id};
      }
      assert counted == Keyed(outstandingRequests, key);
    }

    /** The loop that fills a window. */
    method FillWindow(peer: PeerId, file: FileId, o: DirectOptions, cap: nat, env: Env)
      modifies this
      ensures Abs() == FillLoop(old(Abs()), peer, file, o, cap, env)
    {
      hide RequestNext, Unrequested;
      ghost var target := FillLoop(Abs(), peer, file, o, cap, env);
      var count := CountOutstandingForWindow(o.window);
      while count < cap
        invariant FillLoop(Abs(), peer, file, o, cap, env) == target
        invariant count == |InWindow(Abs(), o.window)|
        decreases Unrequested(Abs(), file)
      {
        ghost var before := Abs();
        var scheduled := RequestNextPiece(peer, file, Some(o), None, env);
        if !scheduled {
          return;
        }
        RequestUsesUpOne(before, peer, file, Some(o), None, env);
        count := CountOutstandingForWindow(o.window);
      }
    }

    method RunQueuedRetry(id: RequestId, r: Request, env: Env)
      requires r.kind.Direct?
      modifies this
      ensures Abs() == RunRetry(old(Abs()), id, r, env)
    {
      hide RequestNext, Unfail;
      var info := r.kind.info;
      if id in directTombstones || info.window !in directWindows {
        return;
      }
      var w := directWindows[info.window];
      var count := CountOutstandingForWindow(info.window);
      if w.disabled || w.generation != info.generation || count >= w.cap {
        return;
      }
      ResetFailed(r.piece);
      var o := DirectOptions(info.window, info.controller, info.timeoutMs, info.retryCount + 1);
      var _ := RequestNextPiece(r.peer, r.piece.file, Some(o), Some(id), env);
    }

    /** The task at the head of a window's queue. */
    method RunWindowTask(key: WindowKey, env: Env)
      modifies this
      ensures Abs() == RunTask(old(Abs()), key, env)
    {
      hide FillLoop, RunRetry, ExpireDirect;
      if key !in directWindows || directWindows[key].queue == [] {
        return;
      }
      var w := directWindows[key];
      directWindows := directWindows[key := w.(queue := w.queue[1..])];
      if w.disabled || disposed {
        return;
      }
      match w.queue[0]
      case Fill(o) => FillWindow(w.peer, w.file, o, w.cap, env);
      case Retry(id, r) =>
        if r.kind.Direct? {
          RunQueuedRetry(id, r, env);
        }
      case Expire(id) => ExpireDirectRequest(id);
    }

    method TimerFires(id: RequestId)
      modifies this
      ensures Abs() == FireTimer(old(Abs()), id)
    {
      if id in directTimers && id in outstandingRequests && outstandingRequests[id].kind.Direct? {
        EnqueueWindow(outstandingRequests[id].kind.info.window, Expire(id));
      }
    }

    method DisableSelected(s: Selector)
      modifies this`directWindows, this`nextDirectGeneration
      ensures Abs() == DisableWindows(old(Abs()), s, |old(windowOrder)|)
    {
      for k := 0 to |windowOrder|
        invariant Abs() == DisableWindows(old(Abs()), s, k)
      {
        var key := windowOrder[k];
        if key in directWindows && SelectsWindow(s, key, directWindows[key]) {
          directWindows := directWindows[key := directWindows[key].(disabled := true, generation := nextDirectGeneration)];
          nextDirectGeneration := nextDirectGeneration + 1;
        }
      }
    }

    method CancelSelected(s: Selector, n: nat)
      modifies this
      ensures Abs() == CancelRequests(old(Abs()), s, n)
    {
      hide Finalize, SelectsRequest;
      for id := 0 to n
        invariant Abs() == CancelRequests(old(Abs()), s, id)
      {
        if id in outstandingRequests && SelectsRequest(s, outstandingRequests[id]) {
          directTombstones := directTombstones + {id};
          var _ := FinalizeDirectRequest(id, Cancelled);
        }
      }
    }

    /** `cancelDirectRequests`: disable the selected windows, then end the selected requests. */
    method CancelDirectRequests(s: Selector)
      modifies this
      ensures Abs() == CancelDirect(old(Abs()), s)
    {
      hide DisableWindows, CancelRequests;
      var n := |issued|;
      DisableSelected(s);
      CancelSelected(s, n);
    }

    method DisposeEngine()
      modifies this
      ensures Abs() == Dispose(old(Abs()))
    {
      hide CancelDirect;
      if disposed {
        return;
      }
      CancelDirectRequests(Everything);
      LetGo();
    }

    method LetGo()
      modifies this`disposed, this`directTimers, this`outstandingRequests, this`directWindows, this`windowOrder
      ensures Abs() == old(Abs()).(disposed := true, timers := {}, outstanding := map[], windows := map[], windowOrder := [])
    {
      disposed := true;
      directTimers, outstandingRequests, directWindows, windowOrder := {}, map[], map[], [];
    }

    // ----- leases and grid requests -----

    method ReopenPiece(p: Piece)
      modifies this`managers
      ensures Abs() == Reopen(old(Abs()), p)
    {
      hide Fail, Unfail;
      MarkFailedPiece(p);
      ResetFailed(p);
    }

    method DropLeased(p: Piece, id: RequestId)
      modifies this`leases, this`outstandingRequests, this`incomingChunks
      ensures Abs() == old(Abs()).(leases := old(leases) - {p}).(outstanding := old(outstandingRequests) - {id}, incoming := old(incomingChunks) - {id})
    {
      leases := leases - {p};
      outstandingRequests := outstandingRequests - {id};
      incomingChunks := incomingChunks - {id};
    }

    method ExpireOneLease(id: RequestId, now: int)
      requires id < |issued|
      modifies this`leases, this`outstandingRequests, this`incomingChunks, this`managers
      ensures Abs() == ExpireLease(old(Abs()), id, now)
    {
      hide Reopen;
      var p := issued[id].request.piece;
      if p in leases && leases[p].id == id && leases[p].expiresAt <= now {
        if id in outstandingRequests {
          var piece := outstandingRequests[id].piece;
          DropLeased(p, id);
          ReopenPiece(piece);
        } else {
          leases := leases - {p};
        }
      }
    }

    method ExpireRequestLeases(now: int)
      modifies this`leases, this`outstandingRequests, this`incomingChunks, this`managers
      ensures Abs() == ExpireLeases(old(Abs()), now)
    {
      hide ExpireLease;
      for id := 0 to |issued|
        invariant Abs() == ExpireLeasesFirst(old(Abs()), now, id)
      {
        ExpireOneLease(id, now);
      }
    }

    method BootstrapAvailability(file: FileId, o: GridOptions, now: int)
      modifies this`availability
      ensures Abs() == Bootstrap(old(Abs()), file, o, now)
    {
      hide Update;
      if file !in availability && file in manifests {
        var n := |manifests[file]|;
        var all := PieceMap(file, seq(n, i => i), n, 1, now);
        availability := Update(availability, o.owner, Owner, all).0;
      }
    }

    /** What is known about each unleased piece among `missing`. */
    method DescribeMissing(file: FileId, missing: seq<nat>, o: GridOptions, v: View) returns (items: seq<Item>)
      requires forall k :: 0 <= k < |missing| ==> Has(Abs(), Piece(file, missing[k]))
      ensures items == ItemsOf(Abs(), file, missing, o, v)
    {
      hide ItemAt;
      items := [];
      for k := 0 to |missing|
        invariant items == ItemsOf(Abs(), file, missing[..k], o, v)
      {
        assert missing[..k + 1][..k] == missing[..k];
        var p := Piece(file, missing[k]);
        if p !in leases {
          items := items + [ItemAt(Abs(), p, o, v)];
        }
      }
      assert missing[..|missing|] == missing;
    }

    method RecordLeased(p: Piece, peer: PeerId, o: GridOptions, now: int) returns (id: RequestId)
      requires Has(Abs(), p)
      modifies this
      ensures id == |old(issued)|
      ensures Abs() == Record(old(Abs()).(leases := old(leases)[p := Lease(peer, id, now + o.leaseMs)]), Request(p, peer, Grid(o)), None)
    {
      hide Record;
      id := |issued|;
      leases := leases[p := Lease(peer, id, now + o.leaseMs)];
      RecordRequest(Request(p, peer, Grid(o)), None);
    }

    method RequestNextGridPiece(file: FileId, o: GridOptions, env: Env) returns (result: GridResult)
      modifies this
      ensures (Abs(), result) == RequestNextGrid(old(Abs()), file, o, env)
    {
      hide ExpireLeases, Bootstrap, ItemsOf, FirstChoice, Sorting.Sort, Select, Record;
      if file !in managers {
        return UnknownFile;
      }
      var missing := MissingPieces(managers[file]);
      if missing == [] {
        return NothingMissing;
      }
      ghost var before := Abs();
      ExpireRequestLeases(env.view.now);
      BootstrapAvailability(file, o, env.view.now);
      assert Abs() == GridReady(before, file, o, env.view.now);
      LeaseExpiryKeepsPieces(before, file, env.view.now);
      var items := DescribeMissing(file, missing, o, env.view);
      var choice := ChooseRanked(Sorting.Sort(items, ItemBefore), cfg.maxRetries);
      match choice
      case NoAvailablePeer => result := NobodyAvailable;
      case Exhausted(i) => result := RetryLimit(i);
      case Scheduled(i, provider, reason) =>
        GridChosen(before, file, o, env.view);
        if file !in availability || i >= |availability[file].providers| {
          return LeaseRefused(i);
        }
        var id := RecordLeased(Piece(file, i), provider.peer, o, env.view.now);
        result := GridScheduled(Piece(file, i), id, reason);
    }

    method CountOutstandingForFile(file: FileId) returns (count: nat)
      ensures count == |OfFile(Abs(), file)|
    {
      count := 0;
      var rest := outstandingRequests.Keys;
      ghost var counted: set<RequestId> := {};
      while rest != {}
        invariant rest <= outstandingRequests.Keys
        invariant counted == OfFile(Abs(), file) - rest && count == |counted|
        decreases |rest|
      {
        var id: RequestId :| id in rest;
        if outstandingRequests[id].piece.file == file {
          count := count + 1;
          counted := counted + {id};
        }
        rest := rest - {id};
      }
      assert counted == OfFile(Abs(), file);
    }

    /** One round of the window loop. */
    method RequestGridPieceRound(file: FileId, o: GridOptions, maxInFlightTotal: nat, env: Env)
      modifies this
      ensures Abs() == GridRound(old(Abs()), file, o, maxInFlightTotal, env)
    {
      hide RequestNextGrid;
      var count := CountOutstandingForFile(file);
      if count < maxInFlightTotal {
        var _ := RequestNextGridPiece(file, o, env);
      }
    }

    // ----- messages -----

    method ReleaseLeaseOf(p: Piece, id: RequestId)
      modifies this`leases
      ensures Abs() == Release(old(Abs()), p, id)
    {
      if p in leases && leases[p].id == id {
        leases := leases - {p};
      }
    }

    method RetryPiece(p: Piece, peer: PeerId, kind: Option<Kind>, env: Env)
      modifies this
      ensures Abs() == AskAgain(old(Abs()), p, peer, kind, env)
    {
      hide RequestNext, RequestNextGrid, Unfail;
      if p.file in managers && p.index < |managers[p.file]| && managers[p.file][p.index].retryCount <= cfg.maxRetries {
        ResetFailed(p);
        if kind.Some? && kind.value.Grid? {
          var _ := RequestNextGridPiece(p.file, kind.value.options, env);
        } else {
          var _ := RequestNextPiece(peer, p.file, None, None, env);
        }
      }
    }

    method RefuseChunk(h: Header)
      modifies this
      ensures Abs() == RejectChunkCore(old(Abs()), h)
    {
      hide Fail, FinalizeOrDrop, Release;
      incomingChunks := incomingChunks - {h.id};
      ReleaseLeaseOf(h.piece, h.id);
      MarkFailedPiece(h.piece);
      FinalizeOrDelete(h.id, InvalidChunk);
    }

    method RejectIncomingChunk(peer: PeerId, h: Header, env: Env)
      modifies this
      ensures Abs() == RejectChunk(old(Abs()), peer, h, env)
    {
      hide RejectChunkCore, AskAgain;
      var direct := h.id in outstandingRequests && outstandingRequests[h.id].kind.Direct?;
      var kind := if h.id in outstandingRequests then Some(outstandingRequests[h.id].kind) else None;
      RefuseChunk(h);
      if env.replyOk && !direct {
        RetryPiece(h.piece, peer, kind, env);
      }
    }

    method HandleChunkHeader(peer: PeerId, h: Header, env: Env)
      modifies this
      ensures Abs() == ReceiveHeader(old(Abs()), peer, h, env)
    {
      hide RejectChunk;
      if h.id !in outstandingRequests || outstandingRequests[h.id].peer != peer || outstandingRequests[h.id].piece != h.piece
         || h.id in directTombstones {
        return;
      }
      if peer in pendingChunks {
        if pendingChunks[peer] != h {
          RejectIncomingChunk(peer, h, env);
        }
      } else {
        pendingChunks := pendingChunks[peer := h];
      }
    }

    method CancelCompetingGridRequests(p: Piece, keep: RequestId)
      modifies this`outstandingRequests, this`incomingChunks, this`directTombstones, this`pendingChunks
      ensures Abs() == CancelCompeting(old(Abs()), p, keep)
    {
      var gone := set id | id in outstandingRequests && outstandingRequests[id].piece == p && id != keep;
      ForgetCompeting(gone);
    }

    method ForgetCompeting(gone: set<RequestId>)
      modifies this`outstandingRequests, this`incomingChunks, this`directTombstones, this`pendingChunks
      ensures Abs() == old(Abs()).(outstanding := old(outstandingRequests) - gone, incoming := old(incomingChunks) - gone,
        tombstones := old(directTombstones) + gone,
        pending := map q | q in old(pendingChunks) && old(pendingChunks)[q].id !in gone :: old(pendingChunks)[q])
    {
      outstandingRequests, incomingChunks := outstandingRequests - gone, incomingChunks - gone;
      directTombstones := directTombstones + gone;
      pendingChunks := map q | q in pendingChunks && pendingChunks[q].id !in gone :: pendingChunks[q];
    }

    method ReceiveWrongPiece(p: Piece, id: RequestId, env: Env) returns (result: ReceiveResult)
      modifies this
      ensures (Abs(), result) == ReceiveMismatch(old(Abs()), p, id, env)
    {
      hide Fail, Finalize, FinalizeOrDrop, LifecycleError, Release;
      var outstanding := if id in outstandingRequests then Some(outstandingRequests[id]) else None;
      ReleaseLeaseOf(p, id);
      MarkFailedPiece(p);
      if !env.deleteOk {
        return Threw;
      }
      storage := storage - {p};
      if !env.persistOk {
        EmitDirectLifecycleError(outstanding);
        var _ := FinalizeDirectRequest(id, Cancelled);
      }
      FinalizeOrDelete(id, HashMismatch);
      result := Mismatch;
    }

    method StorePiece(p: Piece, id: RequestId, data: Bytes)
      requires Has(Abs(), p)
      modifies this`storage, this`managers, this`leases
      ensures Abs() == StoreVerified(old(Abs()), p, id, data)
    {
      hide Release, SameShape;
      storage := storage[p := data];
      var s := managers[p.file];
      managers := managers[p.file := s[p.index := MarkVerified(s[p.index])]];
      ReleaseLeaseOf(p, id);
    }

    method ReceiveRightPiece(p: Piece, id: RequestId, data: Bytes, env: Env) returns (result: ReceiveResult)
      requires Has(Abs(), p)
      modifies this
      ensures (Abs(), result) == ReceiveMatch(old(Abs()), p, id, data, env)
    {
      hide FailAndFinalize, FinalizeOrDrop, LifecycleError, StoreVerified, CancelCompeting;
      var outstanding := if id in outstandingRequests then Some(outstandingRequests[id]) else None;
      if !env.writeOk {
        EmitDirectLifecycleError(outstanding);
        FailRequest(id, p, Cancelled);
        return StorageFailed;
      }
      StorePiece(p, id, data);
      if !env.persistOk {
        EmitDirectLifecycleError(outstanding);
        FailRequest(id, p, Cancelled);
        return PersistFailed;
      }
      FinalizeOrDelete(id, VerifiedOk);
      CancelCompetingGridRequests(p, id);
      result := if env.broadcastOk then Ack else Threw;
    }

    method ReceivePieceData(p: Piece, id: RequestId, data: Bytes, env: Env) returns (result: ReceiveResult)
      modifies this
      ensures (Abs(), result) == ReceivePiece(old(Abs()), p, id, data, env)
    {
      hide ReceiveMatch, ReceiveMismatch, Checks;
      if id in directTombstones || id !in outstandingRequests {
        return Unauthorized;
      }
      if p.file !in manifests || p.index >= |manifests[p.file]| || p.file !in managers || p.index >= |managers[p.file]| {
        return Threw;
      }
      if Checks(cfg, data, manifests[p.file][p.index]) {
        result := ReceiveRightPiece(p, id, data, env);
      } else {
        result := ReceiveWrongPiece(p, id, env);
      }
    }

    method DeliverPiece(peer: PeerId, h: Header, data: Bytes, env: Env)
      modifies this
      ensures Abs() == Deliver(old(Abs()), peer, h, data, env)
    {
      hide ReceivePiece, AskAgain, FailAndFinalize, LifecycleError;
      if h.id !in outstandingRequests || outstandingRequests[h.id].peer != peer || outstandingRequests[h.id].piece != h.piece {
        return;
      }
      var outstanding := outstandingRequests[h.id];
      var result := ReceivePieceData(h.piece, h.id, data, env);
      if result.Threw? {
        EmitDirectLifecycleError(Some(outstanding));
        FailRequest(h.id, h.piece, Cancelled);
        return;
      }
      if !result.Ack? && env.replyOk && outstanding.kind.Grid? {
        RetryPiece(h.piece, peer, Some(outstanding.kind), env);
      }
    }

    /** The chunks of a complete piece, copied one after the other. */
    method AssembleChunks(chunks: seq<Option<Bytes>>) returns (data: Option<Bytes>)
      ensures data == if AllFilled(chunks) then Some(Join(chunks)) else None
    {
      var assembled: Bytes := [];
      for i := 0 to |chunks|
        invariant AllFilled(chunks[..i]) && assembled == Join(chunks[..i])
      {
        assert chunks[..i + 1][..i] == chunks[..i];
        if chunks[i].None? {
          return None;
        }
        assembled := assembled + chunks[i].value;
      }
      assert chunks[..|chunks|] == chunks;
      data := Some(assembled);
    }

    method AppendIncomingChunk(existing: Option<Assembly>, peer: PeerId, h: Header, frame: Bytes) returns (r: Appended)
      ensures r == AppendChunk(existing, peer, h, frame)
    {
      hide AllFilled;
      if h.totalChunks <= 0 || h.chunkIndex < 0 || h.chunkIndex >= h.totalChunks || h.payloadSize != |frame| {
        return Reject;
      }
      var a := if existing.Some? then existing.value else Fresh(peer, h);
      if a.peer != peer || a.piece != h.piece || a.totalChunks != h.totalChunks
         || h.chunkIndex >= |a.chunks| || a.chunks[h.chunkIndex].Some? {
        return Reject;
      }
      a := a.(chunks := a.chunks[h.chunkIndex := Some(frame)], receivedBytes := a.receivedBytes + |frame|, receivedChunks := a.receivedChunks + 1);
      if a.receivedChunks < h.totalChunks {
        return Incomplete(a);
      }
      var data := AssembleChunks(a.chunks);
      r := if data.Some? then Complete(data.value) else Reject;
    }

    method HandleTransportBinary(peer: PeerId, frame: Bytes, env: Env)
      modifies this
      ensures Abs() == ReceiveBinary(old(Abs()), peer, frame, env)
    {
      hide RejectChunk, Deliver, AppendChunk;
      if peer !in pendingChunks {
        return;
      }
      var h := pendingChunks[peer];
      var existing := if h.id in incomingChunks then Some(incomingChunks[h.id]) else None;
      pendingChunks := pendingChunks - {peer};
      var appended := AppendIncomingChunk(existing, peer, h, frame);
      match appended
      case Reject => RejectIncomingChunk(peer, h, env);
      case Incomplete(a) => incomingChunks := incomingChunks[h.id := a];
      case Complete(data) =>
        incomingChunks := incomingChunks - {h.id};
        DeliverPiece(peer, h, data, env);
    }

    method HandleAck(peer: PeerId, id: RequestId, p: Piece)
      modifies this
      ensures Abs() == ReceiveAck(old(Abs()), peer, id, p)
    {
      hide Release, FinalizeOrDrop;
      if id !in outstandingRequests || outstandingRequests[id].peer != peer || outstandingRequests[id].piece != p {
        return;
      }
      ReleaseLeaseOf(p, id);
      FinalizeOrDelete(id, Acknowledged);
    }

    method HandleReject(peer: PeerId, id: RequestId, env: Env)
      modifies this
      ensures Abs() == ReceiveReject(old(Abs()), peer, id, env)
    {
      hide Release, FinalizeOrDrop, Fail, AskAgain;
      if id !in outstandingRequests || outstandingRequests[id].peer != peer {
        return;
      }
      var r := outstandingRequests[id];
      ReleaseLeaseOf(r.piece, id);
      MarkFailedPiece(r.piece);
      FinalizeOrDelete(id, ProviderReject);
      if !r.kind.Direct? {
        RetryPiece(r.piece, r.peer, Some(r.kind), env);
      }
    }

    method HandleCancel(id: RequestId)
      modifies this`directTombstones
      ensures Abs() == ReceiveCancel(old(Abs()), id)
    {
      directTombstones := directTombstones + {id};
    }

    method UpdatePeerPieceMap(peer: PeerId, role: Role, m: PieceMap)
      modifies this`availability
      ensures Abs() == ReceiveMap(old(Abs()), peer, role, m)
    {
      hide Update;
      availability := Update(availability, peer, role, m).0;
    }

    /** Whatever happens to the engine, it goes through exactly the step on which the runs are built. */
    method Dispatch(a: Action, env: Env)
      modifies this
      ensures Abs() == Step(old(Abs()), a, env)
    {
      hide OpenWindow, RunTask, FireTimer, ExpireAll, CancelDirect, Dispose, GridRound, ExpireLeases,
           ReceiveHeader, ReceiveBinary, ReceiveAck, ReceiveReject, Update;
      match a
      case DoOpen(peer, file, o, cap) => var _ := RequestPieceWindow(peer, file, o.(retryCount := 0), cap);
      case DoTask(key) => RunWindowTask(key, env);
      case DoTimer(id) => TimerFires(id);
      case DoExpireAll => ExpireDirectRequests(env.view.now);
      case DoCancel(s) => CancelDirectRequests(s);
      case DoDispose => DisposeEngine();
      case DoGrid(file, o, total) => RequestGridPieceRound(file, o, total, env);
      case DoExpireLeases => ExpireRequestLeases(env.view.now);
      case DoHeader(peer, h) => if !disposed { HandleChunkHeader(peer, h, env); }
      case DoBinary(peer, frame) => if !disposed { HandleTransportBinary(peer, frame, env); }
      case DoAck(peer, id, p) => if !disposed { HandleAck(peer, id, p); }
      case DoCancelMessage(id) => if !disposed { HandleCancel(id); }
      case DoReject(peer, id) => if !disposed { HandleReject(peer, id, env); }
      case DoMap(peer, role, m) => if !disposed { UpdatePeerPieceMap(peer, role, m); }
    }

    /** One event: a valid engine stays valid, whatever the event and however it goes. */
    method Handle(a: Action, env: Env)
      requires Valid()
      modifies this
      ensures Valid() && history == old(history) + [Event(a, env)] && Abs() == Step(old(Abs()), a, env)
    {
      hide Start, Books, Integral, Settled, Once, Step;
      ghost var before := history;
      Dispatch(a, env);
      history := before + [Event(a, env)];
      assert history[..|history| - 1] == before;
      Reached(origin, history);
    }

    /** A whole run, event by event. */
    method HandleAll(events: seq<Event>)
      requires Valid()
      modifies this
      ensures Valid() && history == old(history) + events
    {
      hide Start, Run, Books, Integral, Settled, Once;
      for k := 0 to |events|
        invariant Valid() && history == old(history) + events[..k]
      {
        assert events[..k + 1] == events[..k] + [events[k]];
        Handle(events[k].action, events[k].env);
      }
      assert events[..|events|] == events;
    }

    /** What a valid engine promises of its fields: retries are bounded, and what it calls verified is on
        disk and checks out. */
    lemma Promises(p: Piece)
      requires Valid()
      ensures Asked(issued, p) <= cfg.maxRetries + 1
      ensures p.file in managers && p.index < |managers[p.file]| && managers[p.file][p.index].status.Verified? ==>
        && p in storage && p.file in manifests && p.index < |manifests[p.file]|
        && Checks(cfg, storage[p], manifests[p.file][p.index])
    {
      BudgetKept(origin, history, p);
      if Has(Abs(), p) && StateOf(Abs(), p).status.Verified? {
        assert Backed(Abs(), p);
      }
    }

    /** Cancelling everything on an engine that made direct requests only: nothing is outstanding, no timer
        runs, and every request ever made has had exactly one terminal event. */
    method CancelAll(env: Env)
      requires Valid()
      modifies this
      ensures Valid() && history == old(history) + [Event(DoCancel(Everything), env)]
      ensures DirectOnly(old(history)) ==>
        && outstandingRequests == map[] && directTimers == {} && |terminals| == |issued| == |old(issued)|
        && forall j, k :: 0 <= j < k < |terminals| ==> terminals[j].id != terminals[k].id
    {
      hide Start, Run, Books, Integral, Settled, Once;
      if DirectOnly(history) {
        CancelEverything(origin, history);
      }
      Handle(DoCancel(Everything), env);
      if DirectOnly(old(history)) {
        ExactlyOnce(origin, history);
      }
    }
  }

  /** What every reachable engine satisfies. */
  lemma Reached(e: Engine, run: seq<Event>)
    requires Start(e)
    ensures var r := Run(e, run);
      Books(r) && Integral(r) && Settled(r) && (DirectOnly(run) ==> Once(r, {}))
  {
    hide Start, Run, Books, Integral, Settled, Once;
    RunKeeps(e, run);
    StartBooks(e);
    if DirectOnly(run) {
      RunOnce(e, run);
    }
  }

  lemma BudgetKept(e: Engine, run: seq<Event>, p: Piece)
    requires Start(e)
    ensures Run(e, run).cfg == e.cfg && Asked(Run(e, run).issued, p) <= e.cfg.maxRetries + 1
  {
    hide Run, Books, Keeps, Asked;
    RunKeeps(e, run);
    KeepsManifests(e, Run(e, run));
    if Has(e, p) {
      RetryBudget(e, run, p);
    } else {
      NeverAsked(Run(e, run), p);
    }
  }

  lemma NeverAsked(e: Engine, p: Piece)
    requires Books(e) && !Has(e, p)
    ensures Asked(e.issued, p) == 0
  {
    hide Arrivals;
    NoneFor(e.issued, p);
  }

  lemma {:induction false} NoneFor(issued: seq<Issue>, p: Piece)
    requires forall k :: 0 <= k < |issued| ==> issued[k].request.piece != p
    ensures Asked(issued, p) == 0
  {
    if issued != [] {
      NoneFor(issued[..|issued| - 1], p);
    }
  }

  /** What begins is recorded under the next id, as outstanding. */
  lemma BegunIsRecorded(e: Engine, peer: PeerId, file: FileId, options: Option<DirectOptions>, parent: Option<RequestId>, env: Env)
    ensures Begin(e, peer, file, options, parent, env).Some? ==>
      var b := Begin(e, peer, file, options, parent, env).value; var id := |e.issued|;
      && |b.issued| == id + 1 && id in b.outstanding && b.issued[id].request == b.outstanding[id]
  {
    hide NextPiece, SameShape, MakeKind;
  }
}
