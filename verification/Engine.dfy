/** The transfer engine as a state and one function per handler (`PonsWarpEngine`).

    A handler runs to completion as one step. Whether a send, a save or a storage operation succeeds
    is decided by the environment. Request ids are the positions in `issued`, so they never repeat. */
module Engine {
  import opened Common
  import opened Pieces
  import opened ChunkAssembly
  import opened Availability
  import opened GridChoice

  datatype Config = Config(maxRetries: nat, hash: Bytes -> Digest)

  /** Everything outside the engine that decides how one handler goes. */
  datatype Env = Env(
    view: View,
    sendOk: RequestId -> bool,     // the PIECE_REQUEST of a request is sent
    saveOk: RequestId -> bool,     // the session state is saved after it
    deleteOk: bool, writeOk: bool, // storage operations on the received piece
    persistOk: bool,               // the session state is saved after a receipt
    broadcastOk: bool,             // the new piece map reaches the known peers
    replyOk: bool)                 // the ACK or REJECT reply is sent

  datatype DirectInfo = DirectInfo(
    window: WindowKey, controller: nat, timeoutMs: nat, expiresAt: int, generation: nat, retryCount: nat)

  /** How a request came about; a plain one has neither window nor grid options. */
  datatype Kind = Direct(info: DirectInfo) | Grid(options: GridOptions) | Plain

  datatype Request = Request(piece: Piece, peer: PeerId, kind: Kind)

  /** `parent` is the request this one retries. */
  datatype Issue = Issue(request: Request, parent: Option<RequestId>)

  datatype TerminalReason = VerifiedOk | Acknowledged | SendFailed | RequestTimeout | Cancelled | ProviderReject | HashMismatch | InvalidChunk

  datatype Terminal = Terminal(id: RequestId, reason: TerminalReason, retryCount: nat, willRetry: bool, window: WindowKey)

  datatype DirectOptions = DirectOptions(window: WindowKey, controller: nat, timeoutMs: nat, retryCount: nat)

  /** Work queued on a window. */
  datatype Task = Fill(options: DirectOptions) | Retry(id: RequestId, request: Request) | Expire(id: RequestId)

  datatype Window = Window(
    file: FileId, peer: PeerId, controller: nat, cap: nat, generation: nat,
    queue: seq<Task>, disabled: bool, exhausted: bool)

  datatype Engine = Engine(
    cfg: Config,
    manifests: map<FileId, seq<Descriptor>>,
    managers: map<FileId, States>,
    storage: map<Piece, Bytes>,
    outstanding: map<RequestId, Request>,
    issued: seq<Issue>,                      // every PIECE_REQUEST so far
    timers: set<RequestId>,
    tombstones: set<RequestId>,
    windows: map<WindowKey, Window>,
    windowOrder: seq<WindowKey>,             // insertion order of `windows`
    nextGeneration: nat,
    pending: map<PeerId, Header>,
    incoming: map<RequestId, Assembly>,
    table: Table,
    leases: map<Piece, Lease>,
    terminals: seq<Terminal>,                // requestTerminal events
    exhaustions: seq<WindowKey>,             // requestWindowExhausted events
    disposed: bool)

  // ----- piece states -----

  predicate Has(e: Engine, p: Piece) {
    p.file in e.managers && p.index < |e.managers[p.file]|
  }

  function StateOf(e: Engine, p: Piece): PieceState
    requires Has(e, p)
  {
    e.managers[p.file][p.index]
  }

  /** The same files with the same number of pieces. */
  ghost predicate SameShape(a: Engine, b: Engine) {
    a.managers.Keys == b.managers.Keys && forall f :: f in a.managers ==> |a.managers[f]| == |b.managers[f]|
  }

  function SetState(e: Engine, p: Piece, s: PieceState): (r: Engine)
    requires Has(e, p)
    ensures SameShape(e, r)
  {
    e.(managers := e.managers[p.file := e.managers[p.file][p.index := s]])
  }

  function Fail(e: Engine, p: Piece): (r: Engine)
    ensures SameShape(e, r)
  {
    if Has(e, p) then SetState(e, p, MarkFailed(StateOf(e, p))) else e
  }

  function Unfail(e: Engine, p: Piece): (r: Engine)
    ensures SameShape(e, r)
  {
    if Has(e, p) && StateOf(e, p).status.Failed? then SetState(e, p, ResetFailedToMissing(StateOf(e, p))) else e
  }

  /** `markFailed` followed by `resetFailedToMissing`. */
  function Reopen(e: Engine, p: Piece): (r: Engine)
    ensures r.issued == e.issued && SameShape(e, r)
  {
    Unfail(Fail(e, p), p)
  }

  predicate RetriesLeft(e: Engine, p: Piece) {
    Has(e, p) && StateOf(e, p).retryCount <= e.cfg.maxRetries
  }

  // ----- windows -----

  function InWindow(e: Engine, key: WindowKey): set<RequestId> {
    Keyed(e.outstanding, key)
  }

  function Keyed(requests: map<RequestId, Request>, key: WindowKey): set<RequestId> {
    set id | id in requests && requests[id].kind.Direct? && requests[id].kind.info.window == key
  }

  function OfFile(e: Engine, file: FileId): set<RequestId> {
    set id | id in e.outstanding && e.outstanding[id].piece.file == file
  }

  function OfPeer(e: Engine, peer: PeerId): set<RequestId> {
    set id | id in e.outstanding && e.outstanding[id].peer == peer
  }

  function ActiveCount(e: Engine): PeerId -> nat {
    peer => |OfPeer(e, peer)|
  }

  function Enqueue(e: Engine, key: WindowKey, task: Task): Engine {
    if key !in e.windows || e.windows[key].disabled || e.disposed then e
    else e.(windows := e.windows[key := e.windows[key].(queue := e.windows[key].queue + [task])])
  }

  /** `emitDirectLifecycleError`: an error of a direct request disables its window. */
  function LifecycleError(e: Engine, r: Option<Request>): Engine {
    if r.Some? && r.value.kind.Direct? && r.value.kind.info.window in e.windows then
      var key := r.value.kind.info.window;
      e.(windows := e.windows[key := e.windows[key].(disabled := true)])
    else e
  }

  // ----- the end of a request -----

  predicate Retryable(reason: TerminalReason) {
    reason.ProviderReject? || reason.SendFailed? || reason.RequestTimeout? || reason.HashMismatch? || reason.InvalidChunk?
  }

  predicate IsDirect(e: Engine, id: RequestId) {
    id in e.outstanding && e.outstanding[id].kind.Direct?
  }

  function DropPending(pending: map<PeerId, Header>, id: RequestId): map<PeerId, Header> {
    map peer | peer in pending && pending[peer].id != id :: pending[peer]
  }

  function Close(e: Engine, id: RequestId, reason: TerminalReason): Engine
    requires IsDirect(e, id)
  {
    var info := e.outstanding[id].kind.info;
    e.(outstanding := e.outstanding - {id},
       timers := e.timers - {id},
       incoming := e.incoming - {id},
       pending := DropPending(e.pending, id),
       terminals := e.terminals + [Terminal(id, reason, info.retryCount,
                                            Retryable(reason) && info.retryCount < e.cfg.maxRetries, info.window)])
  }

  /** `finalizeDirectRequest`; it does nothing unless the request is an outstanding direct one. */
  function Finalize(e: Engine, id: RequestId, reason: TerminalReason): Engine {
    if !IsDirect(e, id) then e
    else
      var r := e.outstanding[id];
      var key := r.kind.info.window;
      var c := Close(e, id, reason);
      if Retryable(reason) && r.kind.info.retryCount < e.cfg.maxRetries then Enqueue(c, key, Retry(id, r))
      else if Retryable(reason) && key in c.windows && !c.windows[key].exhausted then
        c.(windows := c.windows[key := c.windows[key].(exhausted := true)], exhaustions := c.exhaustions + [key])
      else c
  }

  /** The caller's `if (!finalizeDirectRequest(..)) outstandingRequests.delete(..)`. */
  function FinalizeOrDrop(e: Engine, id: RequestId, reason: TerminalReason): Engine {
    if IsDirect(e, id) then Finalize(e, id, reason) else e.(outstanding := e.outstanding - {id})
  }

  function FailAndFinalize(e: Engine, id: RequestId, p: Piece, reason: TerminalReason): Engine {
    Finalize(Fail(e, p), id, reason)
  }

  function ExpireDirect(e: Engine, id: RequestId): Engine {
    if IsDirect(e, id) then FailAndFinalize(e, id, e.outstanding[id].piece, RequestTimeout) else e
  }

  function Release(e: Engine, p: Piece, id: RequestId): Engine {
    e.(leases := ReleaseLease(e.leases, p, id))
  }

  // ----- asking for a piece -----

  /** The request is recorded, its piece marked and, if direct, its timer armed. */
  function Record(e: Engine, r: Request, parent: Option<RequestId>): Engine
    requires Has(e, r.piece)
  {
    var id := |e.issued|;
    SetState(e, r.piece, MarkRequested(StateOf(e, r.piece), r.peer)).(
      outstanding := e.outstanding[id := r],
      issued := e.issued + [Issue(r, parent)],
      timers := if r.kind.Direct? then e.timers + {id} else e.timers)
  }

  /** `OwnerFirstScheduler.next`: the first missing piece that still has retries. */
  function NextPiece(s: States, maxRetries: nat): (r: Option<nat>)
    ensures r.Some? ==> r.value < |s| && Wanted(s[r.value]) && s[r.value].retryCount <= maxRetries
  {
    NextAmong(s, MissingPieces(s), maxRetries)
  }

  function NextAmong(s: States, missing: seq<nat>, maxRetries: nat): (r: Option<nat>)
    requires forall k :: 0 <= k < |missing| ==> missing[k] < |s| && Wanted(s[missing[k]])
    ensures r.Some? ==> r.value < |s| && Wanted(s[r.value]) && s[r.value].retryCount <= maxRetries
  {
    if missing == [] then None
    else if s[missing[0]].retryCount <= maxRetries then Some(missing[0])
    else NextAmong(s, missing[1..], maxRetries)
  }

  function NewWindow(file: FileId, peer: PeerId, controller: nat, cap: nat, generation: nat): Window {
    Window(file, peer, controller, cap, generation, [], false, false)
  }

  function AddWindow(e: Engine, key: WindowKey, w: Window): Engine {
    e.(windows := e.windows[key := w], windowOrder := e.windowOrder + [key])
  }

  function MakeKind(e: Engine, options: Option<DirectOptions>, now: int): Kind {
    if options.None? then Plain
    else
      var o := options.value;
      Direct(DirectInfo(o.window, o.controller, o.timeoutMs, now + o.timeoutMs,
                        if o.window in e.windows then e.windows[o.window].generation else 0, o.retryCount))
  }

  /** A window unknown so far is created with room for one request. */
  function WithWindow(e: Engine, peer: PeerId, file: FileId, options: Option<DirectOptions>): Engine {
    if options.Some? && options.value.window !in e.windows then
      AddWindow(e, options.value.window, NewWindow(file, peer, options.value.controller, 1, 0))
    else e
  }

  /** The engine with which `requestNextPiece` goes ahead, if there is one to ask for. */
  function Begin(e: Engine, peer: PeerId, file: FileId, options: Option<DirectOptions>,
                 parent: Option<RequestId>, env: Env): (r: Option<Engine>)
  {
    if file !in e.managers || NextPiece(e.managers[file], e.cfg.maxRetries).None? || (options.Some? && options.value.timeoutMs == 0) then None
    else
      var piece := Piece(file, NextPiece(e.managers[file], e.cfg.maxRetries).value);
      var w := WithWindow(e, peer, file, options);
      Some(Record(w, Request(piece, peer, MakeKind(w, options, env.view.now)), parent))
  }

  /** `requestNextPiece`; the flag says whether a piece was scheduled. */
  function RequestNext(e: Engine, peer: PeerId, file: FileId, options: Option<DirectOptions>,
                       parent: Option<RequestId>, env: Env): (Engine, bool)
  {
    var begun := Begin(e, peer, file, options, parent, env);
    if begun.None? then (e, false)
    else
      var id, b := |e.issued|, begun.value;
      var piece := b.issued[id].request.piece;
      if !env.sendOk(id) then (FailAndFinalize(b, id, piece, SendFailed), false)
      else if !env.saveOk(id) then
        (FailAndFinalize(LifecycleError(b, Some(b.outstanding[id])), id, piece, Cancelled), false)
      else (b, true)
  }

  // ----- direct windows -----

  datatype OpenResult = Opened | InvalidCap | CapMismatch | IdentityMismatch | WindowCancelled

  /** `requestPieceWindow` up to queueing the fill. */
  function OpenWindow(e: Engine, peer: PeerId, file: FileId, o: DirectOptions, cap: nat): (Engine, OpenResult) {
    if cap == 0 then (e, InvalidCap)
    else if o.window !in e.windows then
      var n := AddWindow(e, o.window, NewWindow(file, peer, o.controller, cap, e.nextGeneration));
      (Enqueue(n.(nextGeneration := e.nextGeneration + 1), o.window, Fill(o)), Opened)
    else
      var w := e.windows[o.window];
      if w.cap != cap then (e, CapMismatch)
      else if w.file != file || w.peer != peer || w.controller != o.controller then (e, IdentityMismatch)
      else if w.disabled then (e, WindowCancelled)
      else (Enqueue(e, o.window, Fill(o)), Opened)
  }

  function Unrequested(e: Engine, file: FileId): nat {
    if file in e.managers then |MissingPieces(e.managers[file])| else 0
  }

  /** The fill loop: ask for pieces until the window is full or nothing was scheduled. */
  function FillLoop(e: Engine, peer: PeerId, file: FileId, o: DirectOptions, cap: nat, env: Env): Engine
    decreases Unrequested(e, file)
  {
    if |InWindow(e, o.window)| >= cap then e
    else
      var (next, scheduled) := RequestNext(e, peer, file, Some(o), None, env);
      if !scheduled then next
      else
        assert Unrequested(next, file) < Unrequested(e, file) by { RequestUsesUpOne(e, peer, file, Some(o), None, env); }
        FillLoop(next, peer, file, o, cap, env)
  }

  lemma RequestUsesUpOne(e: Engine, peer: PeerId, file: FileId, options: Option<DirectOptions>,
                         parent: Option<RequestId>, env: Env)
    requires RequestNext(e, peer, file, options, parent, env).1
    ensures Unrequested(RequestNext(e, peer, file, options, parent, env).0, file) < Unrequested(e, file)
  {
    hide FailAndFinalize, LifecycleError, NextPiece, Select;
    var s := e.managers[file];
    var i := NextPiece(s, e.cfg.maxRetries).value;
    SelectCount(s, i, MarkRequested(s[i], peer), Wanted);
  }

  /** A queued retry: dropped if the request was cancelled, its window replaced, disabled or full. */
  function RunRetry(e: Engine, id: RequestId, r: Request, env: Env): Engine
    requires r.kind.Direct?
  {
    var info := r.kind.info;
    if id in e.tombstones || info.window !in e.windows then e
    else
      var w := e.windows[info.window];
      if w.disabled || w.generation != info.generation || |InWindow(e, info.window)| >= w.cap then e
      else
        var o := DirectOptions(info.window, info.controller, info.timeoutMs, info.retryCount + 1);
        RequestNext(Unfail(e, r.piece), r.peer, r.piece.file, Some(o), Some(id), env).0
  }

  function PopTask(e: Engine, key: WindowKey): Engine
    requires key in e.windows && e.windows[key].queue != []
  {
    e.(windows := e.windows[key := e.windows[key].(queue := e.windows[key].queue[1..])])
  }

  /** The task at the head of a window's queue runs, unless the window is disabled by then. */
  function RunTask(e: Engine, key: WindowKey, env: Env): Engine {
    if key !in e.windows || e.windows[key].queue == [] then e
    else
      var w := e.windows[key];
      var p := PopTask(e, key);
      if w.disabled || e.disposed then p
      else match w.queue[0]
        case Fill(o) => FillLoop(p, w.peer, w.file, o, w.cap, env)
        case Retry(id, r) => if r.kind.Direct? then RunRetry(p, id, r, env) else p
        case Expire(id) => ExpireDirect(p, id)
  }

  /** The timer of a direct request fires: its expiry is queued on its window. */
  function FireTimer(e: Engine, id: RequestId): Engine {
    if id in e.timers && IsDirect(e, id) then Enqueue(e, e.outstanding[id].kind.info.window, Expire(id)) else e
  }

  function ExpireOne(e: Engine, id: RequestId, now: int): Engine {
    if IsDirect(e, id) && e.outstanding[id].kind.info.expiresAt <= now then ExpireDirect(e, id) else e
  }

  /** The first `n` requests are looked at in the order of issue. */
  function ExpireFirst(e: Engine, now: int, n: nat): Engine {
    if n == 0 then e else ExpireOne(ExpireFirst(e, now, n - 1), n - 1, now)
  }

  /** `expireDirectRequests`. */
  function ExpireAll(e: Engine, now: int): Engine {
    ExpireFirst(e, now, |e.issued|)
  }

  datatype Selector = Selector(file: Option<FileId>, peer: Option<PeerId>, controller: Option<nat>,
                               window: Option<WindowKey>, generation: Option<nat>)

  const Everything := Selector(None, None, None, None, None)

  predicate Admits(want: Option<nat>, have: nat) {
    want.Some? ==> want.value == have
  }

  predicate SelectsWindow(s: Selector, key: WindowKey, w: Window) {
    && Admits(s.window, key) && Admits(s.file, w.file) && Admits(s.peer, w.peer)
    && Admits(s.controller, w.controller) && Admits(s.generation, w.generation)
  }

  predicate SelectsRequest(s: Selector, r: Request) {
    && r.kind.Direct? && Admits(s.file, r.piece.file) && Admits(s.peer, r.peer)
    && Admits(s.controller, r.kind.info.controller) && Admits(s.window, r.kind.info.window)
    && Admits(s.generation, r.kind.info.generation)
  }

  function DisableWindow(e: Engine, s: Selector, key: WindowKey): Engine {
    if key in e.windows && SelectsWindow(s, key, e.windows[key]) then
      e.(windows := e.windows[key := e.windows[key].(disabled := true, generation := e.nextGeneration)],
         nextGeneration := e.nextGeneration + 1)
    else e
  }

  /** Selected windows, in insertion order, are disabled under a new generation. */
  function DisableWindows(e: Engine, s: Selector, n: nat): (r: Engine)
    requires n <= |e.windowOrder|
    ensures r == e.(windows := r.windows, nextGeneration := r.nextGeneration)
  {
    if n == 0 then e else DisableWindow(DisableWindows(e, s, n - 1), s, e.windowOrder[n - 1])
  }

  /** A selected direct request is tombstoned and ends as cancelled. */
  function CancelOne(e: Engine, s: Selector, id: RequestId): Engine {
    if id in e.outstanding && SelectsRequest(s, e.outstanding[id]) then
      Finalize(e.(tombstones := e.tombstones + {id}), id, Cancelled)
    else e
  }

  function CancelRequests(e: Engine, s: Selector, n: nat): Engine {
    if n == 0 then e else CancelOne(CancelRequests(e, s, n - 1), s, n - 1)
  }

  function CancelDirect(e: Engine, s: Selector): Engine {
    CancelRequests(DisableWindows(e, s, |e.windowOrder|), s, |e.issued|)
  }

  /** `dispose`: cancel everything, wait for the (now disabled) queues, then let go of all. */
  function Dispose(e: Engine): Engine {
    if e.disposed then e
    else
      CancelDirect(e, Everything).(disposed := true, timers := {}, outstanding := map[], windows := map[], windowOrder := [])
  }

  // ----- grid requests -----

  /** One lease, found by the request that took it, runs out. */
  function ExpireLease(e: Engine, id: RequestId, now: int): (r: Engine)
    requires id < |e.issued|
    ensures r.issued == e.issued
  {
    var p := e.issued[id].request.piece;
    if p in e.leases && e.leases[p].id == id && e.leases[p].expiresAt <= now then
      var released := e.(leases := e.leases - {p});
      if id in e.outstanding then
        Reopen(released.(outstanding := e.outstanding - {id}, incoming := e.incoming - {id}), e.outstanding[id].piece)
      else released
    else e
  }

  function ExpireLeasesFirst(e: Engine, now: int, n: nat): (r: Engine)
    requires n <= |e.issued|
    ensures r.issued == e.issued
  {
    if n == 0 then e else ExpireLease(ExpireLeasesFirst(e, now, n - 1), n - 1, now)
  }

  /** `expireRequestLeases`. */
  function ExpireLeases(e: Engine, now: int): Engine {
    ExpireLeasesFirst(e, now, |e.issued|)
  }

  /** A file nobody advertised yet is taken to be held in full by the owner. */
  function Bootstrap(e: Engine, file: FileId, o: GridOptions, now: int): Engine {
    if file in e.table || file !in e.manifests then e
    else
      var n := |e.manifests[file]|;
      e.(table := Update(e.table, o.owner, Owner, PieceMap(file, seq(n, i => i), n, 1, now)).0)
  }

  function ProvidersOf(e: Engine, p: Piece): seq<Provider> {
    if p.file in e.table && p.index < |e.table[p.file].providers| then e.table[p.file].providers[p.index] else []
  }

  function ItemAt(e: Engine, p: Piece, o: GridOptions, v: View): Item
    requires Has(e, p)
  {
    ItemFor(o, v, ActiveCount(e), p.index, StateOf(e, p).retryCount, ProvidersOf(e, p))
  }

  /** The unleased ones among `missing`, with what is known about each. */
  function ItemsOf(e: Engine, file: FileId, missing: seq<nat>, o: GridOptions, v: View): (items: seq<Item>)
    requires forall k :: 0 <= k < |missing| ==> Has(e, Piece(file, missing[k]))
    ensures forall k :: 0 <= k < |items| ==>
      && items[k].index in missing && Piece(file, items[k].index) !in e.leases
      && Has(e, Piece(file, items[k].index)) && items[k] == ItemAt(e, Piece(file, items[k].index), o, v)
  {
    if missing == [] then []
    else
      var n := |missing| - 1;
      var p := Piece(file, missing[n]);
      var rest := ItemsOf(e, file, missing[..n], o, v);
      if p in e.leases then rest else rest + [ItemAt(e, p, o, v)]
  }

  lemma {:induction false} ItemsDistinct(e: Engine, file: FileId, missing: seq<nat>, o: GridOptions, v: View)
    requires forall k :: 0 <= k < |missing| ==> Has(e, Piece(file, missing[k]))
    requires Distinct(missing)
    ensures DistinctIndices(ItemsOf(e, file, missing, o, v))
  {
    hide RankProviders, Rarity, ProvidersOf, ActiveCount;
    if missing != [] {
      var n := |missing| - 1;
      ItemsDistinct(e, file, missing[..n], o, v);
      assert missing[n] !in missing[..n];
    }
  }

  lemma {:induction false} ItemsComplete(e: Engine, file: FileId, missing: seq<nat>, o: GridOptions, v: View, i: nat)
    requires forall k :: 0 <= k < |missing| ==> Has(e, Piece(file, missing[k]))
    requires i in missing && Piece(file, i) !in e.leases
    ensures ItemAt(e, Piece(file, i), o, v) in ItemsOf(e, file, missing, o, v)
  {
    hide RankProviders, Rarity, ProvidersOf, ActiveCount;
    var n := |missing| - 1;
    if i != missing[n] {
      assert i in missing[..n];
      ItemsComplete(e, file, missing[..n], o, v, i);
    }
  }

  datatype GridResult = GridScheduled(piece: Piece, id: RequestId, reason: Reason) | NothingMissing | NobodyAvailable | RetryLimit(index: nat) | LeaseRefused(index: nat) | UnknownFile

  /** The engine on which a grid choice is made: leases that ran out are gone, providers are known. */
  function GridReady(e: Engine, file: FileId, o: GridOptions, now: int): Engine {
    Bootstrap(ExpireLeases(e, now), file, o, now)
  }

  function GridItems(e: Engine, file: FileId, o: GridOptions, v: View): seq<Item>
    requires file in e.managers
  {
    var g := GridReady(e, file, o, v.now);
    var missing := MissingPieces(e.managers[file]);
    assert forall i :: 0 <= i < |e.managers[file]| ==> Has(g, Piece(file, i)) by { LeaseExpiryKeepsPieces(e, file, v.now); }
    ItemsOf(g, file, missing, o, v)
  }

  /** The availability table, whose size the first advertised map fixed, has an entry for the piece. */
  predicate Listed(e: Engine, p: Piece) {
    p.file in e.table && p.index < |e.table[p.file].providers|
  }

  /** `requestNextGridPiece`. No lease can be taken on a piece that the availability table does not list:
      the call throws before anything is marked. A failing send or save leaves the request in place. */
  function RequestNextGrid(e: Engine, file: FileId, o: GridOptions, env: Env): (Engine, GridResult) {
    if file !in e.managers then (e, UnknownFile)
    else if MissingPieces(e.managers[file]) == [] then (e, NothingMissing)
    else
      var g := GridReady(e, file, o, env.view.now);
      match Choose(GridItems(e, file, o, env.view), e.cfg.maxRetries)
        case NoAvailablePeer => (g, NobodyAvailable)
        case Exhausted(i) => (g, RetryLimit(i))
        case Scheduled(i, provider, reason) =>
          var id, p := |g.issued|, Piece(file, i);
          assert Has(g, p) by { GridChosen(e, file, o, env.view); }
          if !Listed(g, p) then (g, LeaseRefused(i))
          else
            var leased := g.(leases := g.leases[p := Lease(provider.peer, id, env.view.now + o.leaseMs)]);
            (Record(leased, Request(p, provider.peer, Grid(o)), None), GridScheduled(p, id, reason))
  }

  /** A scheduled piece was reported missing, is unleased and has retries left; its provider has capacity. */
  lemma GridChosen(e: Engine, file: FileId, o: GridOptions, v: View)
    requires file in e.managers
    ensures var g := GridReady(e, file, o, v.now); var c := Choose(GridItems(e, file, o, v), e.cfg.maxRetries);
      c.Scheduled? ==>
        && c.index in MissingPieces(e.managers[file])
        && Has(g, Piece(file, c.index)) && Piece(file, c.index) !in g.leases
        && StateOf(g, Piece(file, c.index)).retryCount <= e.cfg.maxRetries
        && HasCapacity(o, ActiveCount(g), c.provider.peer)
  {
    var c := Choose(GridItems(e, file, o, v), e.cfg.maxRetries);
    if c.Scheduled? {
      var g := GridReady(e, file, o, v.now);
      LeaseExpiryKeepsPieces(e, file, v.now);
      var items := ItemsOf(g, file, MissingPieces(e.managers[file]), o, v);
      var best := ScheduledItem(items, e.cfg.maxRetries);
      assert best == ItemAt(g, Piece(file, best.index), o, v);
      BestProvider(o, v, ActiveCount(g), ProvidersOf(g, Piece(file, best.index)));
    }
  }

  lemma ShapeFrame(a: Engine, b: Engine, c: Engine)
    requires b.managers == a.managers && SameShape(b, c)
    ensures SameShape(a, c) && SameShape(a, b)
  {
  }

  lemma ExpireLeaseKeepsPieces(e: Engine, id: RequestId, now: int)
    requires id < |e.issued|
    ensures SameShape(e, ExpireLease(e, id, now))
  {
    hide Reopen, SameShape;
    var p := e.issued[id].request.piece;
    var released := e.(leases := e.leases - {p});
    ShapeSelf(e);
    ShapeSelf(released);
    ShapeFrame(e, released, released);
    if id in e.outstanding {
      var d := e.(leases := e.leases - {p}, outstanding := e.outstanding - {id}, incoming := e.incoming - {id});
      ShapeFrame(e, d, Reopen(d, e.outstanding[id].piece));
    }
  }

  lemma ShapeSelf(e: Engine)
    ensures SameShape(e, e)
  {
  }

  lemma {:induction false} LeaseExpiryKeepsPiecesFirst(e: Engine, file: FileId, now: int, n: nat)
    requires n <= |e.issued| && file in e.managers
    ensures var r := ExpireLeasesFirst(e, now, n);
      file in r.managers && |r.managers[file]| == |e.managers[file]|
  {
    hide ExpireLease;
    if n > 0 {
      LeaseExpiryKeepsPiecesFirst(e, file, now, n - 1);
      ExpireLeaseKeepsPieces(ExpireLeasesFirst(e, now, n - 1), n - 1, now);
    }
  }

  lemma LeaseExpiryKeepsPieces(e: Engine, file: FileId, now: int)
    requires file in e.managers
    ensures forall o, i :: 0 <= i < |e.managers[file]| ==> Has(GridReady(e, file, o, now), Piece(file, i))
  {
    LeaseExpiryKeepsPiecesFirst(e, file, now, |e.issued|);
  }

  /** One round of `requestGridPieceWindow`, endgame off. */
  function GridRound(e: Engine, file: FileId, o: GridOptions, maxInFlightTotal: nat, env: Env): Engine {
    if |OfFile(e, file)| < maxInFlightTotal then RequestNextGrid(e, file, o, env).0 else e
  }

  /** After a failure of a grid or plain request: make the piece missing again and ask for another. */
  function AskAgain(e: Engine, p: Piece, peer: PeerId, kind: Option<Kind>, env: Env): Engine {
    if !RetriesLeft(e, p) then e
    else if kind.Some? && kind.value.Grid? then RequestNextGrid(Unfail(e, p), p.file, kind.value.options, env).0
    else RequestNext(Unfail(e, p), peer, p.file, None, None, env).0
  }

  function KindOf(e: Engine, id: RequestId): Option<Kind> {
    if id in e.outstanding then Some(e.outstanding[id].kind) else None
  }

  // ----- messages -----

  predicate Active(e: Engine, peer: PeerId, h: Header) {
    && h.id in e.outstanding && e.outstanding[h.id].peer == peer && e.outstanding[h.id].piece == h.piece
    && h.id !in e.tombstones
  }

  /** `rejectIncomingChunk`, up to its PIECE_REJECT message. */
  function RejectChunkCore(e: Engine, h: Header): Engine {
    FinalizeOrDrop(Fail(Release(e.(incoming := e.incoming - {h.id}), h.piece, h.id), h.piece), h.id, InvalidChunk)
  }

  function RejectChunk(e: Engine, peer: PeerId, h: Header, env: Env): Engine {
    var r := RejectChunkCore(e, h);
    if !env.replyOk || IsDirect(e, h.id) then r else AskAgain(r, h.piece, peer, KindOf(e, h.id), env)
  }

  function ReceiveHeader(e: Engine, peer: PeerId, h: Header, env: Env): Engine {
    if !Active(e, peer, h) then e
    else if peer !in e.pending then e.(pending := e.pending[peer := h])
    else if e.pending[peer] == h then e
    else RejectChunk(e, peer, h, env)
  }

  /** `verifyPiece`; a descriptor without a hash accepts anything. */
  predicate Checks(cfg: Config, data: Bytes, d: Descriptor) {
    d.hash.None? || (|data| == d.size && cfg.hash(data) == d.hash.value)
  }

  datatype ReceiveResult = Ack | Unauthorized | Mismatch | StorageFailed | PersistFailed | Threw

  /** `cancelCompetingGridRequests`: other requests for the piece are dropped without a terminal event. */
  function CancelCompeting(e: Engine, p: Piece, keep: RequestId): Engine {
    var gone := set id | id in e.outstanding && e.outstanding[id].piece == p && id != keep;
    e.(outstanding := e.outstanding - gone,
       incoming := e.incoming - gone,
       tombstones := e.tombstones + gone,
       pending := map q | q in e.pending && e.pending[q].id !in gone :: e.pending[q])
  }

  function DescriptorOf(e: Engine, p: Piece): Option<Descriptor> {
    if p.file in e.manifests && p.index < |e.manifests[p.file]| then Some(e.manifests[p.file][p.index]) else None
  }

  function RequestOf(e: Engine, id: RequestId): Option<Request> {
    if id in e.outstanding then Some(e.outstanding[id]) else None
  }

  /** The bytes do not match their descriptor. */
  function ReceiveMismatch(e: Engine, p: Piece, id: RequestId, env: Env): (Engine, ReceiveResult) {
    var failed := Fail(Release(e, p, id), p);
    if !env.deleteOk then (failed, Threw)
    else
      var deleted := failed.(storage := failed.storage - {p});
      var saved := if env.persistOk then deleted else Finalize(LifecycleError(deleted, RequestOf(e, id)), id, Cancelled);
      (FinalizeOrDrop(saved, id, HashMismatch), Mismatch)
  }

  function StoreVerified(e: Engine, p: Piece, id: RequestId, data: Bytes): Engine
    requires Has(e, p)
  {
    Release(SetState(e.(storage := e.storage[p := data]), p, MarkVerified(StateOf(e, p))), p, id)
  }

  /** The bytes match: store, mark, save, end the request. */
  function ReceiveMatch(e: Engine, p: Piece, id: RequestId, data: Bytes, env: Env): (Engine, ReceiveResult)
    requires Has(e, p)
  {
    if !env.writeOk then (FailAndFinalize(LifecycleError(e, RequestOf(e, id)), id, p, Cancelled), StorageFailed)
    else
      var released := StoreVerified(e, p, id, data);
      if !env.persistOk then (FailAndFinalize(LifecycleError(released, RequestOf(e, id)), id, p, Cancelled), PersistFailed)
      else
        var done := CancelCompeting(FinalizeOrDrop(released, id, VerifiedOk), p, id);
        (done, if env.broadcastOk then Ack else Threw)
  }

  function ReceivePiece(e: Engine, p: Piece, id: RequestId, data: Bytes, env: Env): (Engine, ReceiveResult) {
    if id in e.tombstones || id !in e.outstanding then (e, Unauthorized)
    else if DescriptorOf(e, p).None? || !Has(e, p) then (e, Threw)
    else if !Checks(e.cfg, data, DescriptorOf(e, p).value) then ReceiveMismatch(e, p, id, env)
    else ReceiveMatch(e, p, id, data, env)
  }

  /** A completely assembled piece: receive it, then answer the peer. */
  function Deliver(e: Engine, peer: PeerId, h: Header, data: Bytes, env: Env): Engine {
    if h.id !in e.outstanding || e.outstanding[h.id].peer != peer || e.outstanding[h.id].piece != h.piece then e
    else
      var r := e.outstanding[h.id];
      var (next, result) := ReceivePiece(e, h.piece, h.id, data, env);
      if result.Threw? then FailAndFinalize(LifecycleError(next, Some(r)), h.id, h.piece, Cancelled)
      else if result.Ack? || !env.replyOk || !r.kind.Grid? then next
      else AskAgain(next, h.piece, peer, Some(r.kind), env)
  }

  /** `handleTransportBinary`: the frame belongs to the header waiting for its peer. */
  function ReceiveBinary(e: Engine, peer: PeerId, frame: Bytes, env: Env): Engine {
    if peer !in e.pending then e
    else
      var h := e.pending[peer];
      var e1 := e.(pending := e.pending - {peer});
      match AppendChunk(if h.id in e.incoming then Some(e.incoming[h.id]) else None, peer, h, frame)
        case Reject => RejectChunk(e1, peer, h, env)
        case Incomplete(a) => e1.(incoming := e1.incoming[h.id := a])
        case Complete(data) => Deliver(e1.(incoming := e1.incoming - {h.id}), peer, h, data, env)
  }

  function ReceiveAck(e: Engine, peer: PeerId, id: RequestId, p: Piece): Engine {
    if id !in e.outstanding || e.outstanding[id].peer != peer || e.outstanding[id].piece != p then e
    else FinalizeOrDrop(Release(e, p, id), id, Acknowledged)
  }

  function ReceiveCancel(e: Engine, id: RequestId): Engine {
    e.(tombstones := e.tombstones + {id})
  }

  function ReceiveReject(e: Engine, peer: PeerId, id: RequestId, env: Env): Engine {
    if id !in e.outstanding || e.outstanding[id].peer != peer then e
    else
      var r := e.outstanding[id];
      var next := FinalizeOrDrop(Fail(Release(e, r.piece, id), r.piece), id, ProviderReject);
      if r.kind.Direct? then next else AskAgain(next, r.piece, r.peer, Some(r.kind), env)
  }

  function ReceiveMap(e: Engine, peer: PeerId, role: Role, m: PieceMap): Engine {
    e.(table := Update(e.table, peer, role, m).0)
  }

  // ----- runs -----

  datatype Action =
    | DoOpen(peer: PeerId, file: FileId, options: DirectOptions, cap: nat)
    | DoTask(key: WindowKey)
    | DoTimer(id: RequestId)
    | DoExpireAll
    | DoCancel(selector: Selector)
    | DoDispose
    | DoGrid(file: FileId, gridOptions: GridOptions, maxInFlightTotal: nat)
    | DoExpireLeases
    | DoHeader(peer: PeerId, header: Header)
    | DoBinary(peer: PeerId, frame: Bytes)
    | DoAck(peer: PeerId, id: RequestId, piece: Piece)
    | DoCancelMessage(id: RequestId)
    | DoReject(peer: PeerId, id: RequestId)
    | DoMap(peer: PeerId, role: Role, m: PieceMap)

  function Step(e: Engine, a: Action, env: Env): Engine {
    match a
    case DoOpen(peer, file, o, cap) => OpenWindow(e, peer, file, o.(retryCount := 0), cap).0
    case DoTask(key) => RunTask(e, key, env)
    case DoTimer(id) => FireTimer(e, id)
    case DoExpireAll => ExpireAll(e, env.view.now)
    case DoCancel(s) => CancelDirect(e, s)
    case DoDispose => Dispose(e)
    case DoGrid(file, o, total) => GridRound(e, file, o, total, env)
    case DoExpireLeases => ExpireLeases(e, env.view.now)
    case DoHeader(peer, h) => if e.disposed then e else ReceiveHeader(e, peer, h, env)
    case DoBinary(peer, frame) => if e.disposed then e else ReceiveBinary(e, peer, frame, env)
    case DoAck(peer, id, p) => if e.disposed then e else ReceiveAck(e, peer, id, p)
    case DoCancelMessage(id) => if e.disposed then e else ReceiveCancel(e, id)
    case DoReject(peer, id) => if e.disposed then e else ReceiveReject(e, peer, id, env)
    case DoMap(peer, role, m) => if e.disposed then e else ReceiveMap(e, peer, role, m)
  }

  datatype Event = Event(action: Action, env: Env)

  /** The engine after a whole run. */
  function Run(e: Engine, run: seq<Event>): Engine {
    if run == [] then e
    else Step(Run(e, run[..|run| - 1]), run[|run| - 1].action, run[|run| - 1].env)
  }

  /** An engine that has registered its manifests and done nothing yet. */
  ghost predicate Start(e: Engine) {
    && e.managers.Keys == e.manifests.Keys
    && (forall f :: f in e.manifests ==> e.managers[f] == Initial(e.manifests[f]))
    && e.storage == map[] && e.outstanding == map[] && e.issued == [] && e.timers == {} && e.tombstones == {}
    && e.windows == map[] && e.windowOrder == [] && e.pending == map[] && e.incoming == map[]
    && e.table == map[] && e.leases == map[] && e.terminals == [] && e.exhaustions == [] && !e.disposed
  }
}
