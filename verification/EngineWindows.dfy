/** Runs that make direct requests only: windows never overflow and retry chains end. */
module EngineWindows {
  import opened Common
  import opened Pieces
  import opened ChunkAssembly
  import opened Availability
  import opened GridChoice
  import opened Engine
  import opened EngineSteps
  import opened EngineRuns
  import opened EngineDirect
  import opened EngineEndings

  /** Every outstanding request is in a tracked window, and no window holds more than its cap. */
  ghost predicate Bounded(e: Engine) {
    && (forall id :: id in e.outstanding && e.outstanding[id].kind.Direct? ==> e.outstanding[id].kind.info.window in e.windows)
    && (forall key :: key in e.windows ==> |InWindow(e, key)| <= e.windows[key].cap)
  }

  /** A window that reported exhaustion is marked so, and none reported it twice. */
  ghost predicate ExhaustedOnce(e: Engine) {
    && (forall j, k :: 0 <= j < k < |e.exhaustions| ==> e.exhaustions[j] != e.exhaustions[k])
    && (!e.disposed ==> forall k :: 0 <= k < |e.exhaustions| ==>
          e.exhaustions[k] in e.windows && e.windows[e.exhaustions[k]].exhausted)
  }

  /** A retryable end is retried exactly while its chain has budget. */
  ghost predicate RetriedFairly(e: Engine) {
    forall k :: 0 <= k < |e.terminals| ==>
      && e.terminals[k].retryCount <= e.cfg.maxRetries
      && (e.terminals[k].willRetry <==> Retryable(e.terminals[k].reason) && e.terminals[k].retryCount < e.cfg.maxRetries)
  }

  predicate HasChild(issued: seq<Issue>, id: RequestId) {
    exists k :: 0 <= k < |issued| && issued[k].parent == Some(id)
  }

  predicate TaskOk(e: Engine, key: WindowKey, t: Task) {
    match t
    case Fill(o) => o.window == key && o.retryCount == 0
    case Retry(id, r) =>
      && id < |e.issued| && e.issued[id].request == r && r.kind.Direct? && r.kind.info.window == key
      && r.kind.info.retryCount < e.cfg.maxRetries && id !in e.outstanding && !HasChild(e.issued, id)
    case Expire(_) => true
  }

  ghost predicate RetriesDistinct(queue: seq<Task>) {
    forall i, j :: 0 <= i < j < |queue| && queue[i].Retry? && queue[j].Retry? ==> queue[i].id != queue[j].id
  }

  ghost predicate QueuesOk(e: Engine) {
    forall key :: key in e.windows ==>
      RetriesDistinct(e.windows[key].queue) && forall i :: 0 <= i < |e.windows[key].queue| ==> TaskOk(e, key, e.windows[key].queue[i])
  }

  /** `k` retries `p`, one step further down the chain. */
  predicate Follows(issued: seq<Issue>, p: RequestId, k: nat)
    requires k < |issued|
  {
    && p < k && issued[p].request.kind.Direct? && issued[k].request.kind.Direct?
    && issued[k].request.kind.info.retryCount == issued[p].request.kind.info.retryCount + 1
    && issued[k].request.kind.info.window == issued[p].request.kind.info.window
    && issued[k].request.peer == issued[p].request.peer
    && issued[k].request.piece.file == issued[p].request.piece.file
  }

  ghost predicate Linked(issued: seq<Issue>, maxRetries: nat, k: nat)
    requires k < |issued|
  {
    && issued[k].request.kind.Direct?
    && issued[k].request.kind.info.retryCount <= maxRetries
    && (issued[k].parent.None? ==> issued[k].request.kind.info.retryCount == 0)
    && (issued[k].parent.Some? ==> Follows(issued, issued[k].parent.value, k))
  }

  /** Requests form chains: a retry follows its parent, which is over and has no other child. */
  ghost predicate Chained(e: Engine) {
    && (forall k :: 0 <= k < |e.issued| ==> Linked(e.issued, e.cfg.maxRetries, k))
    && (forall j, k :: 0 <= j < k < |e.issued| && e.issued[j].parent.Some? ==> e.issued[j].parent != e.issued[k].parent)
    && (forall k :: 0 <= k < |e.issued| && e.issued[k].parent.Some? ==> e.issued[k].parent.value !in e.outstanding)
  }

  ghost predicate Orderly(e: Engine) {
    Bounded(e) && ExhaustedOnce(e) && RetriedFairly(e) && QueuesOk(e) && Chained(e)
  }

  // ----- primitive changes -----

  lemma OrderlyFrame(a: Engine, b: Engine)
    requires Orderly(a)
    requires b.cfg == a.cfg && b.windows == a.windows && b.outstanding == a.outstanding && b.issued == a.issued
    requires b.exhaustions == a.exhaustions && b.terminals == a.terminals && b.disposed == a.disposed
    ensures Orderly(b)
  {
    hide HasChild;
    forall key | key in b.windows
      ensures |InWindow(b, key)| <= b.windows[key].cap
      ensures RetriesDistinct(b.windows[key].queue) && forall i :: 0 <= i < |b.windows[key].queue| ==> TaskOk(b, key, b.windows[key].queue[i])
    {
      assert InWindow(b, key) == InWindow(a, key);
      assert forall i :: 0 <= i < |a.windows[key].queue| ==> TaskOk(a, key, a.windows[key].queue[i]);
    }
  }

  /** One window gets a new queue of proper tasks; its cap and its exhaustion stay. */
  lemma OrderlyWindow(e: Engine, key: WindowKey, w: Window)
    requires Orderly(e) && key in e.windows && w.cap == e.windows[key].cap && w.exhausted == e.windows[key].exhausted
    requires RetriesDistinct(w.queue) && forall i :: 0 <= i < |w.queue| ==> TaskOk(e, key, w.queue[i])
    ensures Orderly(e.(windows := e.windows[key := w]))
  {
    hide HasChild, RetriesDistinct, Chained, RetriedFairly;
    var b := e.(windows := e.windows[key := w]);
    assert Chained(b) && RetriedFairly(b) by { SameChains(e, b); }
    forall k | k in b.windows
      ensures |InWindow(b, k)| <= b.windows[k].cap
      ensures RetriesDistinct(b.windows[k].queue) && forall i :: 0 <= i < |b.windows[k].queue| ==> TaskOk(b, k, b.windows[k].queue[i])
    {
      assert InWindow(b, k) == InWindow(e, k);
      assert forall t :: TaskOk(e, k, t) ==> TaskOk(b, k, t);
    }
  }

  lemma SameChains(a: Engine, b: Engine)
    requires b.issued == a.issued && b.cfg == a.cfg && b.terminals == a.terminals && b.outstanding == a.outstanding
    requires Chained(a) && RetriedFairly(a)
    ensures Chained(b) && RetriedFairly(b)
  {
  }

  lemma OrderlyEnqueue(e: Engine, key: WindowKey, t: Task)
    requires Orderly(e) && TaskOk(e, key, t)
    requires key in e.windows && t.Retry? ==>
      forall i :: 0 <= i < |e.windows[key].queue| && e.windows[key].queue[i].Retry? ==> e.windows[key].queue[i].id != t.id
    ensures Orderly(Enqueue(e, key, t))
  {
    if key in e.windows && !e.windows[key].disabled && !e.disposed {
      var q := e.windows[key].queue;
      assert RetriesDistinct(q + [t]) && forall i :: 0 <= i < |q + [t]| ==> TaskOk(e, key, (q + [t])[i]);
      hide Orderly, TaskOk, RetriesDistinct;
      OrderlyWindow(e, key, e.windows[key].(queue := q + [t]));
    }
  }

  lemma OrderlyPop(e: Engine, key: WindowKey)
    requires Orderly(e) && key in e.windows && e.windows[key].queue != []
    ensures Orderly(PopTask(e, key))
  {
    var q := e.windows[key].queue[1..];
    assert forall i :: 0 <= i < |q| ==> q[i] == e.windows[key].queue[i + 1];
    assert RetriesDistinct(q) && forall i :: 0 <= i < |q| ==> TaskOk(e, key, q[i]);
    hide Orderly, TaskOk, RetriesDistinct;
    OrderlyWindow(e, key, e.windows[key].(queue := q));
  }

  lemma OrderlyError(e: Engine, r: Option<Request>)
    requires Orderly(e)
    ensures Orderly(LifecycleError(e, r))
  {
    if r.Some? && r.value.kind.Direct? && r.value.kind.info.window in e.windows {
      var key := r.value.kind.info.window;
      assert RetriesDistinct(e.windows[key].queue) && forall i :: 0 <= i < |e.windows[key].queue| ==> TaskOk(e, key, e.windows[key].queue[i]);
      hide Orderly, TaskOk, RetriesDistinct;
      OrderlyWindow(e, key, e.windows[key].(disabled := true));
    }
  }

  lemma InWindowShrinks(a: Engine, b: Engine, key: WindowKey)
    requires forall id :: id in b.outstanding ==> id in a.outstanding && a.outstanding[id] == b.outstanding[id]
    ensures |InWindow(b, key)| <= |InWindow(a, key)|
  {
    SubsetCount(InWindow(b, key), InWindow(a, key));
  }

  lemma OrderlyClose(e: Engine, id: RequestId, reason: TerminalReason)
    requires Orderly(e) && IsDirect(e, id) && Ledger(e)
    ensures Orderly(Close(e, id, reason))
  {
    var c := Close(e, id, reason);
    assert Linked(e.issued, e.cfg.maxRetries, id);
    forall key | key in c.windows
      ensures |InWindow(c, key)| <= c.windows[key].cap
    {
      InWindowShrinks(e, c, key);
    }
    CloseChains(e, id, reason);
    CloseQueues(e, id, reason);
  }

  lemma CloseChains(e: Engine, id: RequestId, reason: TerminalReason)
    requires Chained(e) && RetriedFairly(e) && IsDirect(e, id) && Ledger(e)
    ensures Chained(Close(e, id, reason)) && RetriedFairly(Close(e, id, reason))
  {
    hide Follows;
    assert Linked(e.issued, e.cfg.maxRetries, id);
  }

  lemma CloseQueues(e: Engine, id: RequestId, reason: TerminalReason)
    requires QueuesOk(e) && IsDirect(e, id)
    ensures QueuesOk(Close(e, id, reason))
  {
    hide HasChild;
    var c := Close(e, id, reason);
    forall key | key in c.windows
      ensures RetriesDistinct(c.windows[key].queue) && forall i :: 0 <= i < |c.windows[key].queue| ==> TaskOk(c, key, c.windows[key].queue[i])
    {
      assert forall t :: TaskOk(e, key, t) ==> TaskOk(c, key, t);
    }
  }

  lemma OrderlyExhaust(e: Engine, key: WindowKey)
    requires Orderly(e) && key in e.windows && !e.windows[key].exhausted && !e.disposed
    ensures Orderly(e.(windows := e.windows[key := e.windows[key].(exhausted := true)], exhaustions := e.exhaustions + [key]))
  {
    var b := e.(windows := e.windows[key := e.windows[key].(exhausted := true)], exhaustions := e.exhaustions + [key]);
    SameChains(e, b);
    hide HasChild, Chained, RetriedFairly, RetriesDistinct;
    forall k | k in b.windows
      ensures |InWindow(b, k)| <= b.windows[k].cap
      ensures RetriesDistinct(b.windows[k].queue) && forall i :: 0 <= i < |b.windows[k].queue| ==> TaskOk(b, k, b.windows[k].queue[i])
    {
      assert InWindow(b, k) == InWindow(e, k);
      assert forall t :: TaskOk(e, k, t) ==> TaskOk(b, k, t);
    }
  }

  /** An outstanding request has no child yet, and no queue holds a retry of it. */
  lemma OutstandingIsChildless(e: Engine, id: RequestId)
    requires Chained(e) && id in e.outstanding
    ensures !HasChild(e.issued, id)
  {
  }

  lemma OutstandingIsUnqueued(e: Engine, id: RequestId, key: WindowKey)
    requires QueuesOk(e) && id in e.outstanding && key in e.windows
    ensures forall i :: 0 <= i < |e.windows[key].queue| && e.windows[key].queue[i].Retry? ==> e.windows[key].queue[i].id != id
  {
    hide HasChild;
    assert forall i :: 0 <= i < |e.windows[key].queue| ==> TaskOk(e, key, e.windows[key].queue[i]);
  }

  lemma CloseFields(e: Engine, id: RequestId, reason: TerminalReason)
    requires IsDirect(e, id)
    ensures var c := Close(e, id, reason);
      && c.outstanding == e.outstanding - {id} && c.issued == e.issued && c.windows == e.windows && c.cfg == e.cfg
      && c.disposed == e.disposed
  {
  }

  /** The retry queued when a request ends is new to its queue, and the request has no child yet. */
  lemma RetryIsNew(e: Engine, id: RequestId, reason: TerminalReason)
    requires Orderly(e) && IsDirect(e, id) && Ledger(e) && e.outstanding[id].kind.info.retryCount < e.cfg.maxRetries
    ensures var c, key := Close(e, id, reason), e.outstanding[id].kind.info.window;
      && TaskOk(c, key, Retry(id, e.outstanding[id]))
      && (key in c.windows ==> forall i :: 0 <= i < |c.windows[key].queue| && c.windows[key].queue[i].Retry? ==> c.windows[key].queue[i].id != id)
  {
    hide Close, HasChild, Chained, QueuesOk, Bounded, ExhaustedOnce, RetriedFairly;
    CloseFields(e, id, reason);
    OutstandingIsChildless(e, id);
    var key := e.outstanding[id].kind.info.window;
    if key in e.windows {
      OutstandingIsUnqueued(e, id, key);
    }
  }

  lemma OrderlyFinalize(e: Engine, id: RequestId, reason: TerminalReason)
    requires Orderly(e) && Ledger(e) && !e.disposed
    ensures Orderly(Finalize(e, id, reason))
  {
    hide Orderly, Ledger, Close, Enqueue, TaskOk;
    if IsDirect(e, id) {
      var c, key := Close(e, id, reason), e.outstanding[id].kind.info.window;
      OrderlyClose(e, id, reason);
      assert !c.disposed by { CloseKeepsLive(e, id, reason); }
      if Retryable(reason) && e.outstanding[id].kind.info.retryCount < e.cfg.maxRetries {
        RetryIsNew(e, id, reason);
        OrderlyEnqueue(c, key, Retry(id, e.outstanding[id]));
      } else if Retryable(reason) && key in c.windows && !c.windows[key].exhausted {
        OrderlyExhaust(c, key);
      }
    }
  }

  lemma CloseKeepsLive(e: Engine, id: RequestId, reason: TerminalReason)
    requires IsDirect(e, id)
    ensures Close(e, id, reason).disposed == e.disposed
  {
  }

  lemma OrderlyFailAndFinalize(e: Engine, id: RequestId, p: Piece, reason: TerminalReason)
    requires Orderly(e) && Ledger(e) && !e.disposed
    ensures Orderly(FailAndFinalize(e, id, p, reason))
  {
    hide Orderly, Ledger, Finalize, Fail;
    FailFrame(e, p);
    OrderlyFrame(e, Fail(e, p));
    OrderlyFinalize(Fail(e, p), id, reason);
  }

  // ----- issuing -----

  lemma HasChildSnoc(issued: seq<Issue>, x: Issue, id: RequestId)
    ensures HasChild(issued + [x], id) <==> HasChild(issued, id) || x.parent == Some(id)
  {
    var s := issued + [x];
    if HasChild(issued, id) {
      var k :| 0 <= k < |issued| && issued[k].parent == Some(id);
      assert s[k].parent == Some(id);
    }
    if x.parent == Some(id) {
      assert s[|issued|].parent == Some(id);
    }
  }

  /** What a new request must satisfy to extend the chains. */
  ghost predicate Extends(e: Engine, r: Request, parent: Option<RequestId>) {
    && r.kind.Direct? && r.kind.info.retryCount <= e.cfg.maxRetries
    && (parent.None? ==> r.kind.info.retryCount == 0)
    && (parent.Some? ==>
          && parent.value < |e.issued| && parent.value !in e.outstanding && !HasChild(e.issued, parent.value)
          && Follows(e.issued + [Issue(r, parent)], parent.value, |e.issued|))
  }

  lemma RecordChains(e: Engine, r: Request, parent: Option<RequestId>)
    requires Chained(e) && Ledger(e) && Has(e, r.piece) && Extends(e, r, parent)
    ensures Chained(Record(e, r, parent))
  {
    var b := Record(e, r, parent);
    forall k | 0 <= k < |b.issued|
      ensures Linked(b.issued, b.cfg.maxRetries, k)
    {
      if k < |e.issued| {
        assert Linked(e.issued, e.cfg.maxRetries, k);
      }
    }
    forall k | 0 <= k < |b.issued| && b.issued[k].parent.Some?
      ensures b.issued[k].parent.value !in b.outstanding
    {
      assert k < |e.issued| ==> Linked(e.issued, e.cfg.maxRetries, k);
    }
  }

  lemma RecordQueues(e: Engine, r: Request, parent: Option<RequestId>)
    requires QueuesOk(e) && Has(e, r.piece)
    requires parent.Some? ==> forall key, i :: key in e.windows && 0 <= i < |e.windows[key].queue| && e.windows[key].queue[i].Retry? ==>
      e.windows[key].queue[i].id != parent.value
    ensures QueuesOk(Record(e, r, parent))
  {
    hide HasChild;
    var b := Record(e, r, parent);
    forall key | key in b.windows
      ensures RetriesDistinct(b.windows[key].queue) && forall i :: 0 <= i < |b.windows[key].queue| ==> TaskOk(b, key, b.windows[key].queue[i])
    {
      forall i | 0 <= i < |b.windows[key].queue|
        ensures TaskOk(b, key, b.windows[key].queue[i])
      {
        var t := e.windows[key].queue[i];
        assert TaskOk(e, key, t);
        if t.Retry? {
          HasChildSnoc(e.issued, Issue(r, parent), t.id);
        }
      }
    }
  }

  lemma RecordBounds(e: Engine, r: Request, parent: Option<RequestId>)
    requires Bounded(e) && Has(e, r.piece) && r.kind.Direct? && r.kind.info.window in e.windows && Ledger(e)
    requires |InWindow(e, r.kind.info.window)| < e.windows[r.kind.info.window].cap
    ensures Bounded(Record(e, r, parent))
  {
    var b := Record(e, r, parent);
    forall key | key in b.windows
      ensures |InWindow(b, key)| <= b.windows[key].cap
    {
      RecordInWindow(e, r, parent, key);
    }
  }

  lemma KeyedAdd(m: map<RequestId, Request>, id: RequestId, r: Request, key: WindowKey)
    requires id !in m && r.kind.Direct?
    ensures |Keyed(m[id := r], key)| == |Keyed(m, key)| + if key == r.kind.info.window then 1 else 0
  {
    if key == r.kind.info.window {
      assert Keyed(m[id := r], key) == Keyed(m, key) + {id};
    } else {
      assert Keyed(m[id := r], key) == Keyed(m, key);
    }
  }

  lemma RecordInWindow(e: Engine, r: Request, parent: Option<RequestId>, key: WindowKey)
    requires Ledger(e) && Has(e, r.piece) && r.kind.Direct?
    ensures |InWindow(Record(e, r, parent), key)| == |InWindow(e, key)| + if key == r.kind.info.window then 1 else 0
  {
    assert |e.issued| !in e.outstanding;
    hide Record, Ledger, Keyed;
    RecordOutstanding(e, r, parent);
    KeyedAdd(e.outstanding, |e.issued|, r, key);
  }

  lemma RecordOutstanding(e: Engine, r: Request, parent: Option<RequestId>)
    requires Has(e, r.piece)
    ensures Record(e, r, parent).outstanding == e.outstanding[|e.issued| := r]
  {
  }

  lemma OrderlyRecord(e: Engine, r: Request, parent: Option<RequestId>)
    requires Orderly(e) && Ledger(e) && Has(e, r.piece) && Extends(e, r, parent)
    requires r.kind.info.window in e.windows && |InWindow(e, r.kind.info.window)| < e.windows[r.kind.info.window].cap
    requires parent.Some? ==> forall key, i :: key in e.windows && 0 <= i < |e.windows[key].queue| && e.windows[key].queue[i].Retry? ==>
      e.windows[key].queue[i].id != parent.value
    ensures Orderly(Record(e, r, parent))
  {
    hide Chained, QueuesOk, Bounded, Extends, Ledger, HasChild;
    assert Chained(Record(e, r, parent)) by { RecordChains(e, r, parent); }
    RecordQueues(e, r, parent);
    assert r.kind.Direct? by { ExtendsDirect(e, r, parent); }
    RecordBounds(e, r, parent);
  }

  lemma ExtendsDirect(e: Engine, r: Request, parent: Option<RequestId>)
    requires Extends(e, r, parent)
    ensures r.kind.Direct?
  {
  }

  // ----- handlers -----

  /** The windows themselves: tracked windows stay, with their cap, file, peer and controller. */
  ghost predicate WindowsStay(a: Engine, b: Engine) {
    && b.disposed == a.disposed
    && forall key :: key in a.windows ==> key in b.windows && b.windows[key].cap == a.windows[key].cap
  }

  lemma EnqueueStays(e: Engine, key: WindowKey, t: Task)
    ensures WindowsStay(e, Enqueue(e, key, t))
  {
  }

  lemma FinalizeStays(e: Engine, id: RequestId, reason: TerminalReason)
    ensures WindowsStay(e, Finalize(e, id, reason))
  {
    hide Close, Enqueue;
    if IsDirect(e, id) {
      CloseFields(e, id, reason);
      EnqueueStays(Close(e, id, reason), e.outstanding[id].kind.info.window, Retry(id, e.outstanding[id]));
    }
  }

  lemma ErrorStays(e: Engine, r: Option<Request>)
    ensures WindowsStay(e, LifecycleError(e, r))
  {
    if r.Some? && r.value.kind.Direct? && r.value.kind.info.window in e.windows {
      var key := r.value.kind.info.window;
      assert LifecycleError(e, r).windows == e.windows[key := e.windows[key].(disabled := true)];
    }
  }

  /** A request made for a tracked window with room, either fresh or as the retry of an ended request. */
  lemma OrderlyRequestNext(e: Engine, peer: PeerId, file: FileId, o: DirectOptions, parent: Option<RequestId>, env: Env)
    requires Orderly(e) && Ledger(e) && !e.disposed
    requires o.window in e.windows && |InWindow(e, o.window)| < e.windows[o.window].cap && o.retryCount <= e.cfg.maxRetries
    requires parent.None? ==> o.retryCount == 0
    requires parent.Some? ==> ParentOk(e, peer, file, o, parent.value)
    ensures var b := RequestNext(e, peer, file, Some(o), parent, env).0;
      Orderly(b) && Ledger(b) && WindowsStay(e, b)
  {
    hide Orderly, Ledger, Begin, FailAndFinalize, LifecycleError, InWindow, Goes, ParentOk;
    RequestNextGoes(e, peer, file, Some(o), parent, env);
    EvolvesKeepsLedger(e, RequestNext(e, peer, file, Some(o), parent, env).0);
    var begun := Begin(e, peer, file, Some(o), parent, env);
    if begun.Some? {
      var id, b := |e.issued|, begun.value;
      OrderlyBegin(e, peer, file, o, parent, env);
      var piece := b.issued[id].request.piece;
      OrderlyFailAndFinalize(b, id, piece, SendFailed);
      FailAndFinalizeStays(b, id, piece, SendFailed);
      var l := LifecycleError(b, Some(b.outstanding[id]));
      ErrorFrame(b, Some(b.outstanding[id]));
      OrderlyError(b, Some(b.outstanding[id]));
      ErrorStays(b, Some(b.outstanding[id]));
      LedgerFrame(b, l);
      OrderlyFailAndFinalize(l, id, piece, Cancelled);
      FailAndFinalizeStays(l, id, piece, Cancelled);
    }
  }

  lemma FailAndFinalizeStays(e: Engine, id: RequestId, p: Piece, reason: TerminalReason)
    ensures WindowsStay(e, FailAndFinalize(e, id, p, reason))
  {
    hide Finalize, Fail;
    FailFrame(e, p);
    FinalizeStays(Fail(e, p), id, reason);
  }

  /** `id` may be retried with these options: it is over, has no child, and no queued retry names it. */
  ghost predicate ParentOk(e: Engine, peer: PeerId, file: FileId, o: DirectOptions, id: RequestId) {
    && id < |e.issued| && id !in e.outstanding && !HasChild(e.issued, id)
    && e.issued[id].request.kind.Direct?
    && o.retryCount == e.issued[id].request.kind.info.retryCount + 1
    && o.window == e.issued[id].request.kind.info.window
    && peer == e.issued[id].request.peer && file == e.issued[id].request.piece.file
    && forall key, i :: key in e.windows && 0 <= i < |e.windows[key].queue| && e.windows[key].queue[i].Retry? ==>
         e.windows[key].queue[i].id != id
  }

  lemma OrderlyBegin(e: Engine, peer: PeerId, file: FileId, o: DirectOptions, parent: Option<RequestId>, env: Env)
    requires Orderly(e) && Ledger(e) && !e.disposed && Begin(e, peer, file, Some(o), parent, env).Some?
    requires o.window in e.windows && |InWindow(e, o.window)| < e.windows[o.window].cap && o.retryCount <= e.cfg.maxRetries
    requires parent.None? ==> o.retryCount == 0
    requires parent.Some? ==> ParentOk(e, peer, file, o, parent.value)
    ensures var b := Begin(e, peer, file, Some(o), parent, env).value;
      Orderly(b) && Ledger(b) && WindowsStay(e, b) && |b.issued| == |e.issued| + 1 && |e.issued| in b.outstanding
  {
    hide Orderly, Ledger, InWindow, Bounded, NextPiece, HasChild, SameShape;
    var r := Request(Piece(file, NextPiece(e.managers[file], e.cfg.maxRetries).value), peer, MakeKind(e, Some(o), env.view.now));
    assert Begin(e, peer, file, Some(o), parent, env).value == Record(e, r, parent);
    OrderlyRecord(e, r, parent);
    RecordLedger(e, r, parent);
  }

  lemma {:induction false} OrderlyFill(e: Engine, peer: PeerId, file: FileId, o: DirectOptions, cap: nat, env: Env)
    requires Orderly(e) && Ledger(e) && !e.disposed
    requires o.window in e.windows && e.windows[o.window].cap == cap && o.retryCount == 0
    ensures Orderly(FillLoop(e, peer, file, o, cap, env))
    decreases Unrequested(e, file)
  {
    hide Orderly, Ledger, RequestNext, InWindow;
    if |InWindow(e, o.window)| < cap {
      var (next, scheduled) := RequestNext(e, peer, file, Some(o), None, env);
      OrderlyRequestNext(e, peer, file, o, None, env);
      if scheduled {
        RequestUsesUpOne(e, peer, file, Some(o), None, env);
        OrderlyFill(next, peer, file, o, cap, env);
      }
    }
  }

  lemma OrderlyExpireDirect(e: Engine, id: RequestId)
    requires Orderly(e) && Ledger(e) && !e.disposed
    ensures Orderly(ExpireDirect(e, id)) && !ExpireDirect(e, id).disposed
  {
    hide Orderly, Ledger, FailAndFinalize;
    if IsDirect(e, id) {
      OrderlyFailAndFinalize(e, id, e.outstanding[id].piece, RequestTimeout);
      FailAndFinalizeStays(e, id, e.outstanding[id].piece, RequestTimeout);
    }
  }

  /** Taking the retry at the head of a queue leaves no other retry of the same request anywhere. */
  lemma PoppedRetry(e: Engine, key: WindowKey)
    requires QueuesOk(e) && key in e.windows && e.windows[key].queue != [] && e.windows[key].queue[0].Retry?
    ensures var t, p := e.windows[key].queue[0], PopTask(e, key);
      && TaskOk(e, key, t)
      && forall k, i :: k in p.windows && 0 <= i < |p.windows[k].queue| && p.windows[k].queue[i].Retry? ==>
           p.windows[k].queue[i].id != t.id
  {
    hide HasChild;
    var t, p := e.windows[key].queue[0], PopTask(e, key);
    forall k, i | k in p.windows && 0 <= i < |p.windows[k].queue| && p.windows[k].queue[i].Retry?
      ensures p.windows[k].queue[i].id != t.id
    {
      if k == key {
        assert p.windows[k].queue[i] == e.windows[k].queue[i + 1];
      } else {
        assert TaskOk(e, k, e.windows[k].queue[i]);
      }
    }
  }

  /** The popped retry may be issued as the child of its request. */
  lemma RetryParent(e: Engine, key: WindowKey)
    requires QueuesOk(e) && key in e.windows && e.windows[key].queue != [] && e.windows[key].queue[0].Retry?
    ensures var t := e.windows[key].queue[0];
      && t.request.kind.Direct? && t.request.kind.info.window == key && t.request.kind.info.retryCount < e.cfg.maxRetries
      && var info := t.request.kind.info;
         ParentOk(Unfail(PopTask(e, key), t.request.piece), t.request.peer, t.request.piece.file,
                  DirectOptions(key, info.controller, info.timeoutMs, info.retryCount + 1), t.id)
  {
    PoppedRetry(e, key);
    var t, p := e.windows[key].queue[0], PopTask(e, key);
    hide QueuesOk, HasChild, Unfail;
    UnfailFrame(p, t.request.piece);
  }

  lemma OrderlyRunRetry(p: Engine, id: RequestId, r: Request, env: Env)
    requires Orderly(p) && Ledger(p) && !p.disposed && r.kind.Direct? && r.kind.info.retryCount < p.cfg.maxRetries
    requires ParentOk(Unfail(p, r.piece), r.peer, r.piece.file,
                      DirectOptions(r.kind.info.window, r.kind.info.controller, r.kind.info.timeoutMs, r.kind.info.retryCount + 1), id)
    ensures Orderly(RunRetry(p, id, r, env))
  {
    hide Orderly, Ledger, RequestNext, InWindow, Unfail, ParentOk;
    var info := r.kind.info;
    var u := Unfail(p, r.piece);
    UnfailFrame(p, r.piece);
    OrderlyFrame(p, u);
    InWindowFrame(p, u, info.window);
    if id !in p.tombstones && info.window in p.windows && |InWindow(p, info.window)| < p.windows[info.window].cap {
      OrderlyRequestNext(u, r.peer, r.piece.file,
                         DirectOptions(info.window, info.controller, info.timeoutMs, info.retryCount + 1), Some(id), env);
    }
  }

  lemma OrderlyRetry(e: Engine, key: WindowKey, env: Env)
    requires Orderly(e) && Ledger(e) && !e.disposed
    requires key in e.windows && e.windows[key].queue != [] && e.windows[key].queue[0].Retry?
    ensures var t, p := e.windows[key].queue[0], PopTask(e, key);
      t.request.kind.Direct? && Orderly(RunRetry(p, t.id, t.request, env))
  {
    assert QueuesOk(e);
    hide Orderly, Ledger, RunRetry, QueuesOk, ParentOk;
    RetryParent(e, key);
    var t, p := e.windows[key].queue[0], PopTask(e, key);
    OrderlyPop(e, key);
    LedgerFrame(e, p);
    OrderlyRunRetry(p, t.id, t.request, env);
  }

  lemma InWindowFrame(a: Engine, b: Engine, key: WindowKey)
    requires a.outstanding == b.outstanding
    ensures InWindow(a, key) == InWindow(b, key)
  {
  }

  lemma UnfailFrame(e: Engine, p: Piece)
    ensures Unfail(e, p) == e.(managers := Unfail(e, p).managers)
    ensures Ledger(e) ==> Ledger(Unfail(e, p))
  {
  }

  lemma OrderlyTask(e: Engine, key: WindowKey, env: Env)
    requires Orderly(e) && Ledger(e)
    ensures Orderly(RunTask(e, key, env))
  {
    if key in e.windows && e.windows[key].queue != [] {
      var w, p := e.windows[key], PopTask(e, key);
      assert TaskOk(e, key, w.queue[0]);
      hide Orderly, Ledger, FillLoop, RunRetry, ExpireDirect, HasChild;
      OrderlyPop(e, key);
      LedgerFrame(e, p);
      if !w.disabled && !e.disposed {
        match w.queue[0]
        case Fill(o) => OrderlyFill(p, w.peer, w.file, o, w.cap, env);
        case Retry(id, r) => OrderlyRetry(e, key, env);
        case Expire(id) => OrderlyExpireDirect(p, id);
      }
    }
  }

  lemma OrderlyTimer(e: Engine, id: RequestId)
    requires Orderly(e)
    ensures Orderly(FireTimer(e, id))
  {
    if id in e.timers && IsDirect(e, id) {
      OrderlyEnqueue(e, e.outstanding[id].kind.info.window, Expire(id));
    }
  }

  lemma OrderlyOpen(e: Engine, peer: PeerId, file: FileId, o: DirectOptions, cap: nat)
    requires Orderly(e) && o.retryCount == 0
    ensures Orderly(OpenWindow(e, peer, file, o, cap).0)
  {
    hide Orderly, Enqueue;
    if cap > 0 && o.window !in e.windows {
      var n := AddWindow(e, o.window, NewWindow(file, peer, o.controller, cap, e.nextGeneration));
      OrderlyAdd(e, o.window, NewWindow(file, peer, o.controller, cap, e.nextGeneration));
      var g := n.(nextGeneration := e.nextGeneration + 1);
      OrderlyFrame(n, g);
      OrderlyEnqueue(g, o.window, Fill(o));
    } else {
      OrderlyEnqueue(e, o.window, Fill(o));
    }
  }

  lemma OrderlyAdd(e: Engine, key: WindowKey, w: Window)
    requires Orderly(e) && key !in e.windows && w.queue == [] && !w.exhausted
    ensures Orderly(AddWindow(e, key, w))
  {
    hide HasChild, Chained, RetriedFairly, RetriesDistinct;
    var b := AddWindow(e, key, w);
    SameChains(e, b);
    assert RetriesDistinct(w.queue) by { EmptyDistinct(); }
    forall k | k in b.windows
      ensures |InWindow(b, k)| <= b.windows[k].cap
      ensures RetriesDistinct(b.windows[k].queue) && forall i :: 0 <= i < |b.windows[k].queue| ==> TaskOk(b, k, b.windows[k].queue[i])
    {
      assert InWindow(b, k) == InWindow(e, k);
      assert forall t :: TaskOk(e, k, t) ==> TaskOk(b, k, t);
      if k == key {
        assert InWindow(b, k) == {};
      }
    }
  }

  lemma EmptyDistinct()
    ensures RetriesDistinct([])
  {
  }

  lemma {:induction false} OrderlyExpireFirst(e: Engine, now: int, n: nat)
    requires Orderly(e) && Ledger(e) && !e.disposed
    ensures Orderly(ExpireFirst(e, now, n)) && Ledger(ExpireFirst(e, now, n)) && !ExpireFirst(e, now, n).disposed
  {
    hide Orderly, Ledger, ExpireDirect, Goes;
    if n > 0 {
      OrderlyExpireFirst(e, now, n - 1);
      OrderlyExpireDirect(ExpireFirst(e, now, n - 1), n - 1);
      ExpireFirstGoes(e, now, n);
      EvolvesKeepsLedger(e, ExpireFirst(e, now, n));
    }
  }

  lemma OrderlyDisable(e: Engine, s: Selector, key: WindowKey)
    requires Orderly(e)
    ensures Orderly(DisableWindow(e, s, key))
  {
    if key in e.windows && SelectsWindow(s, key, e.windows[key]) {
      assert RetriesDistinct(e.windows[key].queue) && forall i :: 0 <= i < |e.windows[key].queue| ==> TaskOk(e, key, e.windows[key].queue[i]);
      hide Orderly, TaskOk, RetriesDistinct;
      var w := e.windows[key].(disabled := true, generation := e.nextGeneration);
      OrderlyWindow(e, key, w);
      OrderlyFrame(e.(windows := e.windows[key := w]), DisableWindow(e, s, key));
    }
  }

  lemma {:induction false} OrderlyDisableAll(e: Engine, s: Selector, n: nat)
    requires Orderly(e) && n <= |e.windowOrder|
    ensures Orderly(DisableWindows(e, s, n))
  {
    hide Orderly, DisableWindow;
    if n > 0 {
      OrderlyDisableAll(e, s, n - 1);
      OrderlyDisable(DisableWindows(e, s, n - 1), s, e.windowOrder[n - 1]);
    }
  }

  lemma {:induction false} OrderlyCancelRequests(e: Engine, s: Selector, n: nat)
    requires Orderly(e) && Ledger(e) && !e.disposed
    ensures Orderly(CancelRequests(e, s, n)) && Ledger(CancelRequests(e, s, n)) && !CancelRequests(e, s, n).disposed
  {
    hide Orderly, Ledger, Finalize, Goes, Trims;
    if n > 0 {
      OrderlyCancelRequests(e, s, n - 1);
      var c := CancelRequests(e, s, n - 1);
      var t := c.(tombstones := c.tombstones + {n - 1});
      OrderlyFrame(c, t);
      LedgerFrame(c, t);
      OrderlyFinalize(t, n - 1, Cancelled);
      FinalizeStays(t, n - 1, Cancelled);
      CancelTrims(e, s, n);
      TrimsGoes(e, CancelRequests(e, s, n));
      EvolvesKeepsLedger(e, CancelRequests(e, s, n));
    }
  }

  lemma OrderlyCancel(e: Engine, s: Selector)
    requires Orderly(e) && Ledger(e) && !e.disposed
    ensures Orderly(CancelDirect(e, s))
  {
    hide Orderly, Ledger, CancelRequests;
    var d := DisableWindows(e, s, |e.windowOrder|);
    OrderlyDisableAll(e, s, |e.windowOrder|);
    LedgerFrame(e, d);
    OrderlyCancelRequests(d, s, |e.issued|);
  }

  lemma OrderlyDispose(e: Engine)
    requires Orderly(e) && Once(e, {}) && Ledger(e)
    ensures Orderly(Dispose(e))
  {
    if !e.disposed {
      hide CancelDirect, HasChild, Once, Ledger, Follows;
      var c := CancelDirect(e, Everything);
      OrderlyCancel(e, Everything);
      CancelEndsSelected(e, Everything);
    }
  }

  // ----- messages -----

  lemma OrderlyReject(e: Engine, peer: PeerId, h: Header, env: Env)
    requires Orderly(e) && Ledger(e) && !e.disposed && IsDirect(e, h.id)
    ensures Orderly(RejectChunk(e, peer, h, env))
  {
    hide Orderly, Ledger, Fail, Finalize, AskAgain;
    var r := Release(e.(incoming := e.incoming - {h.id}), h.piece, h.id);
    OrderlyFrame(e, r);
    LedgerFrame(e, r);
    OrderlyFailAndFinalize(r, h.id, h.piece, InvalidChunk);
    assert IsDirect(Fail(r, h.piece), h.id) by { FailFrame(r, h.piece); }
  }

  lemma OrderlyHeader(e: Engine, peer: PeerId, h: Header, env: Env)
    requires Orderly(e) && Once(e, {}) && Ledger(e) && !e.disposed
    ensures Orderly(ReceiveHeader(e, peer, h, env))
  {
    hide Orderly, Once, Ledger, RejectChunk;
    if Active(e, peer, h) {
      LedgerDirect(e, h.id, {});
      OrderlyReject(e, peer, h, env);
      OrderlyFrame(e, e.(pending := e.pending[peer := h]));
    }
  }

  lemma OrderlyMismatch(e: Engine, p: Piece, id: RequestId, env: Env)
    requires Orderly(e) && Ledger(e) && !e.disposed && IsDirect(e, id)
    ensures var b := ReceiveMismatch(e, p, id, env).0; Orderly(b) && WindowsStay(e, b)
  {
    hide Orderly, Ledger, Fail, Finalize, LifecycleError, IsDirect;
    var released := Release(e, p, id);
    var failed := Fail(released, p);
    FailFrame(released, p);
    OrderlyFrame(e, failed);
    LedgerFrame(e, released);
    if env.deleteOk {
      var deleted := failed.(storage := failed.storage - {p});
      OrderlyFrame(failed, deleted);
      LedgerFrame(failed, deleted);
      var l := LifecycleError(deleted, RequestOf(e, id));
      ErrorFrame(deleted, RequestOf(e, id));
      OrderlyError(deleted, RequestOf(e, id));
      ErrorStays(deleted, RequestOf(e, id));
      LedgerFrame(deleted, l);
      OrderlyFinalize(l, id, Cancelled);
      FinalizeStays(l, id, Cancelled);
      OrderlyFinalize(deleted, id, HashMismatch);
      FinalizeStays(deleted, id, HashMismatch);
      assert IsDirect(deleted, id) by { DirectFrame(e, deleted, id); }
      var f := Finalize(l, id, Cancelled);
      assert IsDirect(l, id) by { DirectFrame(e, l, id); }
      assert id !in f.outstanding by { FinalizeRemoves(l, id, Cancelled); }
      assert !IsDirect(f, id) by { NotDirect(f, id); }
      assert f.outstanding - {id} == f.outstanding;
      OrderlyFrame(f, f.(outstanding := f.outstanding - {id}));
    }
  }

  lemma DirectFrame(a: Engine, b: Engine, id: RequestId)
    requires IsDirect(a, id) && b.outstanding == a.outstanding
    ensures IsDirect(b, id)
  {
  }

  lemma NotDirect(e: Engine, id: RequestId)
    requires id !in e.outstanding
    ensures !IsDirect(e, id)
  {
  }

  lemma FinalizeRemoves(e: Engine, id: RequestId, reason: TerminalReason)
    requires IsDirect(e, id)
    ensures Finalize(e, id, reason).outstanding == e.outstanding - {id}
  {
    hide Close, Enqueue;
    CloseRemoves(e, id, reason);
    EnqueueFrame(Close(e, id, reason), e.outstanding[id].kind.info.window, Retry(id, e.outstanding[id]));
  }

  lemma OrderlyErrorEnd(e: Engine, r: Option<Request>, id: RequestId, p: Piece)
    requires Orderly(e) && Ledger(e) && !e.disposed
    ensures var b := FailAndFinalize(LifecycleError(e, r), id, p, Cancelled); Orderly(b) && WindowsStay(e, b)
  {
    hide Orderly, Ledger, FailAndFinalize, LifecycleError;
    var l := LifecycleError(e, r);
    ErrorFrame(e, r);
    OrderlyError(e, r);
    ErrorStays(e, r);
    LedgerFrame(e, l);
    OrderlyFailAndFinalize(l, id, p, Cancelled);
    FailAndFinalizeStays(l, id, p, Cancelled);
  }

  /** A verified piece: its request ends, and no competing request is there to be dropped. */
  lemma OrderlyVerified(e: Engine, p: Piece, id: RequestId)
    requires Orderly(e) && Ledger(e) && !e.disposed && IsDirect(e, id)
    requires forall i :: i in e.outstanding && e.outstanding[i].piece == p ==> i == id
    ensures var b := CancelCompeting(FinalizeOrDrop(e, id, VerifiedOk), p, id); Orderly(b) && WindowsStay(e, b)
  {
    hide Orderly, Ledger, Finalize, CancelCompeting;
    var f := Finalize(e, id, VerifiedOk);
    OrderlyFinalize(e, id, VerifiedOk);
    FinalizeStays(e, id, VerifiedOk);
    FinalizeRemoves(e, id, VerifiedOk);
    NobodyCompetes(f, p, id);
    CompetingFrame(f, p, id);
    OrderlyFrame(f, CancelCompeting(f, p, id));
  }

  lemma StoreVerifiedFrame(e: Engine, p: Piece, id: RequestId, data: Bytes)
    requires Has(e, p)
    ensures var s := StoreVerified(e, p, id, data);
      s == e.(storage := s.storage, managers := s.managers, leases := s.leases) && (Ledger(e) ==> Ledger(s))
  {
  }

  lemma OrderlyMatch(e: Engine, p: Piece, id: RequestId, data: Bytes, env: Env)
    requires Orderly(e) && Once(e, {}) && Ledger(e) && !e.disposed && id in e.outstanding && e.outstanding[id].piece == p && Has(e, p)
    ensures var b := ReceiveMatch(e, p, id, data, env).0; Orderly(b) && WindowsStay(e, b)
  {
    LedgerDirect(e, id, {});
    PieceIsOurs(e, id, {});
    hide Orderly, Once, Ledger, FailAndFinalize, FinalizeOrDrop, LifecycleError, Has, CancelCompeting, IsDirect, StoreVerified, WindowsStay;
    if !env.writeOk {
      OrderlyErrorEnd(e, RequestOf(e, id), id, p);
    } else {
      var released := StoreVerified(e, p, id, data);
      StoreVerifiedFrame(e, p, id, data);
      OrderlyFrame(e, released);
      OrderlyErrorEnd(released, RequestOf(e, id), id, p);
      assert IsDirect(released, id) by { DirectFrame(e, released, id); }
      OrderlyVerified(released, p, id);
      StayFrame(e, released, ReceiveMatch(e, p, id, data, env).0);
    }
  }

  lemma StayFrame(a: Engine, b: Engine, c: Engine)
    requires b.windows == a.windows && b.disposed == a.disposed && WindowsStay(b, c)
    ensures WindowsStay(a, c)
  {
  }

  lemma OrderlyDeliver(e: Engine, peer: PeerId, h: Header, data: Bytes, env: Env)
    requires Orderly(e) && Once(e, {}) && Books(e) && !e.disposed
    ensures Orderly(Deliver(e, peer, h, data, env))
  {
    hide Orderly, Once, Ledger, Arrivals, LeasesOfIssued, ReceiveMatch, ReceiveMismatch, FailAndFinalize, LifecycleError, AskAgain, Checks, Goes;
    var id, p := h.id, h.piece;
    if id in e.outstanding && e.outstanding[id].peer == peer && e.outstanding[id].piece == p {
      var r := e.outstanding[id];
      LedgerDirect(e, id, {});
      assert Has(e, p) && DescriptorOf(e, p).Some? by { LedgerPieces(e, id); }
      var (next, result) := ReceivePiece(e, p, id, data, env);
      ReceivePieceGoes(e, p, id, data, env);
      EvolvesKeepsLedger(e, next);
      OrderlyMismatch(e, p, id, env);
      OrderlyMatch(e, p, id, data, env);
      var l := LifecycleError(next, Some(r));
      ErrorFrame(next, Some(r));
      OrderlyError(next, Some(r));
      LedgerFrame(next, l);
      OrderlyFailAndFinalize(l, id, p, Cancelled);
    }
  }

  lemma OrderlyBinary(e: Engine, peer: PeerId, frame: Bytes, env: Env)
    requires Orderly(e) && Once(e, {}) && Books(e) && !e.disposed
    ensures Orderly(ReceiveBinary(e, peer, frame, env))
  {
    hide Orderly, Once, Books, RejectChunk, Deliver, AppendChunk, Keeps, Arrivals;
    if peer in e.pending {
      var h := e.pending[peer];
      HeldPending(e, peer);
      assert Arrivals(e) by { BooksArrivals(e); }
      FrameTaken(e, peer, frame);
      var e1 := e.(pending := e.pending - {peer});
      var e2 := e1.(incoming := e1.incoming - {h.id});
      OnceDrops(e, peer, h.id, {});
      OnceDrops(e1, peer, h.id, {});
      OrderlyFrame(e, e1);
      OrderlyFrame(e, e2);
      PendingKeeps(e, e1);
      PendingKeeps(e, e2);
      assert Ledger(e1) by { BooksLedger(e1); }
      LedgerDirect(e1, h.id, {});
      OrderlyReject(e1, peer, h, env);
      match AppendChunk(if h.id in e.incoming then Some(e.incoming[h.id]) else None, peer, h, frame)
      case Reject =>
      case Incomplete(a) => OrderlyFrame(e, e1.(incoming := e1.incoming[h.id := a]));
      case Complete(data) => OrderlyDeliver(e2, peer, h, data, env);
    }
  }

  lemma OrderlyAck(e: Engine, peer: PeerId, id: RequestId, p: Piece)
    requires Orderly(e) && Once(e, {}) && Ledger(e) && !e.disposed
    ensures Orderly(ReceiveAck(e, peer, id, p))
  {
    hide Orderly, Once, Ledger, Finalize;
    if id in e.outstanding {
      LedgerDirect(e, id, {});
      var r := Release(e, p, id);
      OrderlyFrame(e, r);
      LedgerFrame(e, r);
      OrderlyFinalize(r, id, Acknowledged);
    }
  }

  lemma OrderlyRejectMessage(e: Engine, peer: PeerId, id: RequestId, env: Env)
    requires Orderly(e) && Once(e, {}) && Ledger(e) && !e.disposed
    ensures Orderly(ReceiveReject(e, peer, id, env))
  {
    hide Orderly, Once, Ledger, Finalize, Fail, AskAgain;
    if id in e.outstanding {
      var p := e.outstanding[id].piece;
      LedgerDirect(e, id, {});
      var r := Release(e, p, id);
      OrderlyFrame(e, r);
      LedgerFrame(e, r);
      OrderlyFailAndFinalize(r, id, p, ProviderReject);
      assert IsDirect(Fail(r, p), id) by { FailFrame(r, p); }
    }
  }

  /** After disposal nothing is outstanding, so nothing ends any more. */
  ghost predicate QuietWhenDisposed(e: Engine) {
    e.disposed ==> e.outstanding == map[]
  }

  lemma {:induction false} NothingToExpire(e: Engine, now: int, n: nat)
    requires e.outstanding == map[]
    ensures ExpireFirst(e, now, n) == e
  {
    if n > 0 {
      NothingToExpire(e, now, n - 1);
    }
  }

  lemma {:induction false} NothingToCancel(e: Engine, s: Selector, n: nat)
    requires e.outstanding == map[]
    ensures CancelRequests(e, s, n) == e
  {
    if n > 0 {
      NothingToCancel(e, s, n - 1);
    }
  }

  lemma OrderlyStep(e: Engine, a: Action, env: Env)
    requires Orderly(e) && Once(e, {}) && Books(e) && QuietWhenDisposed(e) && !a.DoGrid?
    ensures Orderly(Step(e, a, env))
  {
    hide Orderly, Once, Books, OpenWindow, RunTask, CancelDirect, Dispose, ReceiveHeader, ReceiveBinary, ReceiveAck, ReceiveReject, Update, Keeps, FireTimer;
    assert Ledger(e) by { BooksLedger(e); }
    NoLeases(e);
    match a
    case DoOpen(peer, file, o, cap) => OrderlyOpen(e, peer, file, o.(retryCount := 0), cap);
    case DoTask(key) => OrderlyTask(e, key, env);
    case DoTimer(id) => OrderlyTimer(e, id);
    case DoExpireAll => OrderlyExpireAll(e, env.view.now);
    case DoCancel(s) => OrderlyAnyCancel(e, s);
    case DoDispose => OrderlyDispose(e);
    case DoExpireLeases => OnceExpireLeases(e, env.view.now, |e.issued|);
    case DoHeader(peer, h) => if !e.disposed { OrderlyHeader(e, peer, h, env); }
    case DoBinary(peer, frame) => if !e.disposed { OrderlyBinary(e, peer, frame, env); }
    case DoAck(peer, id, p) => if !e.disposed { OrderlyAck(e, peer, id, p); }
    case DoCancelMessage(id) => OrderlyFrame(e, ReceiveCancel(e, id));
    case DoReject(peer, id) => if !e.disposed { OrderlyRejectMessage(e, peer, id, env); }
    case DoMap(peer, role, m) => OrderlyFrame(e, ReceiveMap(e, peer, role, m));
  }

  lemma OrderlyExpireAll(e: Engine, now: int)
    requires Orderly(e) && Ledger(e) && QuietWhenDisposed(e)
    ensures Orderly(ExpireAll(e, now))
  {
    hide Orderly, Ledger;
    if e.disposed {
      NothingToExpire(e, now, |e.issued|);
    } else {
      OrderlyExpireFirst(e, now, |e.issued|);
    }
  }

  lemma OrderlyAnyCancel(e: Engine, s: Selector)
    requires Orderly(e) && Ledger(e) && QuietWhenDisposed(e)
    ensures Orderly(CancelDirect(e, s))
  {
    hide Orderly, Ledger;
    if e.disposed {
      OrderlyDisableAll(e, s, |e.windowOrder|);
      NothingToCancel(DisableWindows(e, s, |e.windowOrder|), s, |e.issued|);
    } else {
      OrderlyCancel(e, s);
    }
  }

  // ----- disposal is final -----

  lemma GoesKeepsDisposed(a: Engine, b: Engine)
    requires Goes(a, b)
    ensures a.disposed == b.disposed
  {
  }

  /** Only `dispose` sets the flag, and once it is set nothing is outstanding any more. */
  lemma QuietStep(e: Engine, a: Action, env: Env)
    requires QuietWhenDisposed(e) && Books(e) && Once(e, {}) && !a.DoGrid?
    ensures QuietWhenDisposed(Step(e, a, env))
  {
    hide Books, Once, RunTask, ReceiveBinary, ReceiveHeader, ReceiveAck, ReceiveReject, Update, OpenWindow, FireTimer, Goes, CancelDirect, ExpireAll, Arrivals;
    if a.DoDispose? {
    } else if e.disposed {
      NoLeases(e);
      match a
      case DoOpen(peer, file, o, cap) => OpenFrame(e, peer, file, o.(retryCount := 0), cap);
      case DoTask(key) => TaskWhenDisposed(e, key, env);
      case DoTimer(id) => assert FireTimer(e, id).outstanding == e.outstanding by { TimerFrame(e, id); }
      case DoExpireAll => QuietExpire(e, env.view.now);
      case DoCancel(s) => CancelWhenQuiet(e, s);
      case DoExpireLeases => OnceExpireLeases(e, env.view.now, |e.issued|);
      case _ =>
    } else if a.DoHeader? {
      HeaderKeepsDisposed(e, a.peer, a.header, env);
    } else if a.DoBinary? {
      BinaryKeepsDisposed(e, a.peer, a.frame, env);
    } else {
      OtherStepGoes(e, a, env);
      GoesKeepsDisposed(e, Step(e, a, env));
    }
  }

  lemma QuietExpire(e: Engine, now: int)
    requires e.outstanding == map[]
    ensures ExpireAll(e, now) == e
  {
    NothingToExpire(e, now, |e.issued|);
  }

  lemma TaskWhenDisposed(e: Engine, key: WindowKey, env: Env)
    requires e.disposed
    ensures RunTask(e, key, env).outstanding == e.outstanding
  {
  }

  lemma TimerFrame(e: Engine, id: RequestId)
    ensures FireTimer(e, id).outstanding == e.outstanding
  {
  }

  lemma CancelWhenQuiet(e: Engine, s: Selector)
    requires e.outstanding == map[]
    ensures CancelDirect(e, s).outstanding == map[]
  {
    NothingToCancel(DisableWindows(e, s, |e.windowOrder|), s, |e.issued|);
  }

  lemma HeaderKeepsDisposed(e: Engine, peer: PeerId, h: Header, env: Env)
    ensures ReceiveHeader(e, peer, h, env).disposed == e.disposed
  {
    hide RejectChunk, Goes, Active;
    RejectChunkGoes(e, peer, h, env);
    GoesKeepsDisposed(e, RejectChunk(e, peer, h, env));
  }

  lemma BinaryKeepsDisposed(e: Engine, peer: PeerId, frame: Bytes, env: Env)
    ensures ReceiveBinary(e, peer, frame, env).disposed == e.disposed
  {
    if peer in e.pending {
      ChunkKeepsDisposed(e, peer, frame, env);
    }
    hide RejectChunk, Deliver, AppendChunk;
  }

  lemma ChunkKeepsDisposed(e: Engine, peer: PeerId, frame: Bytes, env: Env)
    requires peer in e.pending
    ensures ReceiveBinary(e, peer, frame, env).disposed == e.disposed
  {
    hide RejectChunk, Deliver, AppendChunk, ReceiveBinary;
    var h := e.pending[peer];
    var r := AppendChunk(if h.id in e.incoming then Some(e.incoming[h.id]) else None, peer, h, frame);
    BinaryIs(e, peer, frame, env, h, r);
    match r
    case Reject => RefusalKeepsDisposed(e.(pending := e.pending - {peer}), peer, h, env);
    case Incomplete(_) =>
    case Complete(data) => DeliveryKeepsDisposed(e.(pending := e.pending - {peer}, incoming := e.incoming - {h.id}), peer, h, data, env);
  }

  lemma RefusalKeepsDisposed(e: Engine, peer: PeerId, h: Header, env: Env)
    ensures RejectChunk(e, peer, h, env).disposed == e.disposed
  {
    hide RejectChunk, Goes;
    RejectChunkGoes(e, peer, h, env);
    GoesKeepsDisposed(e, RejectChunk(e, peer, h, env));
  }

  lemma DeliveryKeepsDisposed(e: Engine, peer: PeerId, h: Header, data: Bytes, env: Env)
    ensures Deliver(e, peer, h, data, env).disposed == e.disposed
  {
    hide Deliver, Goes;
    DeliverGoes(e, peer, h, data, env);
    GoesKeepsDisposed(e, Deliver(e, peer, h, data, env));
  }

  // ----- runs -----

  lemma StartOrderly(e: Engine)
    requires Start(e)
    ensures Orderly(e) && QuietWhenDisposed(e)
  {
  }

  lemma {:induction false} RunOrderly(e: Engine, run: seq<Event>)
    requires Start(e) && DirectOnly(run)
    ensures Orderly(Run(e, run)) && QuietWhenDisposed(Run(e, run))
  {
    hide Orderly, QuietWhenDisposed, Once, Books, Step, Keeps;
    if run == [] {
      StartOrderly(e);
    } else {
      var n := |run| - 1;
      RunOrderly(e, run[..n]);
      RunOnce(e, run[..n]);
      OrderlyStep(Run(e, run[..n]), run[n].action, run[n].env);
      QuietStep(Run(e, run[..n]), run[n].action, run[n].env);
    }
  }

  /** The requests that led to request `k`, oldest first. */
  function Chain(issued: seq<Issue>, k: nat): seq<nat>
    requires k < |issued|
    decreases k
  {
    if issued[k].parent.None? || issued[k].parent.value >= k then [k] else Chain(issued, issued[k].parent.value) + [k]
  }

  lemma {:induction false} ChainLength(e: Engine, k: nat)
    requires Chained(e) && k < |e.issued|
    ensures e.issued[k].request.kind.Direct? && |Chain(e.issued, k)| == e.issued[k].request.kind.info.retryCount + 1
    decreases k
  {
    assert Linked(e.issued, e.cfg.maxRetries, k);
    if e.issued[k].parent.Some? {
      ChainLength(e, e.issued[k].parent.value);
    }
  }

  /** Over any run of direct requests: no window ever holds more requests than its cap. */
  lemma WindowsNeverOverflow(e: Engine, run: seq<Event>, key: WindowKey)
    requires Start(e) && DirectOnly(run) && key in Run(e, run).windows
    ensures |InWindow(Run(e, run), key)| <= Run(e, run).windows[key].cap
  {
    RunOrderly(e, run);
  }

  /** From one point of a run to a later one without disposal, a window keeps its cap, file and peer. */
  lemma {:induction false} WindowsAreFixed(e: Engine, run: seq<Event>, n: nat)
    requires n <= |run| && forall k :: n <= k < |run| ==> !run[k].action.DoDispose?
    ensures WindowsStand(Run(e, run[..n]), Run(e, run))
  {
    hide Step;
    var m := |run| - 1;
    if n == |run| {
      assert run[..n] == run;
    } else {
      assert run[..m][..n] == run[..n];
      WindowsAreFixed(e, run[..m], n);
      StepClean(Run(e, run[..m]), run[m].action, run[m].env);
      StandTrans(Run(e, run[..n]), Run(e, run[..m]), Run(e, run));
    }
  }

  lemma StandTrans(a: Engine, b: Engine, c: Engine)
    requires WindowsStand(a, b) && WindowsStand(b, c)
    ensures WindowsStand(a, c)
  {
  }

  /** Over any run of direct requests: retries form chains of at most `maxRetries + 1` requests for
      one window, peer and file, no request is retried twice, and a retryable end goes without a
      retry exactly when its chain has used up its budget. */
  lemma ChainsEnd(e: Engine, run: seq<Event>, k: nat)
    requires Start(e) && DirectOnly(run) && k < |Run(e, run).issued|
    ensures var f := Run(e, run);
      && |Chain(f.issued, k)| <= e.cfg.maxRetries + 1
      && (f.issued[k].parent.Some? ==> Follows(f.issued, f.issued[k].parent.value, k))
      && (forall j :: 0 <= j < |f.issued| && j != k && f.issued[k].parent.Some? ==> f.issued[j].parent != f.issued[k].parent)
      && (forall t :: 0 <= t < |f.terminals| ==>
            (Retryable(f.terminals[t].reason) && !f.terminals[t].willRetry <==>
             Retryable(f.terminals[t].reason) && f.terminals[t].retryCount == e.cfg.maxRetries))
  {
    var f := Run(e, run);
    RunOrderly(e, run);
    RunKeeps(e, run);
    assert f.cfg == e.cfg by { KeepsManifests(e, f); }
    ChainLength(f, k);
    assert Linked(f.issued, f.cfg.maxRetries, k);
  }

  /** Over any run of direct requests: a window reports exhaustion at most once. */
  lemma ExhaustionReportedOnce(e: Engine, run: seq<Event>)
    requires Start(e) && DirectOnly(run)
    ensures forall j, k :: 0 <= j < k < |Run(e, run).exhaustions| ==> Run(e, run).exhaustions[j] != Run(e, run).exhaustions[k]
  {
    RunOrderly(e, run);
  }
}
