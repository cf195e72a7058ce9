/** Runs on which the lease bijection and the in-flight limit do fail: the exceptions named in
    `EngineLease.Parts` and `EngineCaps.Overshoots` are reachable, from any freshly started engine.
    And one on which a file is never fetched. */
module EngineExceptions {
  import opened Common
  import opened Pieces
  import opened ChunkAssembly
  import opened Availability
  import opened GridChoice
  import opened Engine
  import opened EngineSteps
  import opened EngineRuns
  import opened EngineLease
  import opened EngineCaps
  import opened EngineGrid

  /** Nothing has failed yet, some open piece exists and the owner can take a request: one is made. */
  lemma OwnerServes(e: Engine, file: FileId, o: GridOptions, env: Env, j: nat) returns (i: nat, provider: Provider)
    requires file in e.managers && Open(e, file, o, env.view.now, j)
    requires ExpireLeases(e, env.view.now) == e
    requires forall k :: 0 <= k < |e.managers[file]| ==> e.managers[file][k].retryCount == 0
    requires |OfPeer(e, o.owner)| < o.maxRequestsPerPeer
    requires forall k :: 0 <= k < |e.managers[file]| ==> Listed(GridReady(e, file, o, env.view.now), Piece(file, k))
    ensures i < |e.managers[file]| && Open(e, file, o, env.view.now, i) && AskedFor(e, file, o, env, i, provider)
  {
    hide RequestNextGrid, ProvidersOf, ExpireLeases, Update, RankProviders, AskedFor, BestFor, Rarity;
    assert j in MissingPieces(e.managers[file]);
    GridRequestMeaning(e, file, o, env);
    assert GridReady(e, file, o, env.view.now).outstanding == e.outstanding;
    assert !Unservable(e, file, o, env.view, j);
    i :| Decides(e, file, o, env.view, i);
    assert Known(e, file, o, env.view, i).retryCount == 0;
    provider :| AskedFor(e, file, o, env, i, provider) && BestFor(e, file, o, env.view, i, provider);
  }

  /** A freshly started engine with a file to fetch, and an owner that may be asked. */
  ghost predicate Ready(e: Engine, file: FileId, o: GridOptions) {
    Start(e) && file in e.manifests && e.manifests[file] != [] && o.maxRequestsPerPeer > 0
  }

  /** The engine after its first grid request, for piece `p` and under request 0. */
  ghost predicate FirstAsked(e: Engine, b: Engine, p: Piece, peer: PeerId, o: GridOptions, now: int) {
    && b.cfg == e.cfg && !b.disposed && b.tombstones == {} && b.pending == map[] && b.incoming == map[]
    && |b.issued| == 1 && b.issued[0].request == Request(p, peer, Grid(o))
    && b.outstanding == map[0 := Request(p, peer, Grid(o))]
    && b.leases == map[p := Lease(peer, 0, now + o.leaseMs)]
    && b.managers.Keys == e.managers.Keys && p.file in b.managers && Has(b, p)
    && (forall k :: 0 <= k < |b.managers[p.file]| ==>
          b.managers[p.file][k].retryCount == 0 && (k != p.index ==> Wanted(b.managers[p.file][k])))
    && StateOf(b, p).status.Requested?
    && b.manifests == e.manifests && p.file in e.manifests && |b.managers[p.file]| == |e.manifests[p.file]|
    && p.file in b.table && |b.table[p.file].providers| == |e.manifests[p.file]|
  }

  lemma Unlisted(e: Engine, file: FileId, o: GridOptions, now: int)
    requires Ready(e, file, o)
    ensures ExpireLeases(e, now) == e && file in GridReady(e, file, o, now).table
    ensures |GridReady(e, file, o, now).table[file].providers| == |e.manifests[file]|
    ensures GridReady(e, file, o, now) == e.(table := GridReady(e, file, o, now).table)
  {
    var n := |e.manifests[file]|;
    var all := seq(n, i => i);
    assert forall k :: 0 < k < n ==> all[k - 1] < all[k];
  }

  lemma FirstRequest(e: Engine, file: FileId, o: GridOptions, env: Env) returns (p: Piece, peer: PeerId)
    requires Ready(e, file, o)
    ensures FirstAsked(e, Step(e, DoGrid(file, o, 1), env), p, peer, o, env.view.now)
    ensures p.file == file
  {
    hide Update, Choose, GridItems, AskedFor;
    Unlisted(e, file, o, env.view.now);
    assert Open(e, file, o, env.view.now, 0);
    var i, provider := OwnerServes(e, file, o, env, 0);
    p, peer := Piece(file, i), provider.peer;
    FirstState(e, file, o, env, i, provider);
  }

  /** A scheduled request is recorded under its lease, and nothing else changes. */
  lemma ScheduledIs(e: Engine, file: FileId, o: GridOptions, env: Env, i: nat, provider: Provider)
    requires file in e.managers && MissingPieces(e.managers[file]) != [] && AskedFor(e, file, o, env, i, provider)
    ensures var g, p := GridReady(e, file, o, env.view.now), Piece(file, i);
      Has(g, p) && RequestNextGrid(e, file, o, env).0
        == Record(g.(leases := g.leases[p := Lease(provider.peer, |g.issued|, env.view.now + o.leaseMs)]), Request(p, provider.peer, Grid(o)), None)
  {
    hide GridItems, Choose, SameShape, SetState;
    ReadyIssued(e, file, o, env.view.now);
    hide GridReady;
    GridChosen(e, file, o, env.view);
  }

  lemma FirstState(e: Engine, file: FileId, o: GridOptions, env: Env, i: nat, provider: Provider)
    requires Ready(e, file, o) && i < |e.managers[file]| && AskedFor(e, file, o, env, i, provider)
    ensures FirstAsked(e, Step(e, DoGrid(file, o, 1), env), Piece(file, i), provider.peer, o, env.view.now)
  {
    hide GridReady, SameShape, RequestNextGrid, AskedFor;
    Unlisted(e, file, o, env.view.now);
    assert OfFile(e, file) == {};
    assert 0 in MissingPieces(e.managers[file]);
    ScheduledIs(e, file, o, env, i, provider);
  }

  function OneChunk(p: Piece): Header {
    Header(p, 0, 0, 1, 1)
  }

  lemma TwoSteps(e: Engine, a: Event, b: Event)
    ensures Run(e, [a]) == Step(e, a.action, a.env)
    ensures Run(e, [a, b]) == Step(Step(e, a.action, a.env), b.action, b.env)
  {
    assert Run(e, []) == e;
    assert [a][..0] == [];
    assert [a, b][..1] == [a];
  }

  lemma OneMoreStep(e: Engine, run: seq<Event>, a: Event)
    ensures Run(e, run + [a]) == Step(Run(e, run), a.action, a.env)
  {
    assert (run + [a])[..|run|] == run;
  }

  lemma HeaderTaken(b: Engine, e: Engine, p: Piece, peer: PeerId, o: GridOptions, now: int, env: Env)
    requires FirstAsked(e, b, p, peer, o, now)
    ensures Step(b, DoHeader(peer, OneChunk(p)), env) == b.(pending := map[peer := OneChunk(p)])
  {
  }

  /** The lease of the one request runs out while its header waits. */
  lemma LeaseRunsOut(c: Engine, p: Piece, peer: PeerId, o: GridOptions, now: int)
    requires |c.issued| == 1 && c.issued[0].request == Request(p, peer, Grid(o)) && Has(c, p) && StateOf(c, p).retryCount == 0
    requires c.outstanding == map[0 := Request(p, peer, Grid(o))]
    requires p in c.leases && c.leases[p].id == 0 && c.leases[p].expiresAt <= now
    ensures var d := ExpireLeases(c, now);
      && d.outstanding == map[] && d.pending == c.pending && d.cfg == c.cfg && d.incoming == c.incoming - {0}
      && d.disposed == c.disposed && Has(d, p) && StateOf(d, p).retryCount == 1
  {
    hide SameShape;
    assert ExpireLeasesFirst(c, now, 0) == c;
    assert ExpireLeases(c, now) == ExpireLease(c, 0, now);
    var q := c.(leases := c.leases - {p}, outstanding := c.outstanding - {0}, incoming := c.incoming - {0});
    assert q.outstanding == map[];
    ReopenState(q, p);
  }

  lemma ReopenState(e: Engine, p: Piece)
    requires Has(e, p)
    ensures Reopen(e, p) == e.(managers := Reopen(e, p).managers)
    ensures Has(Reopen(e, p), p) && StateOf(Reopen(e, p), p).retryCount == StateOf(e, p).retryCount + 1
  {
    hide SetState, SameShape;
    StateAfterSet(e, p, MarkFailed(StateOf(e, p)));
    var f := Fail(e, p);
    StateAfterSet(f, p, ResetFailedToMissing(StateOf(f, p)));
  }

  lemma SafeActions(e: Engine, run: seq<Event>)
    requires forall k :: 0 <= k < |run| ==> GridAction(run[k].action) && !run[k].action.DoBinary?
    ensures KeepsLeases(e, run)
  {
  }

  /** A header waits, its request's lease runs out, and the frame that follows is refused: the piece
      is asked for again by a plain request that holds no lease. */
  lemma StaleHeaderRun(e: Engine, file: FileId, o: GridOptions, env: Env, late: Env) returns (run: seq<Event>)
    requires Ready(e, file, o) && e.cfg.maxRetries >= 2
    requires late.view.now >= env.view.now + o.leaseMs && env.replyOk
    ensures |run| == 4 && forall k :: 0 <= k < |run| ==> GridAction(run[k].action)
    ensures !Paired(Run(e, run))
  {
    hide Paired, Books, Step, Parts, FirstAsked;
    var p, peer := FirstRequest(e, file, o, env);
    var ask, head := Event(DoGrid(file, o, 1), env), Event(DoHeader(peer, OneChunk(p)), env);
    var expire, frame := Event(DoExpireLeases, late), Event(DoBinary(peer, []), env);
    var before := [ask, head, expire];
    run := before + [frame];
    TwoSteps(e, ask, head);
    OneMoreStep(e, [ask, head], expire);
    assert [ask, head] + [expire] == before;
    OneMoreStep(e, before, frame);
    var b := Step(e, ask.action, env);
    HeaderTaken(b, e, p, peer, o, env.view.now, env);
    var c := Run(e, [ask, head]);
    assert c == b.(pending := map[peer := OneChunk(p)]);
    StaleNow(e, b, c, p, peer, o, env, late);
    SafeActions(e, before);
    LeasesMirrorRequests(e, before);
    PairedStep(Run(e, before), frame.action, env);
  }

  lemma StaleNow(e: Engine, b: Engine, c: Engine, p: Piece, peer: PeerId, o: GridOptions, env: Env, late: Env)
    requires FirstAsked(e, b, p, peer, o, env.view.now) && c == b.(pending := map[peer := OneChunk(p)])
    requires late.view.now >= env.view.now + o.leaseMs && env.replyOk && e.cfg.maxRetries >= 2
    ensures Parts(Step(c, DoExpireLeases, late), DoBinary(peer, []), env)
  {
    hide ExpireLeases;
    LeaseRunsOut(c, p, peer, o, late.view.now);
  }

  /** A header waits, its peer cancels the request, and the frame that follows completes the piece:
      the request is kept and another one made, which takes the file past its limit of one. */
  lemma CancelledRequestRun(e: Engine, file: FileId, o: GridOptions, env: Env, byte: Byte) returns (run: seq<Event>)
    requires Ready(e, file, o) && |e.manifests[file]| >= 2 && o.maxRequestsPerPeer >= 2
    requires o.leaseMs > 0 && env.replyOk
    ensures CapRun(e, run, o.maxRequestsPerPeer, 1) && !FilesWithin(Run(e, run), 1)
  {
    hide Paired, Books, Step, Parts, FirstAsked, FilesWithin, KeepsLeases, Overshoots;
    var p, peer := FirstRequest(e, file, o, env);
    var ask, head := Event(DoGrid(file, o, 1), env), Event(DoHeader(peer, OneChunk(p)), env);
    var cancel, frame := Event(DoCancelMessage(0), env), Event(DoBinary(peer, [byte]), env);
    var before := [ask, head, cancel];
    run := before + [frame];
    TwoSteps(e, ask, head);
    OneMoreStep(e, [ask, head], cancel);
    assert [ask, head] + [cancel] == before;
    OneMoreStep(e, before, frame);
    var b := Step(e, ask.action, env);
    HeaderTaken(b, e, p, peer, o, env.view.now, env);
    var c := Run(e, before);
    assert !b.disposed by { NotDisposed(e, b, p, peer, o, env.view.now); }
    CancelNoted(b, p, peer, env);
    KeptNow(e, b, c, p, peer, o, env, byte);
    SafeActions(e, before);
    CapRunExtends(e, before, frame, o.maxRequestsPerPeer, 1);
    LeasesMirrorRequests(e, before);
    NothingOvershoots(e, before, 1);
    FilesStayWithin(e, before, o.maxRequestsPerPeer, 1);
    FilesStep(c, frame.action, env, o.maxRequestsPerPeer, 1);
  }

  lemma NotDisposed(e: Engine, b: Engine, p: Piece, peer: PeerId, o: GridOptions, now: int)
    requires FirstAsked(e, b, p, peer, o, now)
    ensures !b.disposed
  {
  }

  lemma NothingOvershoots(e: Engine, run: seq<Event>, total: nat)
    requires forall k :: 0 <= k < |run| ==> !run[k].action.DoBinary?
    ensures forall k :: 0 <= k < |run| ==> !Overshoots(Run(e, run[..k]), run[k].action, run[k].env, total)
  {
  }

  lemma CapRunExtends(e: Engine, run: seq<Event>, last: Event, cap: nat, total: nat)
    requires CapRun(e, run, cap, total) && UnderCaps(last.action, cap, total) && !Parts(Run(e, run), last.action, last.env)
    ensures CapRun(e, run + [last], cap, total)
  {
    hide Run, Parts;
    var all := run + [last];
    forall k | 0 <= k < |all|
      ensures GridAction(all[k].action) && !Parts(Run(e, all[..k]), all[k].action, all[k].env)
    {
      if k < |run| {
        assert all[..k] == run[..k];
      } else {
        assert all[..k] == run;
      }
    }
  }

  lemma CancelNoted(b: Engine, p: Piece, peer: PeerId, env: Env)
    requires !b.disposed
    ensures Step(b.(pending := map[peer := OneChunk(p)]), DoCancelMessage(0), env)
         == b.(pending := map[peer := OneChunk(p)], tombstones := b.tombstones + {0})
  {
  }

  lemma ChunkCompletes(peer: PeerId, p: Piece, byte: Byte)
    ensures AppendChunk(None, peer, OneChunk(p), [byte]) == Complete([byte])
  {
    var parts: seq<Bytes> := [[byte]];
    ReceiveAny(peer, p, 0, parts, [0]);
    assert Concat(parts) == [byte] + Concat([]);
    assert HeaderFor(p, 0, parts, 0) == OneChunk(p);
  }

  lemma KeptNow(e: Engine, b: Engine, c: Engine, p: Piece, peer: PeerId, o: GridOptions, env: Env, byte: Byte)
    requires FirstAsked(e, b, p, peer, o, env.view.now)
    requires c == b.(pending := map[peer := OneChunk(p)], tombstones := b.tombstones + {0})
    requires |e.manifests[p.file]| >= 2 && o.maxRequestsPerPeer >= 2 && o.leaseMs > 0 && env.replyOk
    requires Start(e)
    ensures Overshoots(c, DoBinary(peer, [byte]), env, 1) && !Parts(c, DoBinary(peer, [byte]), env)
  {
    hide AppendChunk, RequestNextGrid, Checks, ExpireLeases, GridReady, WouldSchedule;
    ChunkCompletes(peer, p, byte);
    var t := Taken(c, DoBinary(peer, [byte]));
    assert t == b.(pending := map[], tombstones := {0}, incoming := map[]);
    assert Refused(t, OneChunk(p)) == t;
    LeaseHolds(t, env.view.now, p.file, o);
    NextIsScheduled(e, t, p, peer, o, env);
    SchedulesExactly(t, p.file, o, env);
    assert OfFile(t, p.file) == {0};
  }

  lemma LeaseHolds(t: Engine, now: int, file: FileId, o: GridOptions)
    requires |t.issued| == 1 && file in t.table
    requires forall p :: p in t.leases ==> t.leases[p].expiresAt > now
    ensures ExpireLeases(t, now) == t && GridReady(t, file, o, now) == t
  {
    assert ExpireLeasesFirst(t, now, 0) == t;
  }

  lemma NextIsScheduled(e: Engine, t: Engine, p: Piece, peer: PeerId, o: GridOptions, env: Env)
    requires FirstAsked(e, t.(tombstones := {}), p, peer, o, env.view.now) && p.file in e.manifests
    requires |e.manifests[p.file]| >= 2 && o.maxRequestsPerPeer >= 2 && o.leaseMs > 0
    ensures RequestNextGrid(t, p.file, o, env).1.GridScheduled?
  {
    hide RequestNextGrid, ExpireLeases, GridReady;
    LeaseHolds(t, env.view.now, p.file, o);
    var j := if p.index == 0 then 1 else 0;
    assert Open(t, p.file, o, env.view.now, j);
    assert OfPeer(t, o.owner) <= {0};
    SubsetCount(OfPeer(t, o.owner), {0});
    var i, provider := OwnerServes(t, p.file, o, env, j);
  }

  // ----- a file that is never fetched -----

  /** A well-formed map that says the file has no pieces. */
  function EmptyMap(file: FileId, now: int): PieceMap {
    PieceMap(file, [], 0, 1, now)
  }

  predicate RoundsFor(file: FileId, run: seq<Event>) {
    forall k :: 0 <= k < |run| ==> run[k].action.DoGrid? && run[k].action.file == file
  }

  /** An engine in which the file is listed without pieces and nothing is under way. */
  predicate ListedEmpty(e: Engine, file: FileId) {
    file in e.table && e.table[file].providers == [] && e.leases == map[] && e.issued == []
  }

  lemma NothingScheduled(e: Engine, file: FileId, o: GridOptions, env: Env)
    requires ListedEmpty(e, file)
    ensures RequestNextGrid(e, file, o, env).0 == e && !RequestNextGrid(e, file, o, env).1.GridScheduled?
  {
    hide GridItems, Choose, SameShape, Update;
    assert ExpireLeasesFirst(e, env.view.now, 0) == e;
    assert GridReady(e, file, o, env.view.now) == e;
  }

  lemma {:induction false} RoundsChangeNothing(e: Engine, file: FileId, run: seq<Event>)
    requires ListedEmpty(e, file) && RoundsFor(file, run)
    ensures Run(e, run) == e
  {
    hide RequestNextGrid, OfFile;
    if run != [] {
      var last := run[|run| - 1];
      RoundsChangeNothing(e, file, run[..|run| - 1]);
      NothingScheduled(e, file, last.action.gridOptions, last.env);
    }
  }

  /** A fresh engine is told by anybody that a file has no pieces: from then on no grid round, with
      whatever options and however often, asks for any piece of it, although all are missing. */
  lemma EmptyMapStarves(e: Engine, file: FileId, peer: PeerId, role: Role, now: int, env: Env, run: seq<Event>)
    requires Start(e) && file in e.manifests && RoundsFor(file, run)
    ensures var told := Step(e, DoMap(peer, role, EmptyMap(file, now)), env);
      && Run(told, run) == told && told.issued == [] && told.outstanding == map[]
      && file in told.managers && |MissingPieces(told.managers[file])| == |e.manifests[file]|
  {
    hide RequestNextGrid, Select;
    var told := Step(e, DoMap(peer, role, EmptyMap(file, now)), env);
    assert ListedEmpty(told, file);
    RoundsChangeNothing(told, file, run);
    AllMissing(e.managers[file]);
  }

  lemma {:induction false} AllMissing(s: States)
    requires forall i :: 0 <= i < |s| ==> Wanted(s[i])
    ensures |MissingPieces(s)| == |s|
  {
    if s != [] {
      AllMissing(s[..|s| - 1]);
    }
  }
}
