/** Which piece a grid request is for and whom it goes to, with the four keys of the order and the owner's
    handicap written out over what the engine knows. */
module GridOrder {
  import opened Common
  import opened Pieces
  import opened Availability
  import opened Sorting
  import opened GridChoice
  import opened Engine
  import opened EngineGrid
  import opened EngineOutcomes
  import EngineFill

  // ----- providers -----

  /** Requests under way to a peer. */
  function Busy(g: Engine, peer: PeerId): nat {
    |set id | id in g.outstanding && g.outstanding[id].peer == peer|
  }

  /** The advertisement has not run out, and its peer may be asked: a connected candidate, or the connected
      owner, with room for another request. */
  predicate Offers(g: Engine, o: GridOptions, v: View, q: Provider) {
    && q.expiresAt > v.now && (q.peer in o.candidates || q.peer == o.owner)
    && v.connected(q.peer) && Busy(g, q.peer) < o.maxRequestsPerPeer
  }

  /** Somebody apart from the owner offers the piece. */
  predicate ByReceiver(g: Engine, o: GridOptions, v: View, p: Piece) {
    exists k :: 0 <= k < |ProvidersOf(g, p)| && Offers(g, o, v, ProvidersOf(g, p)[k]) && ProvidersOf(g, p)[k].role != Owner
  }

  /** The owner may stand in: it has room and does not offer the piece itself. */
  predicate StandsIn(g: Engine, o: GridOptions, v: View, p: Piece) {
    && Busy(g, o.owner) < o.maxRequestsPerPeer
    && forall k :: 0 <= k < |ProvidersOf(g, p)| && Offers(g, o, v, ProvidersOf(g, p)[k]) ==> ProvidersOf(g, p)[k].peer != o.owner
  }

  predicate Servable(g: Engine, o: GridOptions, v: View, p: Piece) {
    || Busy(g, o.owner) < o.maxRequestsPerPeer
    || exists k :: 0 <= k < |ProvidersOf(g, p)| && Offers(g, o, v, ProvidersOf(g, p)[k])
  }

  /** Advertised copies: those of others than the owner, or all if there is none. */
  function Copies(g: Engine, o: GridOptions, v: View, p: Piece): nat {
    var ads := ProvidersOf(g, p);
    var others := |set k | 0 <= k < |ads| && ads[k].expiresAt > v.now && ads[k].peer != o.owner|;
    if others > 0 then others else |set k | 0 <= k < |ads| && ads[k].expiresAt > v.now|
  }

  /** The order of the scheduler: offered by a receiver first, then fewer copies, then fewer retries, then
      the lower index. */
  predicate Earlier(g: Engine, o: GridOptions, v: View, p: Piece, q: Piece)
    requires Has(g, p) && Has(g, q)
  {
    if ByReceiver(g, o, v, p) != ByReceiver(g, o, v, q) then ByReceiver(g, o, v, p)
    else if Copies(g, o, v, p) != Copies(g, o, v, q) then Copies(g, o, v, p) < Copies(g, o, v, q)
    else if StateOf(g, p).retryCount != StateOf(g, q).retryCount then StateOf(g, p).retryCount < StateOf(g, q).retryCount
    else p.index < q.index
  }

  /** The owner counts five points less. */
  function Points(v: View, q: Provider): real {
    v.score(q.peer) - if q.role == Owner then 5.0 else 0.0
  }

  /** No worse than `q`: more points, or as many and not more requests under way. */
  predicate NoWorse(g: Engine, v: View, best: Provider, q: Provider) {
    Points(v, best) > Points(v, q) || (Points(v, best) == Points(v, q) && Busy(g, best.peer) <= Busy(g, q.peer))
  }

  /** The provider asked for a piece: one that offers it, or the owner standing in, and no worse than any. */
  ghost predicate Picked(g: Engine, o: GridOptions, v: View, p: Piece, best: Provider) {
    var ads, standIn := ProvidersOf(g, p), Provider(o.owner, Owner, v.now, v.now + 30_000);
    && ((best in ads && Offers(g, o, v, best)) || (StandsIn(g, o, v, p) && best == standIn))
    && (forall k :: 0 <= k < |ads| && Offers(g, o, v, ads[k]) ==> NoWorse(g, v, best, ads[k]))
    && (StandsIn(g, o, v, p) ==> NoWorse(g, v, best, standIn))
  }

  /** How many may be asked, the owner standing in included. */
  function Choices(g: Engine, o: GridOptions, v: View, p: Piece): nat {
    var ads := ProvidersOf(g, p);
    |set k | 0 <= k < |ads| && Offers(g, o, v, ads[k])| + if StandsIn(g, o, v, p) then 1 else 0
  }

  // ----- from lists to sets of positions -----

  /** The positions of the elements that pass a test. */
  function Passing<T>(s: seq<T>, keep: T -> bool): (r: set<int>)
    ensures forall k :: k in r <==> 0 <= k < |s| && keep(s[k])
  {
    set k | 0 <= k < |s| && keep(s[k])
  }

  lemma CountPositions<T>(s: seq<T>, keep: T -> bool)
    requires s != []
    ensures var n := |s| - 1; |Passing(s, keep)| == |Passing(s[..n], keep)| + if keep(s[n]) then 1 else 0
  {
    var n := |s| - 1;
    var all, before := Passing(s, keep), Passing(s[..n], keep);
    hide Passing;
    assert all == if keep(s[n]) then before + {n} else before;
  }

  /** Filtering twice keeps what passes both tests, as often as it occurs. */
  lemma {:induction false} FilterTwice<T(!new)>(s: seq<T>, a: T -> bool, b: T -> bool, both: T -> bool)
    requires forall x :: both(x) <==> a(x) && b(x)
    ensures |Filter(Filter(s, a), b)| == |Passing(s, both)|
  {
    if s != [] {
      var n := |s| - 1;
      FilterTwice(s[..n], a, b, both);
      CountPositions(s, both);
      FilterLast(s, a, b);
    }
  }

  lemma FilterLast<T>(s: seq<T>, a: T -> bool, b: T -> bool)
    requires s != []
    ensures var n := |s| - 1;
      Filter(Filter(s, a), b) == Filter(Filter(s[..n], a), b) + if a(s[n]) && b(s[n]) then [s[n]] else []
  {
    var n := |s| - 1;
    var first := Filter(s[..n], a);
    if a(s[n]) {
      var all := Filter(s, a);
      assert all[..|first|] == first && all[|first|] == s[n];
    }
  }

  lemma FilterOnce<T(!new)>(s: seq<T>, a: T -> bool)
    ensures |Filter(s, a)| == |Passing(s, a)|
  {
    FilterTwice(s, a, x => true, a);
    FilterAll(Filter(s, a));
  }

  lemma {:induction false} FilterAll<T>(s: seq<T>)
    ensures Filter(s, x => true) == s
  {
    if s != [] {
      FilterAll(s[..|s| - 1]);
    }
  }

  lemma UsableOffers(g: Engine, o: GridOptions, v: View, q: Provider)
    ensures Live(v, q) && Usable(o, v, ActiveCount(g), q) <==> Offers(g, o, v, q)
    ensures HasCapacity(o, ActiveCount(g), q.peer) <==> Busy(g, q.peer) < o.maxRequestsPerPeer
    ensures ActiveCount(g)(q.peer) == Busy(g, q.peer) && Score(v, q) == Points(v, q)
  {
    assert OfPeer(g, q.peer) == set id | id in g.outstanding && g.outstanding[id].peer == q.peer;
  }

  function Standing(o: GridOptions, v: View): Provider {
    Provider(o.owner, Owner, v.now, v.now + 30_000)
  }

  lemma UsableAre(g: Engine, o: GridOptions, v: View, ads: seq<Provider>)
    ensures var active := ActiveCount(g);
      var usable := Filter(Filter(ads, q => Live(v, q)), q => Usable(o, v, active, q));
      && |usable| == |set k | 0 <= k < |ads| && Offers(g, o, v, ads[k])|
      && forall q :: q in usable <==> q in ads && Offers(g, o, v, q)
  {
    hide Offers, Usable, Live, ActiveCount, Filter;
    var active := ActiveCount(g);
    var live, can, both := (q: Provider) => Live(v, q), (q: Provider) => Usable(o, v, active, q), (q: Provider) => Offers(g, o, v, q);
    forall q
      ensures both(q) <==> live(q) && can(q)
    {
      UsableOffers(g, o, v, q);
    }
    FilterTwice(ads, live, can, both);
    assert Passing(ads, both) == set k | 0 <= k < |ads| && Offers(g, o, v, ads[k]);
  }

  /** Those who may be asked. */
  lemma EligibleAre(g: Engine, o: GridOptions, v: View, p: Piece)
    ensures var all, ads := Eligible(o, v, ActiveCount(g), ProvidersOf(g, p)), ProvidersOf(g, p);
      && (forall q :: q in all <==> (q in ads && Offers(g, o, v, q)) || (StandsIn(g, o, v, p) && q == Standing(o, v)))
      && |all| == Choices(g, o, v, p)
  {
    hide ProvidersOf, Offers, Usable, Live, ActiveCount, HasCapacity, Busy, Filter;
    var ads, active := ProvidersOf(g, p), ActiveCount(g);
    var usable := Filter(Filter(ads, q => Live(v, q)), q => Usable(o, v, active, q));
    UsableAre(g, o, v, ads);
    UsableOffers(g, o, v, Standing(o, v));
    if k :| 0 <= k < |usable| && usable[k].peer == o.owner {
      assert usable[k] in usable;
      assert !StandsIn(g, o, v, p);
    } else {
      forall k | 0 <= k < |ads| && Offers(g, o, v, ads[k])
        ensures ads[k].peer != o.owner
      {
        assert ads[k] in usable;
      }
    }
  }

  /** Their ranking. */
  lemma RankedAre(g: Engine, o: GridOptions, v: View, p: Piece)
    ensures var ranked := RankProviders(o, v, ActiveCount(g), ProvidersOf(g, p));
      && |ranked| == Choices(g, o, v, p)
      && (forall q :: q in ranked <==> (q in ProvidersOf(g, p) && Offers(g, o, v, q)) || (StandsIn(g, o, v, p) && q == Standing(o, v)))
      && (ranked != [] ==> Picked(g, o, v, p, ranked[0]))
  {
    hide ProvidersOf, Offers, ActiveCount, Eligible, Choices, Busy, Points, Score, StandsIn;
    var active := ActiveCount(g);
    var before := (a, b) => ProviderBefore(v, active, a, b);
    var eligible := Eligible(o, v, active, ProvidersOf(g, p));
    var ranked := RankProviders(o, v, active, ProvidersOf(g, p));
    EligibleAre(g, o, v, p);
    assert Sorting.Consistent(before) by { ProviderOrderConsistent(v, active); }
    SortSorted(eligible, before);
    SortMembers(eligible, before, Standing(o, v));
    forall q
      ensures q in ranked <==> q in eligible
    {
      SortMembers(eligible, before, q);
    }
    if ranked != [] {
      assert ranked[0] in eligible;
      forall q | q in eligible
        ensures NoWorse(g, v, ranked[0], q)
      {
        assert q in ranked;
        var j :| 0 <= j < |ranked| && ranked[j] == q;
        assert j > 0 ==> !before(ranked[j], ranked[0]);
        UsableOffers(g, o, v, q);
        UsableOffers(g, o, v, ranked[0]);
      }
    }
  }

  // ----- pieces -----

  lemma RarityIsCopies(g: Engine, o: GridOptions, v: View, p: Piece)
    ensures Rarity(o, v, ProvidersOf(g, p)) == Copies(g, o, v, p)
  {
    hide ProvidersOf;
    var ads := ProvidersOf(g, p);
    var live, other, both := (q: Provider) => Live(v, q), (q: Provider) => q.peer != o.owner, (q: Provider) => q.expiresAt > v.now && q.peer != o.owner;
    hide Filter;
    FilterOnce(ads, live);
    FilterTwice(ads, live, other, both);
    assert Passing(ads, both) == set k | 0 <= k < |ads| && ads[k].expiresAt > v.now && ads[k].peer != o.owner;
    assert Passing(ads, live) == set k | 0 <= k < |ads| && ads[k].expiresAt > v.now;
  }

  /** The four keys of an item. */
  lemma KeysAre(g: Engine, o: GridOptions, v: View, p: Piece)
    requires Has(g, p)
    ensures var a := ItemAt(g, p, o, v);
      && a.index == p.index && a.retryCount == StateOf(g, p).retryCount && a.rarity == Copies(g, o, v, p)
      && (HasReceiver(a) <==> ByReceiver(g, o, v, p)) && (a.providers == [] <==> !Servable(g, o, v, p))
      && |a.providers| == Choices(g, o, v, p) && (a.providers != [] ==> Picked(g, o, v, p, a.providers[0]))
  {
    hide Offers, ProvidersOf, Busy, RankProviders, Rarity, Copies, Picked, Choices;
    RarityIsCopies(g, o, v, p);
    RankedAre(g, o, v, p);
    var a := ItemAt(g, p, o, v);
    if HasReceiver(a) {
      var k :| 0 <= k < |a.providers| && !a.providers[k].role.Owner?;
      assert a.providers[k] in a.providers;
    }
    if ByReceiver(g, o, v, p) {
      var k :| 0 <= k < |ProvidersOf(g, p)| && Offers(g, o, v, ProvidersOf(g, p)[k]) && ProvidersOf(g, p)[k].role != Owner;
      assert ProvidersOf(g, p)[k] in a.providers;
    }
    ServedOrNot(g, o, v, p, a.providers);
  }

  lemma ServedOrNot(g: Engine, o: GridOptions, v: View, p: Piece, ranked: seq<Provider>)
    requires forall q :: q in ranked <==> (q in ProvidersOf(g, p) && Offers(g, o, v, q)) || (StandsIn(g, o, v, p) && q == Standing(o, v))
    ensures ranked == [] <==> !Servable(g, o, v, p)
  {
    hide Offers, Busy;
    var ads := ProvidersOf(g, p);
    if ranked == [] {
      forall k | 0 <= k < |ads|
        ensures !Offers(g, o, v, ads[k])
      {
        assert ads[k] !in ranked;
      }
      assert Standing(o, v) !in ranked;
    } else {
      assert ranked[0] in ranked;
    }
  }

  lemma BeforeIsEarlier(g: Engine, o: GridOptions, v: View, p: Piece, q: Piece)
    requires Has(g, p) && Has(g, q)
    ensures ItemBefore(ItemAt(g, p, o, v), ItemAt(g, q, o, v)) <==> Earlier(g, o, v, p, q)
  {
    hide Offers, ProvidersOf, Busy, RankProviders, Rarity, Copies, ByReceiver, HasReceiver, ItemAt, Picked, Servable, Choices;
    KeysAre(g, o, v, p);
    KeysAre(g, o, v, q);
  }

  // ----- the decision -----

  /** A piece that a grid request may be about: missing or failed, not under a lease once those that ran
      out are gone, and either there is somebody to ask or its retries are spent. */
  ghost predicate Considered(e: Engine, g: Engine, file: FileId, o: GridOptions, v: View, i: nat)
    requires file in e.managers
  {
    var p := Piece(file, i);
    && i < |e.managers[file]| && (e.managers[file][i].status == Missing || e.managers[file][i].status == Failed)
    && p !in g.leases && Has(g, p) && (Servable(g, o, v, p) || StateOf(g, p).retryCount > e.cfg.maxRetries)
  }

  lemma ConsideredIs(e: Engine, file: FileId, o: GridOptions, v: View, i: nat)
    requires file in e.managers
    ensures Considered(e, GridReady(e, file, o, v.now), file, o, v, i) <==> Open(e, file, o, v.now, i) && !PassedOver(e, file, o, v, i)
    ensures i < |e.managers[file]| ==> Has(GridReady(e, file, o, v.now), Piece(file, i))
    ensures i < |e.managers[file]| ==> Known(e, file, o, v, i) == ItemAt(GridReady(e, file, o, v.now), Piece(file, i), o, v)
  {
    hide GridReady, Offers, ProvidersOf, Busy, RankProviders, Rarity, Copies, ByReceiver, HasReceiver, Servable, Picked, Choices;
    LeaseExpiryKeepsPieces(e, file, v.now);
    if i < |e.managers[file]| {
      ServedByBest(e, file, o, v, i);
      KeysAre(GridReady(e, file, o, v.now), o, v, Piece(file, i));
    }
  }

  /** Nobody is available exactly when there is no piece to consider. */
  lemma NobodyExactly(e: Engine, file: FileId, o: GridOptions, env: Env)
    requires file in e.managers
    ensures var g, result := GridReady(e, file, o, env.view.now), RequestNextGrid(e, file, o, env).1;
      && (result.NothingMissing? <==> forall i :: 0 <= i < |e.managers[file]| ==> e.managers[file][i].status != Missing && e.managers[file][i].status != Failed)
      && (result.NobodyAvailable? || result.NothingMissing? <==> forall i :: !Considered(e, g, file, o, env.view, i))
  {
    hide GridReady, Considered, PassedOver, RequestNextGrid, Open;
    OpenInRange(e, file, o, env.view.now);
    ConsideredRange(e, GridReady(e, file, o, env.view.now), file, o, env.view);
    forall i: nat | i < |e.managers[file]|
      ensures Considered(e, GridReady(e, file, o, env.view.now), file, o, env.view, i) <==> Open(e, file, o, env.view.now, i) && !PassedOver(e, file, o, env.view, i)
      ensures Open(e, file, o, env.view.now, i) ==> i in MissingPieces(e.managers[file])
    {
      ConsideredIs(e, file, o, env.view, i);
      OpenIsMissing(e, file, o, env.view.now, i);
    }
    MissingAre(e.managers[file]);
    IdleExactly(e, file, o, env);
    if MissingPieces(e.managers[file]) != [] {
      GridRequestMeaning(e, file, o, env);
    }
  }

  lemma MissingAre(s: States)
    ensures MissingPieces(s) == [] <==> forall i :: 0 <= i < |s| ==> s[i].status != Missing && s[i].status != Failed
  {
    forall i | 0 <= i < |s| && (s[i].status == Missing || s[i].status == Failed)
      ensures i in MissingPieces(s)
    {
      assert Wanted(s[i]);
    }
    if MissingPieces(s) != [] {
      assert Wanted(s[MissingPieces(s)[0]]);
    }
  }

  lemma IdleExactly(e: Engine, file: FileId, o: GridOptions, env: Env)
    requires file in e.managers
    ensures RequestNextGrid(e, file, o, env).1.NothingMissing? <==> MissingPieces(e.managers[file]) == []
  {
    hide Choose, GridReady, Record;
  }

  /** What comes of the piece that decides: if its retries are spent, that is reported; if the availability
      table does not list it, no lease can be taken; else it is asked for, of the best provider, under a
      lease that runs from now. */
  ghost predicate Follows(g: Engine, b: Engine, result: GridResult, o: GridOptions, v: View, p: Piece, maxRetries: nat, provider: Provider)
    requires Has(g, p)
  {
    if StateOf(g, p).retryCount > maxRetries then result == RetryLimit(p.index) && b == g
    else if p.file !in g.table || p.index >= |g.table[p.file].providers| then result == LeaseRefused(p.index) && b == g
    else
      var leased := g.(leases := g.leases[p := Lease(provider.peer, |g.issued|, v.now + o.leaseMs)]);
      && Picked(g, o, v, p, provider)
      && result == GridScheduled(p, |g.issued|,
           if provider.role == Owner then OwnerFallback else if Choices(g, o, v, p) == 1 then RarestFirst else FastestPeer)
      && EngineFill.OneMore(leased, b, Request(p, provider.peer, Grid(o)), None)
  }

  /** Otherwise the first piece in the order decides. */
  lemma GridDecision(e: Engine, file: FileId, o: GridOptions, env: Env) returns (i: nat, provider: Provider)
    requires file in e.managers && exists j: nat :: Considered(e, GridReady(e, file, o, env.view.now), file, o, env.view, j)
    ensures var g, v, (b, result) := GridReady(e, file, o, env.view.now), env.view, RequestNextGrid(e, file, o, env);
      var p := Piece(file, i);
      && Considered(e, g, file, o, v, i)
      && (forall j: nat :: Considered(e, g, file, o, v, j) && j != i ==> Earlier(g, o, v, p, Piece(file, j)))
      && Follows(g, b, result, o, v, p, e.cfg.maxRetries, provider)
  {
    hide GridReady, Considered, PassedOver, RequestNextGrid, Open, Earlier, Follows, Known, ItemAt, ItemBefore, Skipped;
    var g, v := GridReady(e, file, o, env.view.now), env.view;
    NobodyExactly(e, file, o, env);
    IdleExactly(e, file, o, env);
    GridRequestMeaning(e, file, o, env);
    var d: nat :| Decides(e, file, o, v, d);
    i := d;
    OpenInRange(e, file, o, v.now);
    ConsideredIs(e, file, o, v, i);
    ConsideredRange(e, g, file, o, v);
    forall j: nat | Considered(e, g, file, o, v, j) && j != i
      ensures Has(g, Piece(file, j)) && Earlier(g, o, v, Piece(file, i), Piece(file, j))
    {
      ConsideredIs(e, file, o, v, j);
      BeforeIsEarlier(g, o, v, Piece(file, i), Piece(file, j));
      OneIsBefore(g, o, v, Piece(file, i), Piece(file, j));
    }
    provider := DecidedOutcome(e, file, o, env, i);
  }

  lemma ConsideredRange(e: Engine, g: Engine, file: FileId, o: GridOptions, v: View)
    requires file in e.managers
    ensures forall j: nat :: Considered(e, g, file, o, v, j) ==> j < |e.managers[file]| && Has(g, Piece(file, j))
  {
  }

  lemma OneIsBefore(g: Engine, o: GridOptions, v: View, p: Piece, q: Piece)
    requires Has(g, p) && Has(g, q) && p.index != q.index
    ensures ItemBefore(ItemAt(g, p, o, v), ItemAt(g, q, o, v)) || ItemBefore(ItemAt(g, q, o, v), ItemAt(g, p, o, v))
  {
    hide HasReceiver, RankProviders, Rarity, ProvidersOf, ActiveCount;
  }

  /** What becomes of the piece that decides. */
  lemma DecidedOutcome(e: Engine, file: FileId, o: GridOptions, env: Env, i: nat) returns (provider: Provider)
    requires file in e.managers && MissingPieces(e.managers[file]) != [] && i < |e.managers[file]| && Decides(e, file, o, env.view, i)
    ensures var g, v, (b, result) := GridReady(e, file, o, env.view.now), env.view, RequestNextGrid(e, file, o, env);
      var p := Piece(file, i);
      && Has(g, p)
      && Follows(g, b, result, o, v, p, e.cfg.maxRetries, provider)
  {
    hide GridReady, GridItems, PassedOver, Open, Picked, Choices, StandsIn, Offers, ProvidersOf, Known, ItemAt, EngineFill.OneMore, ItemBefore, Skipped, StopsAt, Decides, Record, Choose, RequestNextGrid;
    var g, v, items, max := GridReady(e, file, o, env.view.now), env.view, GridItems(e, file, o, env.view), e.cfg.maxRetries;
    var p := Piece(file, i);
    var a := Known(e, file, o, v, i);
    ConsideredIs(e, file, o, v, i);
    KeysAre(g, o, v, p);
    ItemsAreOpen(e, file, o, v);
    DecidesStops(e, file, o, v, i);
    ChoiceIsLeast(items, max);
    ReadyIssued(e, file, o, v.now);
    provider := Standing(o, v);
    if a.retryCount <= max {
      StopHasProvider(items, a, max);
      provider := a.providers[0];
    }
    ChoiceTaken(e, file, o, env);
    if a.retryCount <= max && Listed(g, p) {
      var leased := g.(leases := g.leases[p := Lease(provider.peer, |g.issued|, v.now + o.leaseMs)]);
      EngineFill.Recorded(leased, Request(p, provider.peer, Grid(o)), None);
    }
  }

  /** The request that follows a choice. */
  lemma ChoiceTaken(e: Engine, file: FileId, o: GridOptions, env: Env)
    requires file in e.managers && MissingPieces(e.managers[file]) != []
    ensures var g, c := GridReady(e, file, o, env.view.now), Choose(GridItems(e, file, o, env.view), e.cfg.maxRetries);
      && (c.Exhausted? ==> RequestNextGrid(e, file, o, env) == (g, RetryLimit(c.index)))
      && (c.Scheduled? ==> Has(g, Piece(file, c.index)))
      && (c.Scheduled? && !Listed(g, Piece(file, c.index)) ==> RequestNextGrid(e, file, o, env) == (g, LeaseRefused(c.index)))
      && (c.Scheduled? && Listed(g, Piece(file, c.index)) ==>
            var p := Piece(file, c.index);
            var leased := g.(leases := g.leases[p := Lease(c.provider.peer, |g.issued|, env.view.now + o.leaseMs)]);
            RequestNextGrid(e, file, o, env) ==
              (Record(leased, Request(p, c.provider.peer, Grid(o)), None), GridScheduled(p, |g.issued|, c.reason)))
  {
    hide GridItems, Choose, SameShape, GridReady, Record;
    GridChosen(e, file, o, env.view);
  }
}
