/** What the engine's grid scheduler asks for, and from whom, in terms of the pieces and providers
    themselves: no sorting, no loop. */
module EngineGrid {
  import opened Common
  import opened Pieces
  import opened Availability
  import opened GridChoice
  import opened Engine

  /** A piece the scheduler considers: missing and, once stale leases are gone, unleased. */
  predicate Open(e: Engine, file: FileId, o: GridOptions, now: int, i: nat)
    requires file in e.managers
  {
    i < |e.managers[file]| && Wanted(e.managers[file][i]) && Piece(file, i) !in GridReady(e, file, o, now).leases
  }

  function Known(e: Engine, file: FileId, o: GridOptions, v: View, i: nat): Item
    requires file in e.managers && i < |e.managers[file]|
  {
    var g := GridReady(e, file, o, v.now);
    assert Has(g, Piece(file, i)) by { LeaseExpiryKeepsPieces(e, file, v.now); }
    ItemAt(g, Piece(file, i), o, v)
  }

  /** Nobody who may be asked can take another request: neither the owner nor a live, connected candidate. */
  ghost predicate Unservable(e: Engine, file: FileId, o: GridOptions, v: View, i: nat) {
    var g := GridReady(e, file, o, v.now);
    && !HasCapacity(o, ActiveCount(g), o.owner)
    && forall q :: q in ProvidersOf(g, Piece(file, i)) ==> !(Live(v, q) && Usable(o, v, ActiveCount(g), q))
  }

  /** The search passes over a piece that has retries left but nobody to ask. */
  ghost predicate PassedOver(e: Engine, file: FileId, o: GridOptions, v: View, i: nat)
    requires file in e.managers && i < |e.managers[file]|
  {
    Known(e, file, o, v, i).retryCount <= e.cfg.maxRetries && Unservable(e, file, o, v, i)
  }

  /** The piece that decides: the least one, in the order receiver available, rarity, retries, index,
      that is not passed over. */
  ghost predicate Decides(e: Engine, file: FileId, o: GridOptions, v: View, i: nat)
    requires file in e.managers
  {
    && Open(e, file, o, v.now, i) && !PassedOver(e, file, o, v, i)
    && forall j :: Open(e, file, o, v.now, j) && ItemBefore(Known(e, file, o, v, j), Known(e, file, o, v, i)) ==>
         PassedOver(e, file, o, v, j)
  }

  /** The peer asked for piece `i` has capacity, is the owner or an eligible provider, and no eligible
      provider scores higher, the owner counting five points less. */
  ghost predicate BestFor(e: Engine, file: FileId, o: GridOptions, v: View, i: nat, provider: Provider) {
    var g := GridReady(e, file, o, v.now);
    var advertised, active := ProvidersOf(g, Piece(file, i)), ActiveCount(g);
    && HasCapacity(o, active, provider.peer)
    && (provider.peer == o.owner || (provider in advertised && Live(v, provider) && Usable(o, v, active, provider)))
    && forall q :: q in advertised && Live(v, q) && Usable(o, v, active, q) ==> Score(v, q) <= Score(v, provider)
  }

  // ----- from lists to pieces -----

  lemma ItemsAreOpen(e: Engine, file: FileId, o: GridOptions, v: View)
    requires file in e.managers
    ensures var items := GridItems(e, file, o, v);
      && DistinctIndices(items)
      && (forall a :: a in items ==> Open(e, file, o, v.now, a.index) && a == Known(e, file, o, v, a.index))
      && (forall i :: Open(e, file, o, v.now, i) ==> Known(e, file, o, v, i) in items)
  {
    hide RankProviders, Rarity, ProvidersOf, ActiveCount, GridReady;
    var g, missing := GridReady(e, file, o, v.now), MissingPieces(e.managers[file]);
    LeaseExpiryKeepsPieces(e, file, v.now);
    ItemsDistinct(g, file, missing, o, v);
    forall i | Open(e, file, o, v.now, i)
      ensures Known(e, file, o, v, i) in GridItems(e, file, o, v)
    {
      ItemsComplete(g, file, missing, o, v, i);
    }
  }

  lemma ServedByBest(e: Engine, file: FileId, o: GridOptions, v: View, i: nat)
    requires file in e.managers && i < |e.managers[file]|
    ensures var a := Known(e, file, o, v, i);
      && a.index == i
      && (a.providers == [] <==> Unservable(e, file, o, v, i))
      && (a.providers != [] ==> BestFor(e, file, o, v, i, a.providers[0]))
      && (Skipped(a, e.cfg.maxRetries) <==> PassedOver(e, file, o, v, i))
  {
    hide GridReady, RankProviders;
    var g := GridReady(e, file, o, v.now);
    BestProvider(o, v, ActiveCount(g), ProvidersOf(g, Piece(file, i)));
  }

  lemma DecidesStops(e: Engine, file: FileId, o: GridOptions, v: View, i: nat)
    requires file in e.managers && i < |e.managers[file]|
    ensures Decides(e, file, o, v, i) <==> StopsAt(GridItems(e, file, o, v), Known(e, file, o, v, i), e.cfg.maxRetries)
  {
    hide Known, GridItems, PassedOver, Skipped, Open, ItemBefore;
    var items, max := GridItems(e, file, o, v), e.cfg.maxRetries;
    ItemsAreOpen(e, file, o, v);
    ServedByBest(e, file, o, v, i);
    assert forall j: nat :: Open(e, file, o, v.now, j) ==> j < |e.managers[file]| by { OpenInRange(e, file, o, v.now); }
    forall j | Open(e, file, o, v.now, j)
      ensures Skipped(Known(e, file, o, v, j), max) <==> PassedOver(e, file, o, v, j)
    {
      ServedByBest(e, file, o, v, j);
    }
    if StopsAt(items, Known(e, file, o, v, i), max) {
      assert Open(e, file, o, v.now, i);
    }
  }

  lemma OpenInRange(e: Engine, file: FileId, o: GridOptions, now: int)
    requires file in e.managers
    ensures forall j: nat :: Open(e, file, o, now, j) ==> j < |e.managers[file]|
  {
  }

  /** What the scheduled request is. */
  ghost predicate AskedFor(e: Engine, file: FileId, o: GridOptions, env: Env, i: nat, provider: Provider) {
    var (b, result) := RequestNextGrid(e, file, o, env);
    && result.GridScheduled? && result.piece == Piece(file, i) && result.id == |e.issued|
    && b.issued == e.issued + [Issue(Request(Piece(file, i), provider.peer, Grid(o)), None)]
    && result.id in b.outstanding && b.outstanding[result.id] == b.issued[result.id].request
    && Piece(file, i) in b.leases && b.leases[Piece(file, i)] == Lease(provider.peer, |e.issued|, env.view.now + o.leaseMs)
    && Has(b, Piece(file, i)) && StateOf(b, Piece(file, i)).status.Requested?
  }

  lemma AskedOnSchedule(e: Engine, file: FileId, o: GridOptions, env: Env)
    requires file in e.managers && MissingPieces(e.managers[file]) != []
    ensures var c := Choose(GridItems(e, file, o, env.view), e.cfg.maxRetries);
      && (c.NoAvailablePeer? <==> RequestNextGrid(e, file, o, env).1.NobodyAvailable?)
      && (c.Exhausted? ==> RequestNextGrid(e, file, o, env).1 == RetryLimit(c.index))
      && (c.Scheduled? ==>
            if Listed(GridReady(e, file, o, env.view.now), Piece(file, c.index)) then AskedFor(e, file, o, env, c.index, c.provider)
            else RequestNextGrid(e, file, o, env).1 == LeaseRefused(c.index))
  {
    hide GridItems, Choose, SameShape;
    ReadyIssued(e, file, o, env.view.now);
    hide GridReady;
    GridChosen(e, file, o, env.view);
  }

  lemma ReadyIssued(e: Engine, file: FileId, o: GridOptions, now: int)
    ensures GridReady(e, file, o, now).issued == e.issued
  {
    hide Update;
  }

  /** The outcome of `requestNextGridPiece` for a file that still misses pieces. Nobody is available
      exactly when every open piece is passed over. Otherwise one piece decides: if it has spent its
      retries the file is exhausted, if the availability table does not list it no lease can be taken,
      and if neither it is asked for, from a best provider. */
  lemma GridRequestMeaning(e: Engine, file: FileId, o: GridOptions, env: Env)
    requires file in e.managers && MissingPieces(e.managers[file]) != []
    ensures var result := RequestNextGrid(e, file, o, env).1;
      && (result.NobodyAvailable? <==> forall i :: Open(e, file, o, env.view.now, i) ==> PassedOver(e, file, o, env.view, i))
      && (!result.NobodyAvailable? ==> exists i :: Decides(e, file, o, env.view, i))
      && forall i :: Decides(e, file, o, env.view, i) ==>
           if Known(e, file, o, env.view, i).retryCount > e.cfg.maxRetries then result == RetryLimit(i)
           else if !Listed(GridReady(e, file, o, env.view.now), Piece(file, i)) then result == LeaseRefused(i)
           else exists provider ::
             AskedFor(e, file, o, env, i, provider) && BestFor(e, file, o, env.view, i, provider)
  {
    hide Known, GridItems, PassedOver, Open, ItemBefore, RequestNextGrid, Choose, StopsAt, Decides, AskedFor, BestFor, Skipped;
    var v, items, max := env.view, GridItems(e, file, o, env.view), e.cfg.maxRetries;
    ItemsAreOpen(e, file, o, v);
    OpenInRange(e, file, o, v.now);
    ChoiceIsLeast(items, max);
    AskedOnSchedule(e, file, o, env);
    forall j | Open(e, file, o, v.now, j)
      ensures Skipped(Known(e, file, o, v, j), max) <==> PassedOver(e, file, o, v, j)
    {
      ServedByBest(e, file, o, v, j);
    }
    if exists best :: StopsAt(items, best, max) {
      var best :| StopsAt(items, best, max);
      StopIsItem(items, best, max);
      DecidesStops(e, file, o, v, best.index);
    }
    assert forall i: nat :: Decides(e, file, o, v, i) ==> i < |e.managers[file]| by { DecidersInRange(e, file, o, v); }
    forall i: nat | i < |e.managers[file]| && Decides(e, file, o, v, i)
      ensures if Known(e, file, o, v, i).retryCount > max then RequestNextGrid(e, file, o, env).1 == RetryLimit(i)
              else if !Listed(GridReady(e, file, o, v.now), Piece(file, i)) then RequestNextGrid(e, file, o, env).1 == LeaseRefused(i)
              else exists provider :: AskedFor(e, file, o, env, i, provider) && BestFor(e, file, o, v, i, provider)
    {
      DecidesStops(e, file, o, v, i);
      ServedByBest(e, file, o, v, i);
      if Known(e, file, o, v, i).retryCount <= max {
        StopHasProvider(items, Known(e, file, o, v, i), max);
      }
    }
  }

  lemma DecidersInRange(e: Engine, file: FileId, o: GridOptions, v: View)
    requires file in e.managers
    ensures forall i: nat :: Decides(e, file, o, v, i) ==> i < |e.managers[file]|
  {
  }

  lemma StopIsItem(items: seq<Item>, best: Item, max: nat)
    requires StopsAt(items, best, max)
    ensures best in items
  {
  }

  lemma StopHasProvider(items: seq<Item>, best: Item, max: nat)
    requires StopsAt(items, best, max) && best.retryCount <= max
    ensures best.providers != []
  {
  }

  /** The piece that decides has retries left, and the availability table lists it. */
  ghost predicate Askable(e: Engine, file: FileId, o: GridOptions, env: Env, i: nat)
    requires file in e.managers
  {
    && i < |e.managers[file]| && Decides(e, file, o, env.view, i)
    && Known(e, file, o, env.view, i).retryCount <= e.cfg.maxRetries
    && Listed(GridReady(e, file, o, env.view.now), Piece(file, i))
  }

  /** The guard of a scheduling attempt. */
  ghost predicate WouldSchedule(e: Engine, file: FileId, o: GridOptions, env: Env) {
    file in e.managers && exists i: nat :: Askable(e, file, o, env, i)
  }

  lemma DeciderDecides(e: Engine, file: FileId, o: GridOptions, env: Env, i: nat)
    requires file in e.managers && MissingPieces(e.managers[file]) != [] && Decides(e, file, o, env.view, i)
    ensures RequestNextGrid(e, file, o, env).1.GridScheduled? <==> Askable(e, file, o, env, i)
  {
    hide RequestNextGrid, Known, Decides, GridReady, AskedFor, BestFor, PassedOver, Open;
    DecidersInRange(e, file, o, env.view);
    GridRequestMeaning(e, file, o, env);
    AskedIsScheduled(e, file, o, env);
  }

  /** An attempt schedules exactly when its guard holds. */
  lemma SchedulesExactly(e: Engine, file: FileId, o: GridOptions, env: Env)
    ensures RequestNextGrid(e, file, o, env).1.GridScheduled? <==> WouldSchedule(e, file, o, env)
  {
    if file in e.managers {
      if MissingPieces(e.managers[file]) == [] {
        CompleteIsIdle(e, file, o, env);
        NothingDecides(e, file, o, env.view);
      } else {
        hide RequestNextGrid, Decides, Known, GridReady, PassedOver, Open;
        GridRequestMeaning(e, file, o, env);
        if i: nat :| Decides(e, file, o, env.view, i) {
          DeciderDecides(e, file, o, env, i);
          if j: nat :| Askable(e, file, o, env, j) {
            DeciderDecides(e, file, o, env, j);
          }
        } else {
          assert RequestNextGrid(e, file, o, env).1.NobodyAvailable?;
        }
      }
    } else {
      hide Choose;
    }
  }

  lemma CompleteIsIdle(e: Engine, file: FileId, o: GridOptions, env: Env)
    requires file in e.managers && MissingPieces(e.managers[file]) == []
    ensures RequestNextGrid(e, file, o, env).1 == NothingMissing
  {
  }

  lemma NothingDecides(e: Engine, file: FileId, o: GridOptions, v: View)
    requires file in e.managers && MissingPieces(e.managers[file]) == []
    ensures forall i: nat :: !Decides(e, file, o, v, i)
  {
    hide GridReady, Known, PassedOver;
    forall i: nat
      ensures !Open(e, file, o, v.now, i)
    {
      OpenIsMissing(e, file, o, v.now, i);
    }
  }

  lemma OpenIsMissing(e: Engine, file: FileId, o: GridOptions, now: int, i: nat)
    requires file in e.managers
    ensures Open(e, file, o, now, i) ==> i in MissingPieces(e.managers[file])
  {
    hide GridReady;
  }

  lemma AskedIsScheduled(e: Engine, file: FileId, o: GridOptions, env: Env)
    ensures forall i, provider :: AskedFor(e, file, o, env, i, provider) ==> RequestNextGrid(e, file, o, env).1.GridScheduled?
  {
  }
}
