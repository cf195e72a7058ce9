/** Stable sorting by a comparator, as `Array.prototype.sort` promises it. */
module Sorting {
  import opened Common

  /** `before` is a strict weak order: what a consistent comparator gives. */
  ghost predicate Consistent<T(!new)>(before: (T, T) -> bool) {
    && (forall x, y :: before(x, y) ==> !before(y, x))
    && (forall x, y, z :: !before(x, y) && !before(y, z) ==> !before(x, z))
  }

  function Insert<T>(x: T, s: seq<T>, before: (T, T) -> bool): (r: seq<T>)
    ensures multiset(r) == multiset(s) + multiset{x}
  {
    if s == [] then [x]
    else
      var n := |s| - 1;
      assert s == s[..n] + [s[n]];
      if before(x, s[n]) then Insert(x, s[..n], before) + [s[n]] else s + [x]
  }

  function Sort<T>(s: seq<T>, before: (T, T) -> bool): (r: seq<T>)
    ensures multiset(r) == multiset(s)
  {
    if s == [] then []
    else
      var n := |s| - 1;
      assert s == s[..n] + [s[n]];
      Insert(s[n], Sort(s[..n], before), before)
  }

  ghost predicate Sorted<T>(s: seq<T>, before: (T, T) -> bool) {
    forall i, j :: 0 <= i < j < |s| ==> !before(s[j], s[i])
  }

  lemma {:induction false} InsertSorted<T(!new)>(x: T, s: seq<T>, before: (T, T) -> bool)
    requires Consistent(before) && Sorted(s, before)
    ensures Sorted(Insert(x, s, before), before)
  {
    if s != [] {
      var n := |s| - 1;
      if before(x, s[n]) {
        InsertSorted(x, s[..n], before);
        var r := Insert(x, s[..n], before);
        forall i | 0 <= i < |r|
          ensures !before(s[n], r[i])
        {
          assert r[i] in multiset(r);
          assert r[i] == x || r[i] in s[..n];
        }
      }
    }
  }

  lemma {:induction false} SortSorted<T(!new)>(s: seq<T>, before: (T, T) -> bool)
    requires Consistent(before)
    ensures Sorted(Sort(s, before), before)
  {
    if s != [] {
      var n := |s| - 1;
      SortSorted(s[..n], before);
      InsertSorted(s[n], Sort(s[..n], before), before);
    }
  }

  lemma SortMembers<T>(s: seq<T>, before: (T, T) -> bool, x: T)
    ensures x in Sort(s, before) <==> x in s
    ensures |Sort(s, before)| == |s|
  {
    assert x in Sort(s, before) <==> x in multiset(Sort(s, before));
    assert |multiset(Sort(s, before))| == |Sort(s, before)|;
    assert |multiset(s)| == |s|;
  }

  /** What comes strictly before a sorted element stands to its left. */
  lemma BeforeIsLeft<T(!new)>(s: seq<T>, before: (T, T) -> bool, a: T, k: nat) returns (j: nat)
    requires Consistent(before) && a in s && k < |Sort(s, before)| && before(a, Sort(s, before)[k])
    ensures j < k < |Sort(s, before)| && Sort(s, before)[j] == a
  {
    SortSorted(s, before);
    SortMembers(s, before, a);
    j :| 0 <= j < |Sort(s, before)| && Sort(s, before)[j] == a;
  }
}

/** Which piece to ask for next, and whom: `requestNextGridPiece` and `rankProviders`. */
module GridChoice {
  import opened Common
  import opened Availability
  import opened Sorting

  /** The clock, and what the peer-health table says, when a request is scheduled. */
  datatype View = View(now: int, score: PeerId -> real, connected: PeerId -> bool)

  datatype GridOptions = GridOptions(owner: PeerId, candidates: set<PeerId>, maxRequestsPerPeer: nat, leaseMs: int)

  datatype Item = Item(index: nat, retryCount: nat, providers: seq<Provider>, rarity: nat)

  datatype Reason = OwnerFallback | RarestFirst | FastestPeer

  datatype Choice = Scheduled(index: nat, provider: Provider, reason: Reason) | Exhausted(index: nat) | NoAvailablePeer

  function Filter<T>(s: seq<T>, keep: T -> bool): (r: seq<T>)
    ensures forall x :: x in r ==> x in s && keep(x)
    ensures forall x :: x in s && keep(x) ==> x in r
  {
    if s == [] then []
    else
      var n := |s| - 1;
      assert s == s[..n] + [s[n]];
      if keep(s[n]) then Filter(s[..n], keep) + [s[n]] else Filter(s[..n], keep)
  }

  predicate Live(v: View, p: Provider) {
    p.expiresAt > v.now
  }

  predicate HasCapacity(o: GridOptions, active: PeerId -> nat, peer: PeerId) {
    active(peer) < o.maxRequestsPerPeer
  }

  predicate Usable(o: GridOptions, v: View, active: PeerId -> nat, p: Provider) {
    (p.peer in o.candidates || p.peer == o.owner) && v.connected(p.peer) && HasCapacity(o, active, p.peer)
  }

  /** Providers that may be asked; the owner steps in when it has capacity and is not yet among them. */
  function Eligible(o: GridOptions, v: View, active: PeerId -> nat, advertised: seq<Provider>): seq<Provider> {
    var usable := Filter(Filter(advertised, p => Live(v, p)), p => Usable(o, v, active, p));
    if (exists k :: 0 <= k < |usable| && usable[k].peer == o.owner) || !HasCapacity(o, active, o.owner) then usable
    else usable + [Provider(o.owner, Owner, v.now, v.now + 30_000)]
  }

  function Score(v: View, p: Provider): real {
    v.score(p.peer) + if p.role.Owner? then -5.0 else 0.0
  }

  predicate ProviderBefore(v: View, active: PeerId -> nat, a: Provider, b: Provider) {
    Score(v, a) > Score(v, b) || (Score(v, a) == Score(v, b) && active(a.peer) < active(b.peer))
  }

  function RankProviders(o: GridOptions, v: View, active: PeerId -> nat, advertised: seq<Provider>): seq<Provider> {
    Sort(Eligible(o, v, active, advertised), (a, b) => ProviderBefore(v, active, a, b))
  }

  /** Advertised copies apart from the owner's, or the owner's alone when there is no other. */
  function Rarity(o: GridOptions, v: View, advertised: seq<Provider>): nat {
    var live := Filter(advertised, p => Live(v, p));
    var others := Filter(live, (p: Provider) => p.peer != o.owner);
    if |others| > 0 then |others| else |live|
  }

  function ItemFor(o: GridOptions, v: View, active: PeerId -> nat, index: nat, retryCount: nat, advertised: seq<Provider>): Item {
    Item(index, retryCount, RankProviders(o, v, active, advertised), Rarity(o, v, advertised))
  }

  predicate HasReceiver(a: Item) {
    exists k :: 0 <= k < |a.providers| && !a.providers[k].role.Owner?
  }

  /** Receiver available first, then rarer, then fewer retries, then lower index. */
  predicate ItemBefore(a: Item, b: Item) {
    if HasReceiver(a) != HasReceiver(b) then HasReceiver(a)
    else if a.rarity != b.rarity then a.rarity < b.rarity
    else if a.retryCount != b.retryCount then a.retryCount < b.retryCount
    else a.index < b.index
  }

  function ReasonFor(item: Item): Reason
    requires item.providers != []
  {
    if item.providers[0].role.Owner? then OwnerFallback
    else if |item.providers| == 1 then RarestFirst
    else FastestPeer
  }

  /** The loop over ranked pieces: stop at a spent piece, skip a piece nobody can serve. */
  function FirstChoice(ranked: seq<Item>, maxRetries: nat): Choice {
    if ranked == [] then NoAvailablePeer
    else if ranked[0].retryCount > maxRetries then Exhausted(ranked[0].index)
    else if ranked[0].providers == [] then FirstChoice(ranked[1..], maxRetries)
    else Scheduled(ranked[0].index, ranked[0].providers[0], ReasonFor(ranked[0]))
  }

  /** `items` are the unleased missing pieces. */
  function Choose(items: seq<Item>, maxRetries: nat): Choice {
    FirstChoice(Sort(items, ItemBefore), maxRetries)
  }

  method ChooseRanked(ranked: seq<Item>, maxRetries: nat) returns (c: Choice)
    ensures c == FirstChoice(ranked, maxRetries)
  {
    for k := 0 to |ranked|
      invariant FirstChoice(ranked, maxRetries) == FirstChoice(ranked[k..], maxRetries)
    {
      if ranked[k].retryCount > maxRetries {
        return Exhausted(ranked[k].index);
      }
      if ranked[k].providers != [] {
        return Scheduled(ranked[k].index, ranked[k].providers[0], ReasonFor(ranked[k]));
      }
    }
    c := NoAvailablePeer;
  }

  // ----- what the choice means -----

  /** A piece the loop passes over. */
  predicate Skipped(a: Item, maxRetries: nat) {
    a.retryCount <= maxRetries && a.providers == []
  }

  lemma ItemOrderConsistent()
    ensures Sorting.Consistent(ItemBefore)
  {
  }

  lemma ProviderOrderConsistent(v: View, active: PeerId -> nat)
    ensures Sorting.Consistent((a, b) => ProviderBefore(v, active, a, b))
  {
  }

  /** Where the loop stops, everything before it was passed over. */
  lemma {:induction false} FirstStop(ranked: seq<Item>, maxRetries: nat) returns (k: nat)
    ensures k <= |ranked|
    ensures forall j :: 0 <= j < k ==> Skipped(ranked[j], maxRetries)
    ensures k < |ranked| ==> !Skipped(ranked[k], maxRetries)
    ensures FirstChoice(ranked, maxRetries) ==
      if k == |ranked| then NoAvailablePeer
      else if ranked[k].retryCount > maxRetries then Exhausted(ranked[k].index)
      else Scheduled(ranked[k].index, ranked[k].providers[0], ReasonFor(ranked[k]))
  {
    if ranked != [] && Skipped(ranked[0], maxRetries) {
      var rest := FirstStop(ranked[1..], maxRetries);
      k := rest + 1;
      assert forall j :: 1 <= j < k ==> ranked[j] == ranked[1..][j - 1];
    } else {
      k := 0;
    }
  }

  ghost predicate DistinctIndices(items: seq<Item>) {
    forall i, j :: 0 <= i < j < |items| ==> items[i].index != items[j].index
  }

  /** `best` is where the scheduler must stop: every unleased missing piece ranked before it can be
      served by nobody and still has retries left. */
  ghost predicate StopsAt(items: seq<Item>, best: Item, maxRetries: nat) {
    && best in items && !Skipped(best, maxRetries)
    && forall a :: a in items && ItemBefore(a, best) ==> Skipped(a, maxRetries)
  }

  lemma StopIsUnique(items: seq<Item>, a: Item, b: Item, maxRetries: nat)
    requires DistinctIndices(items) && StopsAt(items, a, maxRetries) && StopsAt(items, b, maxRetries)
    ensures a == b
  {
    var i :| 0 <= i < |items| && items[i] == a;
    var j :| 0 <= j < |items| && items[j] == b;
    assert !ItemBefore(a, b) && !ItemBefore(b, a);
    assert i == j;
  }

  /** Where the loop over the sorted pieces stops is the least piece not passed over. */
  lemma LoopStopsAt(items: seq<Item>, maxRetries: nat, k: nat)
    requires var ranked := Sort(items, ItemBefore);
      && k < |ranked| && !Skipped(ranked[k], maxRetries)
      && forall j :: 0 <= j < k ==> Skipped(ranked[j], maxRetries)
    ensures StopsAt(items, Sort(items, ItemBefore)[k], maxRetries)
  {
    var ranked := Sort(items, ItemBefore);
    SortMembers(items, ItemBefore, ranked[k]);
    forall a | a in items && ItemBefore(a, ranked[k])
      ensures Skipped(a, maxRetries)
    {
      assert Sorting.Consistent(ItemBefore) by { ItemOrderConsistent(); }
      var j := BeforeIsLeft(items, ItemBefore, a, k);
    }
  }

  /** The outcome, characterised without sorting: nobody is available exactly when every piece is
      passed over; otherwise the least piece not passed over decides, and a spent one ends the search. */
  lemma ChoiceIsLeast(items: seq<Item>, maxRetries: nat)
    requires DistinctIndices(items)
    ensures Choose(items, maxRetries).NoAvailablePeer? <==> forall a :: a in items ==> Skipped(a, maxRetries)
    ensures !Choose(items, maxRetries).NoAvailablePeer? ==> exists best :: StopsAt(items, best, maxRetries)
    ensures forall best :: StopsAt(items, best, maxRetries) ==>
      Choose(items, maxRetries) ==
        if best.retryCount > maxRetries then Exhausted(best.index)
        else Scheduled(best.index, best.providers[0], ReasonFor(best))
  {
    var ranked := Sort(items, ItemBefore);
    var k := FirstStop(ranked, maxRetries);
    if k < |ranked| {
      LoopStopsAt(items, maxRetries, k);
      forall best | StopsAt(items, best, maxRetries)
        ensures best == ranked[k]
      {
        StopIsUnique(items, best, ranked[k], maxRetries);
      }
    } else {
      forall a | a in items
        ensures Skipped(a, maxRetries)
      {
        SortMembers(items, ItemBefore, a);
      }
    }
  }

  /** The item behind a scheduled choice. */
  lemma ScheduledItem(items: seq<Item>, maxRetries: nat) returns (best: Item)
    requires Choose(items, maxRetries).Scheduled?
    ensures best in items && best.retryCount <= maxRetries && best.providers != []
    ensures Choose(items, maxRetries) == Scheduled(best.index, best.providers[0], ReasonFor(best))
  {
    var ranked := Sort(items, ItemBefore);
    var k := FirstStop(ranked, maxRetries);
    best := ranked[k];
    SortMembers(items, ItemBefore, best);
  }

  /** The provider asked is eligible and no eligible one scores higher, the owner counting five points
      less; a piece has no provider exactly when nobody is eligible, the owner included. */
  lemma BestProvider(o: GridOptions, v: View, active: PeerId -> nat, advertised: seq<Provider>)
    ensures var ranked := RankProviders(o, v, active, advertised);
      && (ranked != [] ==>
          && HasCapacity(o, active, ranked[0].peer)
          && (ranked[0].peer == o.owner || (ranked[0] in advertised && Live(v, ranked[0]) && Usable(o, v, active, ranked[0])))
          && (forall p :: p in advertised && Live(v, p) && Usable(o, v, active, p) ==> Score(v, p) <= Score(v, ranked[0])))
      && (ranked == [] <==>
          !HasCapacity(o, active, o.owner) && forall p :: p in advertised ==> !(Live(v, p) && Usable(o, v, active, p)))
  {
    var before := (a, b) => ProviderBefore(v, active, a, b);
    var eligible := Eligible(o, v, active, advertised);
    var ranked := Sort(eligible, before);
    ProviderOrderConsistent(v, active);
    SortSorted(eligible, before);
    forall p
      ensures p in ranked <==> p in eligible
      ensures |ranked| == |eligible|
    {
      SortMembers(eligible, before, p);
    }
    if ranked != [] {
      assert ranked[0] in eligible;
      forall p | p in eligible
        ensures Score(v, p) <= Score(v, ranked[0])
      {
        var j :| 0 <= j < |ranked| && ranked[j] == p;
        assert j > 0 ==> !before(ranked[j], ranked[0]);
      }
    }
  }
}
