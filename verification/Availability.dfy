/** Who holds which piece: the replicated index fed by PIECE_MAP broadcasts, and the request leases. */
module Availability {
  import opened Common
  import opened Pieces

  datatype Role = Owner | Receiver | Relay

  datatype Provider = Provider(peer: PeerId, role: Role, advertisedAt: int, expiresAt: int)

  /** A PIECE_MAP message; its numbers come off the wire unchecked. */
  datatype PieceMap = PieceMap(file: FileId, verified: seq<int>, total: int, generation: int, updatedAt: int)

  datatype Lease = Lease(peer: PeerId, id: RequestId, expiresAt: int)

  /** Providers are listed per piece in the order in which they were recorded. */
  datatype FileTable = FileTable(generations: map<PeerId, int>, providers: seq<seq<Provider>>)

  type Table = map<FileId, FileTable>

  datatype Outcome = Applied | Stale | InvalidMap | CountMismatch

  predicate ValidBroadcast(m: PieceMap) {
    && m.total >= 0
    && (forall k :: 0 <= k < |m.verified| ==> 0 <= m.verified[k] < m.total)
    && (forall k :: 0 < k < |m.verified| ==> m.verified[k - 1] < m.verified[k])
  }

  function ProviderFor(peer: PeerId, role: Role, m: PieceMap): Provider {
    Provider(peer, role, m.updatedAt, m.updatedAt + 30_000)
  }

  function Without(list: seq<Provider>, peer: PeerId): (r: seq<Provider>)
    ensures forall p :: p in r <==> p in list && p.peer != peer
  {
    if list == [] then []
    else
      var n := |list| - 1;
      assert forall p :: p in list <==> p in list[..n] || p == list[n];
      if list[n].peer == peer then Without(list[..n], peer) else Without(list[..n], peer) + [list[n]]
  }

  function NewFile(total: nat): FileTable {
    FileTable(map[], seq(total, _ => []))
  }

  function EnsureFile(t: Table, m: PieceMap): FileTable
    requires m.total >= 0
  {
    if m.file in t then t[m.file] else NewFile(m.total)
  }

  /** Per piece: whatever the peer advertised before goes, and the listed pieces gain an entry. */
  function Readvertise(providers: seq<seq<Provider>>, peer: PeerId, role: Role, m: PieceMap): (r: seq<seq<Provider>>)
    ensures |r| == |providers|
    ensures forall i, p :: 0 <= i < |r| ==> (p in r[i] <==>
              if p.peer == peer then i in m.verified && p == ProviderFor(peer, role, m) else p in providers[i])
  {
    seq(|providers|, i requires 0 <= i < |providers| =>
      Without(providers[i], peer) + if i in m.verified then [ProviderFor(peer, role, m)] else [])
  }

  /** `updatePeerPieceMap`: refuse, ignore as out of date, or replace everything the peer advertised. */
  function Update(t: Table, peer: PeerId, role: Role, m: PieceMap): (Table, Outcome) {
    if !ValidBroadcast(m) then (t, InvalidMap)
    else
      var f := EnsureFile(t, m);
      if |f.providers| != m.total then (t, CountMismatch)
      else if peer in f.generations && m.generation <= f.generations[peer] then (t, Stale)
      else
        (t[m.file := FileTable(
            f.generations[peer := m.generation],
            Readvertise(f.providers, peer, role, m))],
         Applied)
  }

  // ----- convergence -----

  datatype Delivery = Delivery(peer: PeerId, m: PieceMap)

  /** Delivering broadcasts in the given order to an empty table. */
  function DeliverAll(roleOf: PeerId -> Role, ds: seq<Delivery>): Table {
    if ds == [] then map[]
    else
      var d := ds[|ds| - 1];
      Update(DeliverAll(roleOf, ds[..|ds| - 1]), d.peer, roleOf(d.peer), d.m).0
  }

  /** A file's piece count is that of the first well-formed map delivered for it, whoever sent it. */
  function FirstTotal(ds: seq<Delivery>, f: FileId): Option<int> {
    if ds == [] then None
    else
      var d, first := ds[|ds| - 1], FirstTotal(ds[..|ds| - 1], f);
      if first.None? && d.m.file == f && ValidBroadcast(d.m) then Some(d.m.total) else first
  }

  /** A delivery that the table takes into account: well-formed, and of the file's piece count. */
  predicate Counts(ds: seq<Delivery>, d: Delivery) {
    ValidBroadcast(d.m) && FirstTotal(ds, d.m.file) == Some(d.m.total)
  }

  /** The first map of `peer` for `f` with the highest generation among those taken into account. */
  function Best(ds: seq<Delivery>, peer: PeerId, f: FileId): Option<PieceMap> {
    if ds == [] then None
    else
      var d, best := ds[|ds| - 1], Best(ds[..|ds| - 1], peer, f);
      if d.peer == peer && d.m.file == f && Counts(ds, d) && (best.None? || d.m.generation > best.value.generation)
      then Some(d.m) else best
  }

  predicate Advertised(t: Table, f: FileId, i: nat, p: Provider) {
    f in t && i < |t[f].providers| && p in t[f].providers[i]
  }

  /** Each file's piece count is its first, and each peer's recorded generation is that of its best map. */
  ghost predicate GenerationsIndexed(t: Table, ds: seq<Delivery>) {
    && (forall f :: FirstTotal(ds, f).Some? <==> f in t)
    && (forall f :: f in t ==> |t[f].providers| == FirstTotal(ds, f).value)
    && (forall f, q :: Best(ds, q, f).Some? <==> f in t && q in t[f].generations)
    && (forall f, q :: Best(ds, q, f).Some? ==> t[f].generations[q] == Best(ds, q, f).value.generation)
  }

  predicate BestSays(ds: seq<Delivery>, roleOf: PeerId -> Role, f: FileId, i: nat, p: Provider) {
    && Best(ds, p.peer, f).Some? && i in Best(ds, p.peer, f).value.verified
    && p == ProviderFor(p.peer, roleOf(p.peer), Best(ds, p.peer, f).value)
  }

  /** The provider lists are the inverted index of each peer's best map, with one entry per peer. */
  ghost predicate InvertedIndex(t: Table, roleOf: PeerId -> Role, ds: seq<Delivery>) {
    && (forall f, i: nat, p :: Advertised(t, f, i, p) <==> BestSays(ds, roleOf, f, i, p))
    && (forall f, i: nat :: f in t && i < |t[f].providers| ==> OnePerPeer(t[f].providers[i]))
  }

  ghost predicate OnePerPeer(list: seq<Provider>) {
    forall j, k :: 0 <= j < k < |list| ==> list[j].peer != list[k].peer
  }

  lemma {:induction false} WithoutKeepsOnePerPeer(list: seq<Provider>, peer: PeerId)
    requires OnePerPeer(list)
    ensures OnePerPeer(Without(list, peer))
  {
    if list != [] {
      var n := |list| - 1;
      WithoutKeepsOnePerPeer(list[..n], peer);
      var r := Without(list[..n], peer);
      forall j | 0 <= j < |r|
        ensures r[j].peer != list[n].peer
      {
        assert r[j] in list[..n];
      }
    }
  }

  /** The first total never changes once there is one. */
  lemma FirstTotalSnoc(ds: seq<Delivery>, d: Delivery, f: FileId)
    ensures FirstTotal(ds + [d], f) ==
      if FirstTotal(ds, f).None? && d.m.file == f && ValidBroadcast(d.m) then Some(d.m.total) else FirstTotal(ds, f)
  {
    assert (ds + [d])[..|ds|] == ds;
  }

  lemma BestSnoc(ds: seq<Delivery>, d: Delivery, peer: PeerId, f: FileId)
    ensures Best(ds + [d], peer, f) ==
      var best := Best(ds, peer, f);
      if d.peer == peer && d.m.file == f && Counts(ds + [d], d) && (best.None? || d.m.generation > best.value.generation)
      then Some(d.m) else best
  {
    assert (ds + [d])[..|ds|] == ds;
  }

  lemma {:induction false} BestIsWellFormed(ds: seq<Delivery>, peer: PeerId, f: FileId)
    ensures var b := Best(ds, peer, f);
      && (b.Some? ==> b.value.file == f && Delivery(peer, b.value) in ds && Counts(ds, Delivery(peer, b.value)))
      && forall d :: d in ds && d.peer == peer && d.m.file == f && Counts(ds, d) ==>
           b.Some? && d.m.generation <= b.value.generation
  {
    if ds != [] {
      var n := |ds| - 1;
      BestIsWellFormed(ds[..n], peer, f);
      assert ds == ds[..n] + [ds[n]];
      FirstTotalSnoc(ds[..n], ds[n], f);
      BestSnoc(ds[..n], ds[n], peer, f);
      FirstTotalFound(ds[..n], f);
      hide FirstTotal, Best;
      assert forall d :: d in ds <==> d in ds[..n] || d == ds[n];
    }
  }

  /** There is a first total as soon as one well-formed map was delivered, and it is one of theirs. */
  lemma {:induction false} FirstTotalFound(ds: seq<Delivery>, f: FileId)
    ensures (forall d :: d in ds && d.m.file == f && ValidBroadcast(d.m) ==> FirstTotal(ds, f).Some?)
    ensures FirstTotal(ds, f).Some? ==> exists d :: d in ds && d.m.file == f && ValidBroadcast(d.m) && d.m.total == FirstTotal(ds, f).value
  {
    if ds != [] {
      var n := |ds| - 1;
      FirstTotalFound(ds[..n], f);
      assert forall d :: d in ds <==> d in ds[..n] || d == ds[n];
    }
  }

  /** Any sequence of broadcasts, well-formed or not, repeated, reordered or lost, leaves exactly the
      inverted index of the maps that count. */
  lemma {:induction false} DeliveryConverges(roleOf: PeerId -> Role, ds: seq<Delivery>)
    ensures GenerationsIndexed(DeliverAll(roleOf, ds), ds)
    ensures InvertedIndex(DeliverAll(roleOf, ds), roleOf, ds)
  {
    if ds != [] {
      var n := |ds| - 1;
      DeliveryConverges(roleOf, ds[..n]);
      UpdateKeepsGenerations(roleOf, ds[..n], ds[n], DeliverAll(roleOf, ds[..n]));
      UpdateKeepsIndex(roleOf, ds[..n], ds[n], DeliverAll(roleOf, ds[..n]));
      assert ds == ds[..n] + [ds[n]];
    }
  }

  lemma UpdateKeepsGenerations(roleOf: PeerId -> Role, ds: seq<Delivery>, d: Delivery, t: Table)
    requires GenerationsIndexed(t, ds)
    ensures GenerationsIndexed(Update(t, d.peer, roleOf(d.peer), d.m).0, ds + [d])
  {
    hide FirstTotal, Best, ValidBroadcast, Readvertise;
    var u := Update(t, d.peer, roleOf(d.peer), d.m).0;
    FirstTotalSnoc(ds, d, d.m.file);
    if ValidBroadcast(d.m) {
      TotalIsNat(d.m);
    }
    forall f
      ensures FirstTotal(ds + [d], f).Some? <==> f in u
      ensures f in u ==> |u[f].providers| == FirstTotal(ds + [d], f).value
    {
      FirstTotalSnoc(ds, d, f);
    }
    forall f, q
      ensures Best(ds + [d], q, f).Some? <==> f in u && q in u[f].generations
      ensures Best(ds + [d], q, f).Some? ==> u[f].generations[q] == Best(ds + [d], q, f).value.generation
    {
      BestSnoc(ds, d, q, f);
      FirstTotalSnoc(ds, d, f);
    }
  }

  lemma TotalIsNat(m: PieceMap)
    requires ValidBroadcast(m)
    ensures m.total >= 0
  {
  }

  lemma UpdateKeepsIndex(roleOf: PeerId -> Role, ds: seq<Delivery>, d: Delivery, t: Table)
    requires GenerationsIndexed(t, ds) && InvertedIndex(t, roleOf, ds)
    ensures InvertedIndex(Update(t, d.peer, roleOf(d.peer), d.m).0, roleOf, ds + [d])
  {
    hide Best, Without, FirstTotal;
    var (u, outcome) := Update(t, d.peer, roleOf(d.peer), d.m);
    assert Best(ds, d.peer, d.m.file).Some? <==> d.m.file in t && d.peer in t[d.m.file].generations;
    assert FirstTotal(ds, d.m.file).Some? <==> d.m.file in t;
    FirstTotalSnoc(ds, d, d.m.file);
    forall f, i: nat, p
      ensures Advertised(u, f, i, p) <==> BestSays(ds + [d], roleOf, f, i, p)
    {
      BestSnoc(ds, d, p.peer, f);
      assert Advertised(t, f, i, p) <==> BestSays(ds, roleOf, f, i, p);
      BestIsWellFormed(ds, p.peer, f);
    }
    if outcome.Applied? {
      forall i: nat | i < |u[d.m.file].providers|
        ensures OnePerPeer(u[d.m.file].providers[i])
      {
        WithoutKeepsOnePerPeer(EnsureFile(t, d.m).providers[i], d.peer);
      }
    }
  }

  // ----- when the order of delivery matters -----

  /** The same files, with the same piece counts and the same providers for every piece. */
  ghost predicate SameView(t: Table, u: Table) {
    && (forall f :: f in t <==> f in u)
    && (forall f :: f in t && f in u ==> |t[f].providers| == |u[f].providers|)
    && (forall f, i: nat, p :: Advertised(t, f, i, p) <==> Advertised(u, f, i, p))
  }

  /** The well-formed maps delivered for a file agree on its piece count. */
  ghost predicate TotalsAgree(ds: seq<Delivery>) {
    forall d, o :: d in ds && o in ds && ValidBroadcast(d.m) && ValidBroadcast(o.m) && d.m.file == o.m.file ==> d.m.total == o.m.total
  }

  predicate SaysSame(a: PieceMap, b: PieceMap) {
    a.verified == b.verified && (a.verified == [] || a.updatedAt == b.updatedAt)
  }

  /** A well-formed map of the highest generation its sender reached for the file. */
  ghost predicate Top(ds: seq<Delivery>, d: Delivery) {
    && d in ds && ValidBroadcast(d.m)
    && forall o :: o in ds && ValidBroadcast(o.m) && o.peer == d.peer && o.m.file == d.m.file ==> o.m.generation <= d.m.generation
  }

  /** Each peer's highest generation of a file names one map. */
  ghost predicate TopsAgree(ds: seq<Delivery>) {
    forall d, o :: Top(ds, d) && Top(ds, o) && d.peer == o.peer && d.m.file == o.m.file ==> SaysSame(d.m, o.m)
  }

  /** The same broadcasts, in any order and any number of times. */
  ghost predicate SameDeliveries(a: seq<Delivery>, b: seq<Delivery>) {
    forall d :: d in a <==> d in b
  }

  lemma AgreedTotal(ds: seq<Delivery>, d: Delivery)
    requires TotalsAgree(ds) && d in ds && ValidBroadcast(d.m)
    ensures Counts(ds, d)
  {
    FirstTotalFound(ds, d.m.file);
  }

  /** Under agreement the best map is one of the highest generation. */
  lemma BestIsTop(ds: seq<Delivery>, peer: PeerId, f: FileId)
    requires TotalsAgree(ds)
    ensures Best(ds, peer, f).Some? ==> Top(ds, Delivery(peer, Best(ds, peer, f).value)) && Best(ds, peer, f).value.file == f
    ensures forall d :: d in ds && ValidBroadcast(d.m) && d.peer == peer && d.m.file == f ==> Best(ds, peer, f).Some?
  {
    BestIsWellFormed(ds, peer, f);
    forall d | d in ds && ValidBroadcast(d.m) && d.peer == peer && d.m.file == f
      ensures Counts(ds, d)
    {
      AgreedTotal(ds, d);
    }
    hide FirstTotal, Best;
  }

  lemma AgreementCarries(a: seq<Delivery>, b: seq<Delivery>)
    requires SameDeliveries(a, b) && TotalsAgree(a) && TopsAgree(a)
    ensures TotalsAgree(b) && TopsAgree(b)
    ensures forall d :: Top(a, d) <==> Top(b, d)
  {
  }

  lemma SameBest(roleOf: PeerId -> Role, a: seq<Delivery>, b: seq<Delivery>, f: FileId, i: nat, p: Provider)
    requires SameDeliveries(a, b) && TotalsAgree(a) && TopsAgree(a)
    ensures BestSays(a, roleOf, f, i, p) <==> BestSays(b, roleOf, f, i, p)
  {
    AgreementCarries(a, b);
    BestIsTop(a, p.peer, f);
    BestIsTop(b, p.peer, f);
    hide Best, ValidBroadcast, Top, TotalsAgree;
    if Best(a, p.peer, f).Some? {
      TopIsThere(a, Delivery(p.peer, Best(a, p.peer, f).value));
    }
    if Best(b, p.peer, f).Some? {
      TopIsThere(b, Delivery(p.peer, Best(b, p.peer, f).value));
    }
    if Best(a, p.peer, f).Some? && Best(b, p.peer, f).Some? {
      assert SaysSame(Best(a, p.peer, f).value, Best(b, p.peer, f).value);
    }
  }

  lemma TopIsThere(ds: seq<Delivery>, d: Delivery)
    requires Top(ds, d)
    ensures d in ds && ValidBroadcast(d.m)
  {
  }

  lemma SameTotal(a: seq<Delivery>, b: seq<Delivery>, f: FileId)
    requires SameDeliveries(a, b) && TotalsAgree(a)
    ensures FirstTotal(a, f) == FirstTotal(b, f)
  {
    FirstTotalFound(a, f);
    FirstTotalFound(b, f);
    hide FirstTotal, ValidBroadcast;
  }

  /** Under agreement delivery order and repetition do not matter. */
  lemma OrderIrrelevant(roleOf: PeerId -> Role, a: seq<Delivery>, b: seq<Delivery>)
    requires SameDeliveries(a, b) && TotalsAgree(a) && TopsAgree(a)
    ensures SameView(DeliverAll(roleOf, a), DeliverAll(roleOf, b))
  {
    DeliveryConverges(roleOf, a);
    DeliveryConverges(roleOf, b);
    hide DeliverAll, TotalsAgree, TopsAgree, FirstTotal, BestSays;
    var t, u := DeliverAll(roleOf, a), DeliverAll(roleOf, b);
    forall f
      ensures FirstTotal(a, f) == FirstTotal(b, f)
    {
      SameTotal(a, b, f);
    }
    forall f, i: nat, p
      ensures Advertised(t, f, i, p) <==> Advertised(u, f, i, p)
    {
      SameBest(roleOf, a, b, f, i, p);
      assert Advertised(t, f, i, p) <==> BestSays(a, roleOf, f, i, p);
      assert Advertised(u, f, i, p) <==> BestSays(b, roleOf, f, i, p);
    }
  }

  // ----- the other direction -----

  lemma {:induction false} FirstDecides(d: Delivery, ds: seq<Delivery>)
    requires ValidBroadcast(d.m)
    ensures FirstTotal([d] + ds, d.m.file) == Some(d.m.total)
  {
    if ds == [] {
      assert [d] + ds == [d];
      assert [d][..0] == [];
    } else {
      FirstDecides(d, ds[..|ds| - 1]);
      assert ([d] + ds)[..|ds|] == [d] + ds[..|ds| - 1];
    }
  }

  /** A top map delivered first stays its sender's best. */
  lemma {:induction false} FirstTopStays(d: Delivery, ds: seq<Delivery>)
    requires ValidBroadcast(d.m)
    requires forall o :: o in ds && ValidBroadcast(o.m) && o.peer == d.peer && o.m.file == d.m.file ==> o.m.generation <= d.m.generation
    ensures Best([d] + ds, d.peer, d.m.file) == Some(d.m)
  {
    var all := [d] + ds;
    if ds == [] {
      assert all == [d];
      assert [d][..0] == [];
      FirstDecides(d, []);
    } else {
      var n := |ds| - 1;
      FirstTopStays(d, ds[..n]);
      assert all == ([d] + ds[..n]) + [ds[n]];
      assert ds[n] in ds;
      BestSnoc([d] + ds[..n], ds[n], d.peer, d.m.file);
    }
  }

  lemma {:induction false} AscendingSame(a: seq<int>, b: seq<int>)
    requires (forall k :: 0 < k < |a| ==> a[k - 1] < a[k]) && (forall k :: 0 < k < |b| ==> b[k - 1] < b[k])
    requires forall x :: x in a <==> x in b
    ensures a == b
  {
    if a == [] {
      HasMember(b);
    } else {
      assert a[0] in a;
      AscendingLeast(a);
      AscendingLeast(b);
      assert a[0] in b && b[0] in a;
      var s, t := a[1..], b[1..];
      assert forall k :: 0 < k < |s| ==> s[k - 1] < s[k] by { assert forall k :: 0 < k < |s| ==> s[k] == a[k + 1] && s[k - 1] == a[k]; }
      assert forall k :: 0 < k < |t| ==> t[k - 1] < t[k] by { assert forall k :: 0 < k < |t| ==> t[k] == b[k + 1] && t[k - 1] == b[k]; }
      assert a == [a[0]] + s && b == [b[0]] + t;
      assert forall x :: x in s <==> x in a && x != a[0];
      assert forall x :: x in t <==> x in b && x != b[0];
      AscendingSame(s, t);
    }
  }

  lemma HasMember(s: seq<int>)
    ensures s == [] || exists x: int :: x in s
  {
    if s != [] {
      var x: int := s[0];
      assert x in s;
    }
  }

  lemma {:induction false} AscendingLeast(a: seq<int>)
    requires a != [] && forall k :: 0 < k < |a| ==> a[k - 1] < a[k]
    ensures forall k :: 0 < k < |a| ==> a[0] < a[k]
  {
    if |a| > 1 {
      AscendingLeast(a[..|a| - 1]);
      assert a[|a| - 2] < a[|a| - 1];
    }
  }

  /** Two maps of a peer that do not say the same, delivered first one and then the other, show. */
  lemma DifferentBestShows(roleOf: PeerId -> Role, a: seq<Delivery>, b: seq<Delivery>, peer: PeerId, f: FileId, m: PieceMap, o: PieceMap)
    requires Best(a, peer, f) == Some(m) && Best(b, peer, f) == Some(o)
    requires ValidBroadcast(m) && ValidBroadcast(o) && !SaysSame(m, o)
    ensures !SameView(DeliverAll(roleOf, a), DeliverAll(roleOf, b))
  {
    DeliveryConverges(roleOf, a);
    DeliveryConverges(roleOf, b);
    hide DeliverAll, Best;
    var p, q := ProviderFor(peer, roleOf(peer), m), ProviderFor(peer, roleOf(peer), o);
    if m.verified == o.verified {
      var i: nat := m.verified[0];
      assert BestSays(a, roleOf, f, i, p) && !BestSays(b, roleOf, f, i, p);
      Shows(roleOf, a, b, f, i, p);
    } else {
      if forall x :: x in m.verified <==> x in o.verified {
        AscendingSame(m.verified, o.verified);
      }
      var x :| (x in m.verified) != (x in o.verified);
      var i: nat := x;
      if x in m.verified {
        assert BestSays(a, roleOf, f, i, p) && !BestSays(b, roleOf, f, i, p);
        Shows(roleOf, a, b, f, i, p);
      } else {
        assert BestSays(b, roleOf, f, i, q) && !BestSays(a, roleOf, f, i, q);
        Shows(roleOf, a, b, f, i, q);
      }
    }
  }

  lemma Shows(roleOf: PeerId -> Role, a: seq<Delivery>, b: seq<Delivery>, f: FileId, i: nat, p: Provider)
    requires InvertedIndex(DeliverAll(roleOf, a), roleOf, a) && InvertedIndex(DeliverAll(roleOf, b), roleOf, b)
    requires BestSays(a, roleOf, f, i, p) != BestSays(b, roleOf, f, i, p)
    ensures !SameView(DeliverAll(roleOf, a), DeliverAll(roleOf, b))
  {
    hide DeliverAll, BestSays;
    assert Advertised(DeliverAll(roleOf, a), f, i, p) <==> BestSays(a, roleOf, f, i, p);
    assert Advertised(DeliverAll(roleOf, b), f, i, p) <==> BestSays(b, roleOf, f, i, p);
  }

  /** Two maps with different piece counts, delivered first one and then the other, show. */
  lemma DifferentTotalShows(roleOf: PeerId -> Role, d: Delivery, ds: seq<Delivery>, o: Delivery, os: seq<Delivery>)
    requires ValidBroadcast(d.m) && ValidBroadcast(o.m) && d.m.file == o.m.file && d.m.total != o.m.total
    ensures !SameView(DeliverAll(roleOf, [d] + ds), DeliverAll(roleOf, [o] + os))
  {
    FirstDecides(d, ds);
    FirstDecides(o, os);
    DeliveryConverges(roleOf, [d] + ds);
    DeliveryConverges(roleOf, [o] + os);
    hide DeliverAll, FirstTotal;
  }

  /** Two deliveries whose order changes the table: each fixes the piece count the other way round. */
  lemma TwoOrdersDiffer(roleOf: PeerId -> Role, one: PeerId, other: PeerId)
    ensures var d, o := Delivery(one, PieceMap(0, [0], 1, 1, 0)), Delivery(other, PieceMap(0, [1], 2, 1, 0));
      !SameView(DeliverAll(roleOf, [d, o]), DeliverAll(roleOf, [o, d]))
  {
    var d, o := Delivery(one, PieceMap(0, [0], 1, 1, 0)), Delivery(other, PieceMap(0, [1], 2, 1, 0));
    DifferentTotalShows(roleOf, d, [o], o, [d]);
    assert [d] + [o] == [d, o] && [o] + [d] == [o, d];
  }

  /** Exactly when the order of delivery does not matter: all ways to deliver the same broadcasts leave
      the same files, piece counts and providers if and only if the well-formed maps of a file agree on
      its piece count, and each peer's highest generation of it names one map. */
  lemma OrderIrrelevantExactly(roleOf: PeerId -> Role, ds: seq<Delivery>)
    ensures TotalsAgree(ds) && TopsAgree(ds) <==>
      forall a, b :: SameDeliveries(ds, a) && SameDeliveries(ds, b) ==> SameView(DeliverAll(roleOf, a), DeliverAll(roleOf, b))
  {
    hide DeliverAll, SameView, ValidBroadcast, Top, Best;
    if TotalsAgree(ds) && TopsAgree(ds) {
      forall a, b | SameDeliveries(ds, a) && SameDeliveries(ds, b)
        ensures SameView(DeliverAll(roleOf, a), DeliverAll(roleOf, b))
      {
        AgreementCarries(ds, a);
        OrderIrrelevant(roleOf, a, b);
      }
    } else if !TotalsAgree(ds) {
      var d, o :| d in ds && o in ds && ValidBroadcast(d.m) && ValidBroadcast(o.m) && d.m.file == o.m.file && d.m.total != o.m.total;
      DifferentTotalShows(roleOf, d, ds, o, ds);
      assert SameDeliveries(ds, [d] + ds) && SameDeliveries(ds, [o] + ds);
    } else {
      var d, o :| Top(ds, d) && Top(ds, o) && d.peer == o.peer && d.m.file == o.m.file && !SaysSame(d.m, o.m);
      TopFirst(ds, d);
      TopFirst(ds, o);
      TopIsThere(ds, d);
      TopIsThere(ds, o);
      DifferentBestShows(roleOf, [d] + ds, [o] + ds, d.peer, d.m.file, d.m, o.m);
      assert SameDeliveries(ds, [d] + ds) && SameDeliveries(ds, [o] + ds);
    }
  }

  lemma TopFirst(ds: seq<Delivery>, d: Delivery)
    requires Top(ds, d)
    ensures Best([d] + ds, d.peer, d.m.file) == Some(d.m)
  {
    FirstTopStays(d, ds);
  }

  // ----- the sender of broadcasts -----

  /** `exportPieceMapBroadcast`. */
  function Export(f: FileId, states: States, previous: Option<nat>, now: int): PieceMap {
    PieceMap(f, VerifiedPieces(states), |states|, (if previous.Some? then previous.value else 0) + 1, now)
  }

  /** Every exported map is one the remote validator accepts, lists exactly the verified pieces,
      and, with a higher generation than the last, replaces it in any table that knows the file. */
  lemma ExportAccepted(f: FileId, states: States, previous: Option<nat>, now: int, t: Table, peer: PeerId, role: Role)
    requires f in t ==> |t[f].providers| == |states|
    requires f in t && peer in t[f].generations ==> previous.Some? && t[f].generations[peer] <= previous.value
    ensures var m := Export(f, states, previous, now); var (u, outcome) := Update(t, peer, role, m);
      && ValidBroadcast(m) && outcome == Applied
      && (previous.Some? ==> m.generation > previous.value)
      && forall i: nat :: i < |states| ==>
           ((exists p: Provider :: p.peer == peer && Advertised(u, f, i, p)) <==> states[i].status.Verified?)
  {
    var m := Export(f, states, previous, now);
    var u := Update(t, peer, role, m).0;
    forall i: nat | i < |states|
      ensures (exists p: Provider :: p.peer == peer && Advertised(u, f, i, p)) <==> states[i].status.Verified?
    {
      var list := EnsureFile(t, m).providers[i];
      assert u[f].providers[i] == Without(list, peer) + if i in m.verified then [ProviderFor(peer, role, m)] else [];
      if states[i].status.Verified? {
        assert IsVerified(states[i]);
        assert i in m.verified;
        assert u[f].providers[i][|Without(list, peer)|] == ProviderFor(peer, role, m);
        assert Advertised(u, f, i, ProviderFor(peer, role, m));
      }
    }
  }

  class PieceAvailabilityTable {
    var files: Table
    var leases: map<Piece, Lease>

    constructor ()
      ensures files == map[] && leases == map[]
    {
      files := map[];
      leases := map[];
    }

    method UpdatePeerPieceMap(peer: PeerId, role: Role, m: PieceMap) returns (outcome: Outcome)
      modifies this`files
      ensures (files, outcome) == Update(old(files), peer, role, m)
    {
      if !ValidBroadcast(m) {
        return InvalidMap;
      }
      var f := EnsureFile(files, m);
      if |f.providers| != m.total {
        return CountMismatch;
      }
      if peer in f.generations && m.generation <= f.generations[peer] {
        return Stale;
      }
      var providers := f.providers;
      for i := 0 to |providers|
        invariant |providers| == m.total
        invariant forall k :: 0 <= k < i ==> providers[k] == Without(f.providers[k], peer)
        invariant forall k :: i <= k < |providers| ==> providers[k] == f.providers[k]
      {
        providers := providers[i := Without(providers[i], peer)];
      }
      for j := 0 to |m.verified|
        invariant |providers| == m.total
        invariant forall k :: 0 <= k < |providers| ==>
          providers[k] == Without(f.providers[k], peer) + if k in m.verified[..j] then [ProviderFor(peer, role, m)] else []
      {
        var k := m.verified[j];
        assert k !in m.verified[..j] by { SortedDistinct(m, j); }
        providers := providers[k := providers[k] + [ProviderFor(peer, role, m)]];
        assert forall x :: x in m.verified[..j + 1] <==> x in m.verified[..j] || x == k;
      }
      assert m.verified[..|m.verified|] == m.verified;
      files := files[m.file := FileTable(f.generations[peer := m.generation], providers)];
      assert providers == Readvertise(f.providers, peer, role, m);
      outcome := Applied;
    }

    method TakeLease(piece: Piece, lease: Lease) returns (known: bool)
      modifies this`leases
      ensures known <==> piece.file in files && piece.index < |files[piece.file].providers|
      ensures leases == if known then old(leases)[piece := lease] else old(leases)
    {
      known := piece.file in files && piece.index < |files[piece.file].providers|;
      if known {
        leases := leases[piece := lease];
      }
    }

    method Release(piece: Piece, id: RequestId)
      modifies this`leases
      ensures leases == ReleaseLease(old(leases), piece, id)
    {
      if piece in leases && leases[piece].id == id {
        leases := leases - {piece};
      }
    }
  }

  function ReleaseLease(leases: map<Piece, Lease>, piece: Piece, id: RequestId): map<Piece, Lease> {
    if piece in leases && leases[piece].id == id then leases - {piece} else leases
  }

  lemma SortedDistinct(m: PieceMap, j: nat)
    requires ValidBroadcast(m) && j < |m.verified|
    ensures forall k :: 0 <= k < j ==> m.verified[k] < m.verified[j]
  {
    if j > 0 {
      SortedDistinct(m, j - 1);
    }
  }
}
