/** What one PIECE_MAP broadcast does to the table, and what a peer announces, entry by entry. */
module AvailabilityMeaning {
  import opened Common
  import opened Pieces
  import opened Availability

  /** Indices within the piece count, in strictly ascending order. */
  predicate Proper(m: PieceMap) {
    && m.total >= 0
    && (forall k :: 0 <= k < |m.verified| ==> 0 <= m.verified[k] < m.total)
    && (forall j, k :: 0 <= j < k < |m.verified| ==> m.verified[j] < m.verified[k])
  }

  lemma {:induction false} AscendingAll(s: seq<int>, j: nat, k: nat)
    requires (forall i :: 0 < i < |s| ==> s[i - 1] < s[i]) && j < k < |s|
    ensures s[j] < s[k]
  {
    if j < k - 1 {
      AscendingAll(s, j, k - 1);
    }
  }

  lemma ProperIsValid(m: PieceMap)
    ensures ValidBroadcast(m) <==> Proper(m)
  {
    if ValidBroadcast(m) {
      forall j, k | 0 <= j < k < |m.verified|
        ensures m.verified[j] < m.verified[k]
      {
        AscendingAll(m.verified, j, k);
      }
    }
  }

  /** What was advertised for a piece before. */
  function Before(t: Table, f: FileId, i: nat): seq<Provider> {
    if f in t && i < |t[f].providers| then t[f].providers[i] else []
  }

  /** A map is refused if it is not proper or if the file is known with another number of pieces; it is out of
      date if the same peer announced the file with as high a generation before. Otherwise, and only then, it
      replaces all that the peer advertised for the file: its entries, good for thirty seconds from the
      update, stand at exactly the pieces listed, and those of others are as they were. */
  lemma UpdateMeaning(t: Table, peer: PeerId, role: Role, m: PieceMap)
    ensures var (u, outcome) := Update(t, peer, role, m);
      var known := m.file in t;
      && (outcome == InvalidMap <==> !Proper(m))
      && (outcome == CountMismatch <==> Proper(m) && known && |t[m.file].providers| != m.total)
      && (outcome == Stale <==> Proper(m) && known && |t[m.file].providers| == m.total
                                && peer in t[m.file].generations && m.generation <= t[m.file].generations[peer])
      && (outcome != Applied ==> u == t)
      && (outcome == Applied ==>
            && m.file in u && |u[m.file].providers| == m.total
            && u[m.file].generations == (if known then t[m.file].generations else map[])[peer := m.generation]
            && (forall i: nat, p :: i < m.total ==> (p in u[m.file].providers[i] <==>
                  if p.peer == peer then i in m.verified && p == Provider(peer, role, m.updatedAt, m.updatedAt + 30_000)
                  else p in Before(t, m.file, i)))
            && (forall f :: f != m.file ==> (f in u <==> f in t) && (f in t ==> u[f] == t[f])))
  {
    ProperIsValid(m);
    if Proper(m) {
      var f := EnsureFile(t, m);
      assert forall i: nat :: i < |f.providers| ==> (f.providers[i] == if m.file in t then t[m.file].providers[i] else []);
    }
  }

  /** A lease is released by the request that holds it, and by no other. */
  lemma ReleaseMeaning(leases: map<Piece, Lease>, piece: Piece, id: RequestId)
    ensures var r := ReleaseLease(leases, piece, id);
      && (forall q :: q in r <==> q in leases && !(q == piece && leases[q].id == id))
      && forall q :: q in r ==> r[q] == leases[q]
  {
  }

  /** What a peer announces of a file: its verified pieces out of all, under the next generation. */
  lemma ExportMeaning(f: FileId, states: States, previous: Option<nat>, now: int)
    ensures var m := Export(f, states, previous, now);
      && m.file == f && m.total == |states| && m.updatedAt == now
      && m.generation == (if previous == None then 1 else previous.value + 1)
      && Proper(m) && forall i: nat :: i in m.verified <==> i < |states| && states[i].status == Verified
  {
    var m := Export(f, states, previous, now);
    forall i: nat | i < |states| && states[i].status == Verified
      ensures i in m.verified
    {
      assert IsVerified(states[i]);
    }
  }
}
