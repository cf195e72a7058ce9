/** Cutting a piece into chunks on the sending side and putting them together on the receiving side. */
module ChunkAssembly {
  import opened Common

  /** The message announcing the next binary frame. Its numbers come off the wire unchecked. */
  datatype Header = Header(piece: Piece, id: RequestId, chunkIndex: int, totalChunks: int, payloadSize: int)

  datatype Assembly = Assembly(
    peer: PeerId, piece: Piece, totalChunks: int,
    chunks: seq<Option<Bytes>>, receivedBytes: nat, receivedChunks: nat)

  datatype Appended = Reject | Incomplete(assembly: Assembly) | Complete(data: Bytes)

  function Fresh(peer: PeerId, h: Header): Assembly
    requires h.totalChunks > 0
  {
    Assembly(peer, h.piece, h.totalChunks, seq(h.totalChunks, _ => None), 0, 0)
  }

  /** `appendIncomingChunk`: the frame announced by `h` joins the assembly of its request. */
  function AppendChunk(existing: Option<Assembly>, peer: PeerId, h: Header, frame: Bytes): Appended {
    if h.totalChunks <= 0 || h.chunkIndex < 0 || h.chunkIndex >= h.totalChunks || h.payloadSize != |frame| then Reject
    else
      var a := if existing.Some? then existing.value else Fresh(peer, h);
      if a.peer != peer || a.piece != h.piece || a.totalChunks != h.totalChunks
         || h.chunkIndex >= |a.chunks| || a.chunks[h.chunkIndex].Some? then Reject
      else
        var b := a.(chunks := a.chunks[h.chunkIndex := Some(frame)],
                    receivedBytes := a.receivedBytes + |frame|,
                    receivedChunks := a.receivedChunks + 1);
        if b.receivedChunks < h.totalChunks then Incomplete(b)
        else if AllFilled(b.chunks) then Complete(Join(b.chunks)) else Reject
  }

  predicate AllFilled(chunks: seq<Option<Bytes>>) {
    forall i :: 0 <= i < |chunks| ==> chunks[i].Some?
  }

  function Join(chunks: seq<Option<Bytes>>): Bytes
    requires AllFilled(chunks)
  {
    if chunks == [] then [] else Join(chunks[..|chunks| - 1]) + chunks[|chunks| - 1].value
  }

  function FilledCount(chunks: seq<Option<Bytes>>): nat {
    if chunks == [] then 0
    else FilledCount(chunks[..|chunks| - 1]) + if chunks[|chunks| - 1].Some? then 1 else 0
  }

  function FilledBytes(chunks: seq<Option<Bytes>>): nat {
    if chunks == [] then 0
    else FilledBytes(chunks[..|chunks| - 1]) + if chunks[|chunks| - 1].Some? then |chunks[|chunks| - 1].value| else 0
  }

  /** What every stored assembly satisfies: the counters describe the slots, and some slot is empty. */
  ghost predicate Sound(a: Assembly) {
    && a.totalChunks == |a.chunks|
    && a.receivedChunks == FilledCount(a.chunks) < |a.chunks|
    && a.receivedBytes == FilledBytes(a.chunks)
  }

  lemma {:induction false} FillSlot(chunks: seq<Option<Bytes>>, i: nat, frame: Bytes)
    requires i < |chunks| && chunks[i].None?
    ensures FilledCount(chunks[i := Some(frame)]) == FilledCount(chunks) + 1
    ensures FilledBytes(chunks[i := Some(frame)]) == FilledBytes(chunks) + |frame|
  {
    var n := |chunks| - 1;
    var filled := chunks[i := Some(frame)];
    if i < n {
      assert filled[..n] == chunks[..n][i := Some(frame)];
      FillSlot(chunks[..n], i, frame);
    } else {
      assert filled[..n] == chunks[..n];
    }
  }

  lemma {:induction false} CountBound(chunks: seq<Option<Bytes>>)
    ensures FilledCount(chunks) <= |chunks|
    ensures FilledCount(chunks) == |chunks| <==> AllFilled(chunks)
    ensures AllFilled(chunks) ==> |Join(chunks)| == FilledBytes(chunks)
  {
    if chunks != [] {
      var n := |chunks| - 1;
      CountBound(chunks[..n]);
      assert chunks == chunks[..n] + [chunks[n]];
    }
  }

  lemma {:induction false} EmptySlots(n: nat)
    ensures FilledCount(seq(n, _ => None)) == 0 && FilledBytes(seq(n, _ => None)) == 0
  {
    var s: seq<Option<Bytes>> := seq(n, _ => None);
    if n > 0 {
      EmptySlots(n - 1);
      var t: seq<Option<Bytes>> := seq(n - 1, _ => None);
      assert s[..n - 1] == t;
    }
  }

  /** One step keeps the bookkeeping exact. A chunk is refused only for what its header says or
      for a slot already taken: the counters never claim completion while a slot is empty, and a
      completed piece is as long as the bytes counted, so the copy into it cannot overrun. */
  lemma AppendKeepsSound(existing: Option<Assembly>, peer: PeerId, h: Header, frame: Bytes)
    requires existing.Some? ==> Sound(existing.value)
    ensures var r := AppendChunk(existing, peer, h, frame);
      && (r.Incomplete? ==> Sound(r.assembly) && r.assembly.peer == peer && r.assembly.piece == h.piece)
      && (r.Complete? ==> |r.data| == |frame| + if existing.Some? then existing.value.receivedBytes else 0)
      && (r.Reject? <==>
          || h.totalChunks <= 0 || h.chunkIndex < 0 || h.chunkIndex >= h.totalChunks
          || h.payloadSize != |frame|
          || (existing.Some? &&
              (|| existing.value.peer != peer || existing.value.piece != h.piece
               || existing.value.totalChunks != h.totalChunks
               || existing.value.chunks[h.chunkIndex].Some?)))
  {
    if h.totalChunks > 0 && 0 <= h.chunkIndex < h.totalChunks && h.payloadSize == |frame| {
      EmptySlots(h.totalChunks);
      var a := if existing.Some? then existing.value else Fresh(peer, h);
      if a.peer == peer && a.piece == h.piece && a.totalChunks == h.totalChunks && a.chunks[h.chunkIndex].None? {
        FillSlot(a.chunks, h.chunkIndex, frame);
        CountBound(a.chunks[h.chunkIndex := Some(frame)]);
      }
    }
  }

  // ----- the sending side -----

  /** The chunk size actually used for `data` (`Math.min(transferChunkBytes, byteLength || transferChunkBytes)`). */
  function ChunkSize(transferChunkBytes: nat, dataLength: nat): nat {
    Min(transferChunkBytes, if dataLength == 0 then transferChunkBytes else dataLength)
  }

  function TotalChunks(chunkSize: nat, dataLength: nat): nat
    requires chunkSize > 0
  {
    Max(1, (dataLength + chunkSize - 1) / chunkSize)
  }

  /** The consecutive slices of at most `chunkSize` bytes; empty data gives one empty slice. */
  function Split(data: Bytes, chunkSize: nat): (parts: seq<Bytes>)
    requires chunkSize > 0
    ensures |parts| > 0
    decreases |data|
  {
    if |data| <= chunkSize then [data] else [data[..chunkSize]] + Split(data[chunkSize..], chunkSize)
  }

  lemma {:induction false} SplitJoins(data: Bytes, chunkSize: nat)
    requires chunkSize > 0
    ensures Concat(Split(data, chunkSize)) == data
    ensures |Split(data, chunkSize)| == TotalChunks(chunkSize, |data|)
    decreases |data|
  {
    if |data| <= chunkSize {
      assert Concat([data]) == data + Concat([]);
      if |data| > 0 {
        assert (|data| + chunkSize - 1) / chunkSize == 1 by { DivStep(|data| - 1, chunkSize); }
      }
    } else {
      SplitJoins(data[chunkSize..], chunkSize);
      DivStep(|data| - 1, chunkSize);
      DivStep(|data| - chunkSize - 1, chunkSize);
      assert data == data[..chunkSize] + data[chunkSize..];
    }
  }

  lemma DivStep(n: nat, d: nat)
    requires d > 0
    ensures (n + d) / d == n / d + 1
    ensures n < d ==> n / d == 0
  {
    var q := n / d;
    assert q * d <= n < q * d + d;
    assert (q + 1) * d == q * d + d;
    DivUnique(n + d, d, q + 1);
    if n < d {
      DivUnique(n, d, 0);
    }
  }

  /** Slice `i` is what the send loop cuts at offset `i * chunkSize`. */
  lemma {:induction false} SplitAt(data: Bytes, chunkSize: nat, i: nat)
    requires chunkSize > 0 && i < |Split(data, chunkSize)|
    ensures i * chunkSize <= |data|
    ensures Split(data, chunkSize)[i] == data[i * chunkSize..Min(i * chunkSize + chunkSize, |data|)]
    decreases |data|
  {
    if |data| <= chunkSize {
      assert i == 0;
    } else if i > 0 {
      SplitAt(data[chunkSize..], chunkSize, i - 1);
      assert i * chunkSize == (i - 1) * chunkSize + chunkSize;
    }
  }

  /** A piece of no more than the transfer chunk size goes in one chunk; of a larger one every chunk has that
      size, but for the last, which may be shorter. */
  lemma ChunksMeaning(transferChunkBytes: nat, data: Bytes, i: nat)
    requires transferChunkBytes > 0
    ensures var parts := Split(data, ChunkSize(transferChunkBytes, |data|));
      && (|data| <= transferChunkBytes ==> parts == [data])
      && (|data| > transferChunkBytes && i < |parts| ==>
            && i * transferChunkBytes <= |data|
            && parts[i] == data[i * transferChunkBytes..if i * transferChunkBytes + transferChunkBytes <= |data| then i * transferChunkBytes + transferChunkBytes else |data|])
  {
    if |data| > transferChunkBytes && i < |Split(data, transferChunkBytes)| {
      SplitAt(data, transferChunkBytes, i);
    }
  }

  /** The headers an honest sender announces for one request. */
  function HeaderFor(piece: Piece, id: RequestId, parts: seq<Bytes>, i: nat): Header
    requires i < |parts|
  {
    Header(piece, id, i, |parts|, |parts[i]|)
  }

  /** The result of receiving, in `order`, the announced chunks of `parts`. */
  function Receive(peer: PeerId, piece: Piece, id: RequestId, parts: seq<Bytes>, order: seq<nat>): Appended
    requires forall k :: 0 <= k < |order| ==> order[k] < |parts|
    requires order != []
  {
    var n := |order| - 1;
    var h := HeaderFor(piece, id, parts, order[n]);
    if n == 0 then AppendChunk(None, peer, h, parts[order[n]])
    else match Receive(peer, piece, id, parts, order[..n])
      case Incomplete(a) => AppendChunk(Some(a), peer, h, parts[order[n]])
      case other => other
  }

  ghost predicate Slots(a: Assembly, peer: PeerId, piece: Piece, parts: seq<Bytes>, arrived: seq<nat>) {
    && Sound(a) && a.peer == peer && a.piece == piece && |a.chunks| == |parts|
    && a.receivedChunks == |arrived|
    && forall i :: 0 <= i < |parts| ==> a.chunks[i] == if i in arrived then Some(parts[i]) else None
  }

  lemma {:induction false} JoinIsConcat(chunks: seq<Option<Bytes>>, parts: seq<Bytes>)
    requires |chunks| == |parts| && forall i :: 0 <= i < |parts| ==> chunks[i] == Some(parts[i])
    ensures Join(chunks) == Concat(parts)
  {
    if parts != [] {
      var n := |parts| - 1;
      JoinIsConcat(chunks[..n], parts[..n]);
      ConcatSnoc(parts[..n], parts[n]);
      assert parts == parts[..n] + [parts[n]];
    }
  }

  /** One arrival of a chunk not seen before. */
  lemma ReceiveNext(a: Assembly, peer: PeerId, piece: Piece, id: RequestId, parts: seq<Bytes>, before: seq<nat>, at: nat)
    requires Slots(a, peer, piece, parts, before)
    requires at < |parts| && at !in before
    ensures var r := AppendChunk(Some(a), peer, HeaderFor(piece, id, parts, at), parts[at]);
      if |before| + 1 < |parts| then r.Incomplete? && Slots(r.assembly, peer, piece, parts, before + [at])
      else r == Complete(Concat(parts))
  {
    FillSlot(a.chunks, at, parts[at]);
    var filled := a.chunks[at := Some(parts[at])];
    CountBound(filled);
    assert forall i :: 0 <= i < |parts| ==> filled[i] == if i in before + [at] then Some(parts[i]) else None;
    if |before| + 1 >= |parts| {
      JoinIsConcat(filled, parts);
    }
  }

  /** The first chunk starts the assembly that an empty one would have become. */
  lemma ReceiveFirst(peer: PeerId, piece: Piece, id: RequestId, parts: seq<Bytes>, at: nat)
    requires at < |parts|
    ensures var h := HeaderFor(piece, id, parts, at);
      && Slots(Fresh(peer, h), peer, piece, parts, [])
      && AppendChunk(None, peer, h, parts[at]) == AppendChunk(Some(Fresh(peer, h)), peer, h, parts[at])
  {
    EmptySlots(|parts|);
  }

  /** Chunks without repetition, in any order: nothing before the last one, then the whole. */
  lemma {:induction false} ReceiveAny(peer: PeerId, piece: Piece, id: RequestId, parts: seq<Bytes>, order: seq<nat>)
    requires forall k :: 0 <= k < |order| ==> order[k] < |parts|
    requires Distinct(order) && order != []
    ensures |order| <= |parts|
    ensures var r := Receive(peer, piece, id, parts, order);
      if |order| < |parts| then r.Incomplete? && Slots(r.assembly, peer, piece, parts, order)
      else r == Complete(Concat(parts))
  {
    hide AppendChunk, Slots, Fresh, Concat;
    Pigeonhole(order, |parts|);
    var n := |order| - 1;
    var at, before := order[n], order[..n];
    assert order == before + [at];
    assert at !in before;
    if n == 0 {
      ReceiveFirst(peer, piece, id, parts, at);
      assert before == [];
      ReceiveNext(Fresh(peer, HeaderFor(piece, id, parts, at)), peer, piece, id, parts, before, at);
    } else {
      ReceiveAny(peer, piece, id, parts, before);
      ReceiveNext(Receive(peer, piece, id, parts, before).assembly, peer, piece, id, parts, before, at);
    }
  }

  /** Sender and receiver together: for any bytes, any positive chunk size and any arrival order,
      the receiver yields exactly the bytes the sender cut up, and only on the last chunk. */
  lemma ReassembleAnyOrder(peer: PeerId, piece: Piece, id: RequestId, data: Bytes, transferChunkBytes: nat, order: seq<nat>)
    requires transferChunkBytes > 0
    requires var n := TotalChunks(ChunkSize(transferChunkBytes, |data|), |data|);
      && 0 < |order| <= n
      && (forall k :: 0 <= k < |order| ==> order[k] < n)
    requires Distinct(order)
    ensures var size := ChunkSize(transferChunkBytes, |data|);
      && |Split(data, size)| == TotalChunks(size, |data|)
      && var r := Receive(peer, piece, id, Split(data, size), order);
         if |order| < TotalChunks(size, |data|) then r.Incomplete? else r == Complete(data)
  {
    var size := ChunkSize(transferChunkBytes, |data|);
    SplitJoins(data, size);
    ReceiveAny(peer, piece, id, Split(data, size), order);
  }
}
