/** The transitions of a piece, and what is reported of a file, field by field. */
module PiecesMeaning {
  import opened Common
  import opened Pieces

  /** A number of bytes, but none below zero and no more than the piece has. */
  function Within(bytes: int, size: nat): nat {
    if bytes < 0 then 0 else if bytes > size then size else bytes
  }

  /** Each transition sets the status, and what is known of bytes, retries and the peer asked. */
  lemma TransitionsMeaning(p: PieceState, peer: PeerId, bytes: int)
    ensures MarkRequested(p, peer) == PieceState(Requested, p.size, 0, p.retryCount, Some(peer))
    ensures MarkReceiving(p, bytes) == PieceState(Receiving, p.size, Within(bytes, p.size), p.retryCount, p.requestedFrom)
    ensures MarkReceived(p) == PieceState(Received, p.size, p.size, p.retryCount, p.requestedFrom)
    ensures MarkVerified(p) == PieceState(Verified, p.size, p.size, p.retryCount, p.requestedFrom)
    ensures MarkFailed(p) == PieceState(Failed, p.size, 0, p.retryCount + 1, None)
    ensures ResetFailedToMissing(p) ==
      if p.status == Failed then PieceState(Missing, p.size, p.receivedBytes, p.retryCount, p.requestedFrom) else p
  {
  }

  /** A new file misses every piece; what is reported verified are, in order, the pieces with that status, and
      what is reported missing those missing or failed. */
  lemma ReportsMeaning(s: States, d: seq<Descriptor>, i: nat)
    ensures i in VerifiedPieces(s) <==> i < |s| && s[i].status == Verified
    ensures i in MissingPieces(s) <==> i < |s| && (s[i].status == Missing || s[i].status == Failed)
    ensures forall j, k :: 0 <= j < k < |VerifiedPieces(s)| ==> VerifiedPieces(s)[j] < VerifiedPieces(s)[k]
    ensures forall j, k :: 0 <= j < k < |MissingPieces(s)| ==> MissingPieces(s)[j] < MissingPieces(s)[k]
    ensures |Initial(d)| == |d| && (i < |d| ==> Initial(d)[i] == PieceState(Missing, d[i].size, 0, 0, None))
  {
    if i < |s| {
      assert IsVerified(s[i]) <==> s[i].status == Verified;
      assert Wanted(s[i]) <==> s[i].status == Missing || s[i].status == Failed;
    }
  }

  /** Progress adds up over the pieces: a verified one counts in full, any other with what was received. */
  lemma {:induction false} ProgressMeaning(s: States, i: nat, p: PieceState)
    requires i < |s|
    ensures TotalBytes(s[i := p]) - p.size == TotalBytes(s) - s[i].size
    ensures TransferredBytes(s[i := p]) - (if p.status == Verified then p.size else Within(p.receivedBytes, p.size))
         == TransferredBytes(s) - (if s[i].status == Verified then s[i].size else Within(s[i].receivedBytes, s[i].size))
    ensures TotalBytes([]) == 0 && TransferredBytes([]) == 0
  {
    var n := |s| - 1;
    if i < n {
      assert s[i := p][..n] == s[..n][i := p];
      ProgressMeaning(s[..n], i, p);
    } else {
      assert s[i := p][..n] == s[..n];
    }
  }

  /** One more piece adds its size, and what was transferred of it. */
  lemma ProgressSnoc(s: States, p: PieceState)
    ensures TotalBytes(s + [p]) == TotalBytes(s) + p.size
    ensures TransferredBytes(s + [p]) == TransferredBytes(s) + if p.status == Verified then p.size else Within(p.receivedBytes, p.size)
  {
    assert (s + [p])[..|s|] == s;
  }
}
