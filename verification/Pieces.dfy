/** The per-piece state machine of a file: `PieceManager`. The functions act on the list of
    piece states; the class overwrites an array in place and is proved against them. */
module Pieces {
  import opened Common

  datatype Status = Missing | Requested | Receiving | Received | Verified | Failed

  datatype PieceState = PieceState(
    status: Status, size: nat, receivedBytes: nat, retryCount: nat, requestedFrom: Option<PeerId>)

  datatype Descriptor = Descriptor(index: nat, offset: nat, size: nat, hash: Option<Digest>)

  type States = seq<PieceState>

  /** A piece a scheduler may ask for. */
  predicate Wanted(p: PieceState) {
    p.status.Missing? || p.status.Failed?
  }

  function ClampBytes(value: int, max: nat): nat {
    Max(0, Min(max, value))
  }

  function Initial(pieces: seq<Descriptor>): (s: States)
    ensures |s| == |pieces|
    ensures forall i :: 0 <= i < |s| ==> s[i] == PieceState(Missing, pieces[i].size, 0, 0, None)
  {
    seq(|pieces|, i requires 0 <= i < |pieces| => PieceState(Missing, pieces[i].size, 0, 0, None))
  }

  function MarkRequested(p: PieceState, peer: PeerId): PieceState {
    p.(status := Requested, requestedFrom := Some(peer), receivedBytes := 0)
  }

  function MarkReceiving(p: PieceState, receivedBytes: int): PieceState {
    p.(status := Receiving, receivedBytes := ClampBytes(receivedBytes, p.size))
  }

  function MarkReceived(p: PieceState): PieceState {
    p.(status := Received, receivedBytes := p.size)
  }

  function MarkVerified(p: PieceState): PieceState {
    p.(status := Verified, receivedBytes := p.size)
  }

  function MarkFailed(p: PieceState): PieceState {
    p.(status := Failed, receivedBytes := 0, retryCount := p.retryCount + 1, requestedFrom := None)
  }

  function ResetFailedToMissing(p: PieceState): PieceState {
    if p.status.Failed? then p.(status := Missing) else p
  }

  function ImportOne(current: PieceState, imported: PieceState): PieceState {
    var status := if imported.status.Requested? || imported.status.Receiving? then Missing else imported.status;
    current.(
      status := status,
      retryCount := imported.retryCount,
      requestedFrom := if status.Missing? then None else imported.requestedFrom,
      receivedBytes := if status.Missing? then 0 else ClampBytes(imported.receivedBytes, current.size))
  }

  /** One entry of a saved piece map. */
  datatype Saved = Saved(index: nat, state: PieceState)

  predicate Importable(s: States, imported: seq<Saved>) {
    forall k :: 0 <= k < |imported| ==> imported[k].index < |s|
  }

  /** `importPieceMap`, entry by entry. */
  function ImportAll(s: States, imported: seq<Saved>): (r: States)
    requires Importable(s, imported)
    ensures |r| == |s|
  {
    if imported == [] then s
    else
      var n := |imported| - 1;
      var before, x := ImportAll(s, imported[..n]), imported[n];
      before[x.index := ImportOne(before[x.index], x.state)]
  }

  /** `exportPieceMap`. */
  function Exported(s: States): (r: seq<Saved>)
    ensures |r| == |s| && forall i :: 0 <= i < |r| ==> r[i] == Saved(i, s[i])
  {
    seq(|s|, i requires 0 <= i < |s| => Saved(i, s[i]))
  }

  /** Importing an exported map treats every piece by itself. */
  lemma {:induction false} ImportExportedFirst(s: States, t: States, n: nat)
    requires |s| == |t| && n <= |t|
    ensures ImportAll(s, Exported(t)[..n]) == seq(|s|, i requires 0 <= i < |s| => if i < n then ImportOne(s[i], t[i]) else s[i])
  {
    if n > 0 {
      assert Exported(t)[..n][..n - 1] == Exported(t)[..n - 1];
      ImportExportedFirst(s, t, n - 1);
    }
  }

  lemma ImportExported(s: States, t: States)
    requires |s| == |t|
    ensures forall i :: 0 <= i < |s| ==> ImportAll(s, Exported(t))[i] == ImportOne(s[i], t[i])
  {
    ImportExportedFirst(s, t, |t|);
    assert Exported(t)[..|t|] == Exported(t);
  }

  /** The indices, in ascending order, whose state satisfies `keep`. */
  function Select(s: States, keep: PieceState -> bool): (r: seq<nat>)
    ensures forall k :: 0 <= k < |r| ==> r[k] < |s| && keep(s[r[k]])
    ensures forall j, k :: 0 <= j < k < |r| ==> r[j] < r[k]
    ensures forall i :: 0 <= i < |s| && keep(s[i]) ==> i in r
  {
    if s == [] then []
    else
      var n := |s| - 1;
      var rest := Select(s[..n], keep);
      assert forall i :: 0 <= i < n ==> s[..n][i] == s[i];
      if keep(s[n]) then rest + [n] else rest
  }

  /** Pieces reported as missing: status missing or failed. */
  function MissingPieces(s: States): seq<nat> {
    Select(s, Wanted)
  }

  predicate IsVerified(p: PieceState) {
    p.status.Verified?
  }

  function VerifiedPieces(s: States): seq<nat> {
    Select(s, IsVerified)
  }

  /** Marking a reported-missing piece as requested removes exactly it from the report. */
  lemma {:induction false} SelectCount(s: States, i: nat, p: PieceState, keep: PieceState -> bool)
    requires i < |s| && keep(s[i]) && !keep(p)
    ensures |Select(s[i := p], keep)| == |Select(s, keep)| - 1
  {
    var n := |s| - 1;
    if i < n {
      assert s[i := p][..n] == s[..n][i := p];
      SelectCount(s[..n], i, p, keep);
    } else {
      assert s[i := p][..n] == s[..n];
    }
  }

  /** Piece sizes and bytes transferred, as `getProgress` sums them. */
  function TotalBytes(s: States): nat {
    if s == [] then 0 else TotalBytes(s[..|s| - 1]) + s[|s| - 1].size
  }

  function TransferredOf(p: PieceState): nat {
    if p.status.Verified? then p.size else ClampBytes(p.receivedBytes, p.size)
  }

  function TransferredBytes(s: States): nat {
    if s == [] then 0 else TransferredBytes(s[..|s| - 1]) + TransferredOf(s[|s| - 1])
  }

  /** Progress never passes the total, and reaches it exactly when every non-empty piece is complete. */
  lemma {:induction false} ProgressBounded(s: States)
    ensures TransferredBytes(s) <= TotalBytes(s)
    ensures TransferredBytes(s) == TotalBytes(s) <==>
            forall i :: 0 <= i < |s| ==> s[i].status.Verified? || s[i].receivedBytes >= s[i].size
  {
    if s != [] {
      var n := |s| - 1;
      ProgressBounded(s[..n]);
      assert forall i :: 0 <= i < n ==> s[..n][i] == s[i];
    }
  }

  datatype Progress = Progress(bytesTransferred: nat, totalBytes: nat, verifiedPieces: nat, totalPieces: nat)

  class PieceManager {
    const states: array<PieceState>

    constructor (pieces: seq<Descriptor>)
      ensures fresh(states) && states[..] == Initial(pieces)
    {
      states := new PieceState[|pieces|](i requires 0 <= i < |pieces| =>
        PieceState(Missing, pieces[i].size, 0, 0, None));
      new;
      assert states[..] == Initial(pieces);
    }

    /** `update`: an unknown index is refused and changes nothing, as `requirePiece` throws first. */
    method Update(index: nat, next: PieceState) returns (known: bool)
      modifies states
      ensures known <==> index < states.Length
      ensures states[..] == if known then old(states[..])[index := next] else old(states[..])
    {
      known := index < states.Length;
      if known {
        states[index] := next;
      }
    }

    method Requested(index: nat, peer: PeerId) returns (known: bool)
      modifies states
      ensures known <==> index < states.Length
      ensures states[..] == if known then old(states[..])[index := MarkRequested(old(states[index]), peer)] else old(states[..])
    {
      if index >= states.Length { return false; }
      known := Update(index, states[index].(status := Status.Requested, requestedFrom := Some(peer), receivedBytes := 0));
    }

    method Receiving(index: nat, receivedBytes: int) returns (known: bool)
      modifies states
      ensures known <==> index < states.Length
      ensures states[..] == if known then old(states[..])[index := MarkReceiving(old(states[index]), receivedBytes)] else old(states[..])
    {
      if index >= states.Length { return false; }
      var p := states[index];
      known := Update(index, p.(status := Status.Receiving, receivedBytes := ClampBytes(receivedBytes, p.size)));
    }

    method Received(index: nat) returns (known: bool)
      modifies states
      ensures known <==> index < states.Length
      ensures states[..] == if known then old(states[..])[index := MarkReceived(old(states[index]))] else old(states[..])
    {
      if index >= states.Length { return false; }
      known := Update(index, states[index].(status := Status.Received, receivedBytes := states[index].size));
    }

    method Verified(index: nat) returns (known: bool)
      modifies states
      ensures known <==> index < states.Length
      ensures states[..] == if known then old(states[..])[index := MarkVerified(old(states[index]))] else old(states[..])
    {
      if index >= states.Length { return false; }
      known := Update(index, states[index].(status := Status.Verified, receivedBytes := states[index].size));
    }

    method Failed(index: nat) returns (known: bool)
      modifies states
      ensures known <==> index < states.Length
      ensures states[..] == if known then old(states[..])[index := MarkFailed(old(states[index]))] else old(states[..])
    {
      if index >= states.Length { return false; }
      var p := states[index];
      known := Update(index, PieceState(Status.Failed, p.size, 0, p.retryCount + 1, None));
    }

    method FailedToMissing(index: nat) returns (known: bool)
      modifies states
      ensures known <==> index < states.Length
      ensures states[..] == if known then old(states[..])[index := ResetFailedToMissing(old(states[index]))] else old(states[..])
    {
      if index >= states.Length { return false; }
      known := true;
      if states[index].status.Failed? {
        known := Update(index, states[index].(status := Missing));
      }
    }

    method GetMissingPieces() returns (r: seq<nat>)
      ensures r == MissingPieces(states[..])
    {
      r := [];
      for i := 0 to states.Length
        invariant r == MissingPieces(states[..i])
      {
        assert states[..i + 1][..i] == states[..i];
        if Wanted(states[i]) {
          r := r + [i];
        }
      }
      assert states[..states.Length] == states[..];
    }

    method GetVerifiedPieces() returns (r: seq<nat>)
      ensures r == VerifiedPieces(states[..])
    {
      r := [];
      for i := 0 to states.Length
        invariant r == VerifiedPieces(states[..i])
      {
        assert states[..i + 1][..i] == states[..i];
        if states[i].status.Verified? {
          r := r + [i];
        }
      }
      assert states[..states.Length] == states[..];
    }

    /** Entries are taken one by one; the first unknown index ends the import with an error. */
    method ImportPieceMap(imported: seq<Saved>) returns (ok: bool)
      modifies states
      ensures ok <==> Importable(old(states[..]), imported)
      ensures ok ==> states[..] == ImportAll(old(states[..]), imported)
    {
      ghost var before := states[..];
      for k := 0 to |imported|
        invariant Importable(before, imported[..k])
        invariant states[..] == ImportAll(before, imported[..k])
      {
        var x, i := imported[k].state, imported[k].index;
        if i >= states.Length { return false; }
        var status := if x.status.Requested? || x.status.Receiving? then Missing else x.status;
        var size := states[i].size;
        states[i] := PieceState(
          status,
          size,
          if status.Missing? then 0 else ClampBytes(x.receivedBytes, size),
          x.retryCount,
          if status.Missing? then None else x.requestedFrom);
        assert imported[..k + 1][..k] == imported[..k];
      }
      assert imported[..|imported|] == imported;
      ok := true;
    }

    method GetProgress() returns (p: Progress)
      ensures p == Progress(TransferredBytes(states[..]), TotalBytes(states[..]),
                            |VerifiedPieces(states[..])|, states.Length)
    {
      var total, transferred, verified := 0, 0, 0;
      for i := 0 to states.Length
        invariant total == TotalBytes(states[..i])
        invariant transferred == TransferredBytes(states[..i])
        invariant verified == |VerifiedPieces(states[..i])|
      {
        assert states[..i + 1][..i] == states[..i];
        total := total + states[i].size;
        transferred := transferred + if states[i].status.Verified? then states[i].size else ClampBytes(states[i].receivedBytes, states[i].size);
        if states[i].status.Verified? {
          verified := verified + 1;
        }
      }
      assert states[..states.Length] == states[..];
      p := Progress(transferred, total, verified, states.Length);
    }
  }
}
