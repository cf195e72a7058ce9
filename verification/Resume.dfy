/** Hash-checked resume of a file, and the in-memory store it runs on. */
module Resume {
  import opened Common
  import opened Pieces
  import opened Engine
  import opened EngineSteps

  // ----- the store -----

  type Stored = map<Piece, Bytes>

  /** The stored pieces `0..n` of a file, one after the other. */
  function Assemble(storage: Stored, file: FileId, n: nat): Option<Bytes> {
    if n == 0 then Some([])
    else
      var rest := Assemble(storage, file, n - 1);
      if rest.None? || Piece(file, n - 1) !in storage then None else Some(rest.value + storage[Piece(file, n - 1)])
  }

  class MemoryStorageAdapter {
    var pieces: Stored

    constructor ()
      ensures pieces == map[]
    {
      pieces := map[];
    }

    method WritePiece(p: Piece, data: Bytes)
      modifies this
      ensures pieces == old(pieces)[p := data]
    {
      pieces := pieces[p := data];
    }

    method ReadPiece(p: Piece) returns (data: Option<Bytes>)
      ensures data == if p in pieces then Some(pieces[p]) else None
    {
      data := if p in pieces then Some(pieces[p]) else None;
    }

    method HasPiece(p: Piece) returns (has: bool)
      ensures has <==> p in pieces
    {
      has := p in pieces;
    }

    method DeletePiece(p: Piece)
      modifies this
      ensures pieces == old(pieces) - {p}
    {
      pieces := pieces - {p};
    }

    method AssembleFile(file: FileId, pieceCount: nat) returns (data: Option<Bytes>)
      ensures data == Assemble(pieces, file, pieceCount)
    {
      var parts: Bytes := [];
      for i := 0 to pieceCount
        invariant Assemble(pieces, file, i) == Some(parts)
      {
        var piece := ReadPiece(Piece(file, i));
        if piece.None? {
          MissingIsFinal(pieces, file, i, pieceCount);
          return None;
        }
        parts := parts + piece.value;
      }
      data := Some(parts);
    }
  }

  lemma {:induction false} MissingIsFinal(storage: Stored, file: FileId, i: nat, n: nat)
    requires i < n && Piece(file, i) !in storage
    ensures Assemble(storage, file, n).None?
  {
    if i < n - 1 {
      MissingIsFinal(storage, file, i, n - 1);
    }
  }

  // ----- resuming one file -----

  datatype Resumed = Resumed(states: States, storage: Stored, discarded: seq<nat>)

  /** The stored bytes of piece `i` are there and match its descriptor. */
  predicate Kept(cfg: Config, file: FileId, d: seq<Descriptor>, storage: Stored, i: nat)
    requires i < |d|
  {
    Piece(file, i) in storage && Checks(cfg, storage[Piece(file, i)], d[i])
  }

  function Discard(r: Resumed, file: FileId, i: nat): Resumed
    requires i < |r.states|
  {
    Resumed(r.states[i := ResetFailedToMissing(MarkFailed(r.states[i]))], r.storage - {Piece(file, i)}, r.discarded + [i])
  }

  function RehashOne(cfg: Config, file: FileId, d: seq<Descriptor>, r: Resumed, i: nat): (next: Resumed)
    requires i < |d| == |r.states|
    ensures |next.states| == |d|
  {
    if Kept(cfg, file, d, r.storage, i) then r else Discard(r, file, i)
  }

  /** The loop over the pieces reported verified. */
  function Rehash(cfg: Config, file: FileId, d: seq<Descriptor>, s: States, storage: Stored, todo: seq<nat>): (r: Resumed)
    requires |s| == |d| && forall k :: 0 <= k < |todo| ==> todo[k] < |d|
    ensures |r.states| == |d|
  {
    if todo == [] then Resumed(s, storage, [])
    else RehashOne(cfg, file, d, Rehash(cfg, file, d, s, storage, todo[..|todo| - 1]), todo[|todo| - 1])
  }

  /** `restoreResumeState` on a piece map that fits the manifest. */
  function Restore(cfg: Config, file: FileId, d: seq<Descriptor>, imported: seq<Saved>, storage: Stored): (r: Resumed)
    requires Importable(Initial(d), imported)
    ensures |r.states| == |d|
  {
    var s := ImportAll(Initial(d), imported);
    Rehash(cfg, file, d, s, storage, VerifiedPieces(s))
  }

  predicate Fits(d: seq<Descriptor>, imported: seq<Saved>) {
    |imported| == |d| && Importable(Initial(d), imported)
  }

  datatype Restored = Restored(manager: PieceManager, verified: seq<nat>, missing: seq<nat>, discarded: seq<nat>)

  method DiscardPiece(manager: PieceManager, store: MemoryStorageAdapter, file: FileId, i: nat)
    requires i < manager.states.Length
    modifies manager.states, store
    ensures store.pieces == old(store.pieces) - {Piece(file, i)}
    ensures manager.states[..] == old(manager.states[..])[i := ResetFailedToMissing(MarkFailed(old(manager.states[i])))]
  {
    store.DeletePiece(Piece(file, i));
    var known := manager.Failed(i);
    known := manager.FailedToMissing(i);
  }

  /** The loop that re-hashes what is reported verified. */
  method RehashVerified(cfg: Config, file: FileId, d: seq<Descriptor>, manager: PieceManager, store: MemoryStorageAdapter, todo: seq<nat>)
    returns (discarded: seq<nat>)
    requires manager.states.Length == |d| && forall k :: 0 <= k < |todo| ==> todo[k] < |d|
    modifies manager.states, store
    ensures Resumed(manager.states[..], store.pieces, discarded) == Rehash(cfg, file, d, old(manager.states[..]), old(store.pieces), todo)
  {
    hide Checks;
    discarded := [];
    for k := 0 to |todo|
      invariant Resumed(manager.states[..], store.pieces, discarded)
             == Rehash(cfg, file, d, old(manager.states[..]), old(store.pieces), todo[..k])
    {
      var i := todo[k];
      assert todo[..k + 1][..k] == todo[..k];
      var data := store.ReadPiece(Piece(file, i));
      if data.None? || !Checks(cfg, data.value, d[i]) {
        DiscardPiece(manager, store, file, i);
        discarded := discarded + [i];
      }
    }
    assert todo[..|todo|] == todo;
  }

  /** A map of the wrong length, or with an unknown index, is refused before anything is touched. */
  method RestoreResumeState(cfg: Config, file: FileId, d: seq<Descriptor>, imported: seq<Saved>, store: MemoryStorageAdapter)
    returns (r: Option<Restored>)
    modifies store
    ensures r.Some? <==> Fits(d, imported)
    ensures r.None? ==> store.pieces == old(store.pieces)
    ensures r.Some? ==>
      var spec := Restore(cfg, file, d, imported, old(store.pieces));
      && r.value.manager.states[..] == spec.states && store.pieces == spec.storage
      && r.value.discarded == spec.discarded
      && r.value.verified == VerifiedPieces(spec.states) && r.value.missing == MissingPieces(spec.states)
  {
    hide Checks, ImportAll, Select, Rehash;
    if |imported| != |d| {
      return None;
    }
    var manager := new PieceManager(d);
    var ok := manager.ImportPieceMap(imported);
    if !ok {
      return None;
    }
    var todo := manager.GetVerifiedPieces();
    var discarded := RehashVerified(cfg, file, d, manager, store, todo);
    var verified := manager.GetVerifiedPieces();
    var missing := manager.GetMissingPieces();
    r := Some(Restored(manager, verified, missing, discarded));
  }

  // ----- what resuming does -----

  /** What a discarded piece is left as. */
  function Dropped(p: PieceState): PieceState {
    p.(status := Missing, receivedBytes := 0, retryCount := p.retryCount + 1, requestedFrom := None)
  }

  /** The outcome on the first verified pieces, all of them read before anything changed for them. */
  ghost predicate Split(cfg: Config, file: FileId, d: seq<Descriptor>, s: States, storage: Stored, todo: seq<nat>, r: Resumed)
    requires |s| == |d| && forall k :: 0 <= k < |todo| ==> todo[k] < |d|
  {
    && |r.states| == |s|
    && (forall i :: 0 <= i < |s| ==> (i in r.discarded <==> i in todo && !Kept(cfg, file, d, storage, i)))
    && (forall j, k :: 0 <= j < k < |r.discarded| ==> r.discarded[j] < r.discarded[k])
    && (forall k :: 0 <= k < |r.discarded| ==> r.discarded[k] < |d| && r.discarded[k] in todo)
    && (forall i :: 0 <= i < |s| ==> r.states[i] == if i in r.discarded then Dropped(s[i]) else s[i])
    && (forall p :: p in r.storage <==> p in storage && !(p.file == file && p.index in r.discarded))
    && (forall p :: p in r.storage ==> r.storage[p] == storage[p])
  }

  ghost predicate Ascending(todo: seq<nat>) {
    forall j, k :: 0 <= j < k < |todo| ==> todo[j] < todo[k]
  }

  lemma {:induction false} RehashSplits(cfg: Config, file: FileId, d: seq<Descriptor>, s: States, storage: Stored, todo: seq<nat>)
    requires |s| == |d| && (forall k :: 0 <= k < |todo| ==> todo[k] < |d| && s[todo[k]].status.Verified?)
    requires Ascending(todo)
    ensures Split(cfg, file, d, s, storage, todo, Rehash(cfg, file, d, s, storage, todo))
  {
    hide Checks;
    if todo != [] {
      var n := |todo| - 1;
      RehashSplits(cfg, file, d, s, storage, todo[..n]);
      SplitStep(cfg, file, d, s, storage, todo, Rehash(cfg, file, d, s, storage, todo[..n]));
    }
  }

  lemma SplitStep(cfg: Config, file: FileId, d: seq<Descriptor>, s: States, storage: Stored, todo: seq<nat>, r: Resumed)
    requires todo != [] && |s| == |d| && (forall k :: 0 <= k < |todo| ==> todo[k] < |d| && s[todo[k]].status.Verified?)
    requires Ascending(todo) && Split(cfg, file, d, s, storage, todo[..|todo| - 1], r)
    ensures Split(cfg, file, d, s, storage, todo, RehashOne(cfg, file, d, r, todo[|todo| - 1]))
  {
    hide Checks;
    var n := |todo| - 1;
    var i := todo[n];
    assert forall x :: x in todo <==> x in todo[..n] || x == i;
    assert forall x :: x in todo[..n] ==> x < i;
    assert forall k :: 0 <= k < |r.discarded| ==> r.discarded[k] in todo[..n] && r.discarded[k] < i;
    assert i !in r.discarded;
    assert Kept(cfg, file, d, r.storage, i) <==> Kept(cfg, file, d, storage, i);
    if !Kept(cfg, file, d, storage, i) {
      DiscardSplits(cfg, file, d, s, storage, todo, r);
    }
  }

  lemma DiscardSplits(cfg: Config, file: FileId, d: seq<Descriptor>, s: States, storage: Stored, todo: seq<nat>, r: Resumed)
    requires todo != [] && |s| == |d| && forall k :: 0 <= k < |todo| ==> todo[k] < |d|
    requires Split(cfg, file, d, s, storage, todo[..|todo| - 1], r)
    requires var i := todo[|todo| - 1];
      && s[i].status.Verified? && !Kept(cfg, file, d, storage, i) && i !in r.discarded
      && (forall x :: x in todo <==> x in todo[..|todo| - 1] || x == i)
      && forall k :: 0 <= k < |r.discarded| ==> r.discarded[k] in todo[..|todo| - 1] && r.discarded[k] < i
    ensures Split(cfg, file, d, s, storage, todo, Discard(r, file, todo[|todo| - 1]))
  {
    hide Kept;
    var i, next := todo[|todo| - 1], Discard(r, file, todo[|todo| - 1]);
    assert forall x :: x in next.discarded <==> x in r.discarded || x == i;
  }

  /** Resuming splits the pieces reported verified exactly into those whose stored bytes match, which stay
      as they are, and the others, which are removed from the store and become missing with one more
      retry on record. Nothing else changes, neither in the map nor in the store. */
  lemma RestoreSplits(cfg: Config, file: FileId, d: seq<Descriptor>, imported: seq<Saved>, storage: Stored)
    requires Fits(d, imported)
    ensures var s, r := ImportAll(Initial(d), imported), Restore(cfg, file, d, imported, storage);
      && |s| == |r.states| == |d|
      && (forall i :: 0 <= i < |d| ==> (i in r.discarded <==> s[i].status.Verified? && !Kept(cfg, file, d, storage, i)))
      && (forall j, k :: 0 <= j < k < |r.discarded| ==> r.discarded[j] < r.discarded[k])
      && (forall i :: 0 <= i < |d| ==> r.states[i] == if i in r.discarded then Dropped(s[i]) else s[i])
      && (forall i :: 0 <= i < |d| ==> (r.states[i].status.Verified? <==> s[i].status.Verified? && Kept(cfg, file, d, storage, i)))
      && (forall p :: p in r.storage <==> p in storage && !(p.file == file && p.index in r.discarded))
      && (forall p :: p in r.storage ==> r.storage[p] == storage[p])
  {
    hide Checks;
    var s := ImportAll(Initial(d), imported);
    RehashSplits(cfg, file, d, s, storage, VerifiedPieces(s));
    assert forall i :: 0 <= i < |d| ==> (i in VerifiedPieces(s) <==> IsVerified(s[i]));
  }

  /** After any resume the pieces marked verified are stored with matching bytes, whatever the store and
      the saved map held before. */
  lemma ResumeHeals(cfg: Config, file: FileId, d: seq<Descriptor>, imported: seq<Saved>, storage: Stored)
    requires Fits(d, imported)
    ensures var r := Restore(cfg, file, d, imported, storage);
      forall i :: 0 <= i < |d| && r.states[i].status.Verified? ==> Kept(cfg, file, d, r.storage, i)
  {
    hide Checks, Restore;
    RestoreSplits(cfg, file, d, imported, storage);
  }

  /** Verified and missing pieces then make up the whole file exactly when the imported map had no piece
      in the state `received`. */
  lemma ResumePartitions(cfg: Config, file: FileId, d: seq<Descriptor>, imported: seq<Saved>, storage: Stored)
    requires Fits(d, imported)
    ensures var s, r := ImportAll(Initial(d), imported), Restore(cfg, file, d, imported, storage);
      && (forall i :: !(i in VerifiedPieces(r.states) && i in MissingPieces(r.states)))
      && ((forall i: nat :: i < |d| ==> i in VerifiedPieces(r.states) || i in MissingPieces(r.states))
          <==> forall i :: 0 <= i < |d| ==> !s[i].status.Received?)
  {
    hide Checks, Restore;
    RestoreSplits(cfg, file, d, imported, storage);
    var s, r := ImportAll(Initial(d), imported), Restore(cfg, file, d, imported, storage);
    ImportedStatus(Initial(d), imported);
    forall i: nat | i < |d|
      ensures i in VerifiedPieces(r.states) <==> r.states[i].status.Verified?
      ensures i in MissingPieces(r.states) <==> Wanted(r.states[i])
      ensures r.states[i].status.Received? <==> s[i].status.Received?
      ensures !s[i].status.Requested? && !s[i].status.Receiving?
    {
      assert r.states[i].status.Verified? <==> IsVerified(r.states[i]);
    }
  }

  /** What an imported piece may look like: importing it once more changes nothing. */
  predicate Normal(p: PieceState, size: nat) {
    && p.size == size && p.receivedBytes <= size && !p.status.Requested? && !p.status.Receiving?
    && (p.status.Missing? ==> p.requestedFrom.None? && p.receivedBytes == 0)
  }

  lemma {:induction false} ImportedStatus(s: States, imported: seq<Saved>)
    requires Importable(s, imported) && forall i :: 0 <= i < |s| ==> Normal(s[i], s[i].size)
    ensures forall i :: 0 <= i < |s| ==> Normal(ImportAll(s, imported)[i], s[i].size)
  {
    if imported != [] {
      ImportedStatus(s, imported[..|imported| - 1]);
    }
  }

  /** A second resume discards nothing and leaves every piece and the store as they are. */
  lemma ResumeIsIdempotent(cfg: Config, file: FileId, d: seq<Descriptor>, imported: seq<Saved>, storage: Stored)
    requires Fits(d, imported)
    ensures var r := Restore(cfg, file, d, imported, storage);
      && Fits(d, Exported(r.states))
      && Restore(cfg, file, d, Exported(r.states), r.storage) == Resumed(r.states, r.storage, [])
  {
    hide Checks, Restore;
    var r := Restore(cfg, file, d, imported, storage);
    RestoreSplits(cfg, file, d, imported, storage);
    ImportedStatus(Initial(d), imported);
    assert forall i :: 0 <= i < |d| ==> Normal(r.states[i], d[i].size);
    ImportExported(Initial(d), r.states);
    var s := ImportAll(Initial(d), Exported(r.states));
    assert forall i :: 0 <= i < |d| ==> s[i] == r.states[i];
    assert s == r.states;
    ResumeHeals(cfg, file, d, imported, storage);
    HealedStays(cfg, file, d, Exported(r.states), r.storage);
  }

  /** If all pieces reported verified match, resuming changes nothing beyond the import. */
  lemma HealedStays(cfg: Config, file: FileId, d: seq<Descriptor>, imported: seq<Saved>, storage: Stored)
    requires Fits(d, imported)
    requires var s := ImportAll(Initial(d), imported);
      forall i :: 0 <= i < |d| && s[i].status.Verified? ==> Kept(cfg, file, d, storage, i)
    ensures Restore(cfg, file, d, imported, storage) == Resumed(ImportAll(Initial(d), imported), storage, [])
  {
    hide Checks, Restore, Kept;
    var s, again := ImportAll(Initial(d), imported), Restore(cfg, file, d, imported, storage);
    RestoreSplits(cfg, file, d, imported, storage);
    NothingDiscarded(cfg, file, d, imported, storage, again);
    assert again.states == s;
    assert again.storage == storage;
  }

  lemma NothingDiscarded(cfg: Config, file: FileId, d: seq<Descriptor>, imported: seq<Saved>, storage: Stored, r: Resumed)
    requires Fits(d, imported) && r == Restore(cfg, file, d, imported, storage)
    requires forall i :: 0 <= i < |d| ==> i !in r.discarded
    ensures r.discarded == []
  {
    var s := ImportAll(Initial(d), imported);
    RehashSplits(cfg, file, d, s, storage, VerifiedPieces(s));
    HasMember(r.discarded);
  }

  lemma HasMember(xs: seq<nat>)
    ensures xs != [] ==> exists x :: x in xs
  {
    if xs != [] {
      assert xs[0] in xs;
    }
  }
}
