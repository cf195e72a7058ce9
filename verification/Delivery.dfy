/** End to end: from the owner's file through its manifest, any transfers, resumes and restarts, to the
    assembled file. */
module Delivery {
  import opened Common
  import opened Pieces
  import opened ChunkAssembly
  import opened Engine
  import opened EngineSteps
  import opened EngineRuns
  import opened Resume

  // ----- the manifest of a file -----

  function PieceCount(fileSize: nat, pieceSize: nat): nat
    requires pieceSize > 0
  {
    (fileSize + pieceSize - 1) / pieceSize
  }

  /** The bytes of piece `i`. */
  function Slice(file: Bytes, pieceSize: nat, i: nat): Bytes
    requires pieceSize > 0 && i < PieceCount(|file|, pieceSize)
  {
    InFile(|file|, pieceSize, i);
    file[i * pieceSize..i * pieceSize + Min(pieceSize, |file| - i * pieceSize)]
  }

  lemma InFile(fileSize: nat, pieceSize: nat, i: nat)
    requires pieceSize > 0 && i < PieceCount(fileSize, pieceSize)
    ensures i * pieceSize < fileSize
  {
    var n := PieceCount(fileSize, pieceSize);
    MulMono(i + 1, n, pieceSize);
    assert n * pieceSize <= fileSize + pieceSize - 1;
  }

  /** `createPieceDescriptors`, with the hash of each piece. */
  function ManifestOf(hash: Bytes -> Digest, file: Bytes, pieceSize: nat): (d: seq<Descriptor>)
    requires pieceSize > 0
    ensures |d| == PieceCount(|file|, pieceSize)
    ensures forall i :: 0 <= i < |d| ==>
      d[i] == Descriptor(i, i * pieceSize, |Slice(file, pieceSize, i)|, Some(hash(Slice(file, pieceSize, i))))
  {
    seq(PieceCount(|file|, pieceSize), i requires 0 <= i < PieceCount(|file|, pieceSize) =>
      Descriptor(i, i * pieceSize, |Slice(file, pieceSize, i)|, Some(hash(Slice(file, pieceSize, i)))))
  }

  /** `ManifestGenerator.create`: hash the file slice by slice. */
  method CreateManifest(hash: Bytes -> Digest, file: Bytes, pieceSize: nat) returns (pieces: seq<Descriptor>)
    requires pieceSize > 0
    ensures pieces == ManifestOf(hash, file, pieceSize)
  {
    var pieceCount := PieceCount(|file|, pieceSize);
    pieces := [];
    for index := 0 to pieceCount
      invariant pieces == ManifestOf(hash, file, pieceSize)[..index]
    {
      InFile(|file|, pieceSize, index);
      var offset := index * pieceSize;
      var size := Min(pieceSize, |file| - offset);
      var data := file[offset..offset + size];
      pieces := pieces + [Descriptor(index, offset, size, Some(hash(data)))];
    }
  }

  /** The first `n` pieces. */
  function Slices(file: Bytes, pieceSize: nat, n: nat): (r: seq<Bytes>)
    requires pieceSize > 0 && n <= PieceCount(|file|, pieceSize)
    ensures |r| == n
  {
    if n == 0 then [] else Slices(file, pieceSize, n - 1) + [Slice(file, pieceSize, n - 1)]
  }

  /** One after the other, they are the file up to there. */
  lemma {:induction false} PiecesTile(file: Bytes, pieceSize: nat, n: nat)
    requires pieceSize > 0 && n <= PieceCount(|file|, pieceSize)
    ensures Concat(Slices(file, pieceSize, n)) == file[..Min(n * pieceSize, |file|)]
  {
    hide PieceCount, Concat;
    if n > 0 {
      PiecesTile(file, pieceSize, n - 1);
      InFile(|file|, pieceSize, n - 1);
      ConcatSnoc(Slices(file, pieceSize, n - 1), Slice(file, pieceSize, n - 1));
      assert n * pieceSize == (n - 1) * pieceSize + pieceSize;
      assert Slice(file, pieceSize, n - 1) == file[(n - 1) * pieceSize..Min(n * pieceSize, |file|)];
    } else {
      assert Concat<Byte>([]) == [] by { NoParts(); }
    }
  }

  lemma NoParts()
    ensures Concat<Byte>([]) == []
  {
  }

  /** All pieces together are the whole file, without gap or overlap. */
  lemma PiecesMakeFile(file: Bytes, pieceSize: nat)
    requires pieceSize > 0
    ensures Concat(Slices(file, pieceSize, PieceCount(|file|, pieceSize))) == file
  {
    var n := PieceCount(|file|, pieceSize);
    PiecesTile(file, pieceSize, n);
    assert n * pieceSize > |file| + pieceSize - 1 - pieceSize;
  }

  // ----- the hash -----

  /** No other bytes of the same length hash like a piece of this file. */
  ghost predicate NoCollision(hash: Bytes -> Digest, file: Bytes, pieceSize: nat)
    requires pieceSize > 0
  {
    forall i: nat, data: Bytes | i < PieceCount(|file|, pieceSize) && |data| == |Slice(file, pieceSize, i)| ::
      hash(data) == hash(Slice(file, pieceSize, i)) ==> data == Slice(file, pieceSize, i)
  }

  /** Stored pieces that check against the owner's manifest assemble to the owner's file. */
  lemma {:induction false} AssembleTiles(cfg: Config, storage: Stored, file: FileId, owner: Bytes, pieceSize: nat, n: nat)
    requires pieceSize > 0 && n <= PieceCount(|owner|, pieceSize) && NoCollision(cfg.hash, owner, pieceSize)
    requires var d := ManifestOf(cfg.hash, owner, pieceSize); forall i: nat :: i < n ==> Kept(cfg, file, d, storage, i)
    ensures Assemble(storage, file, n) == Some(Concat(Slices(owner, pieceSize, n)))
  {
    hide PieceCount, Concat, Slice;
    if n > 0 {
      AssembleTiles(cfg, storage, file, owner, pieceSize, n - 1);
      var d, last := ManifestOf(cfg.hash, owner, pieceSize), Slice(owner, pieceSize, n - 1);
      assert Kept(cfg, file, d, storage, n - 1);
      assert storage[Piece(file, n - 1)] == last;
      ConcatSnoc(Slices(owner, pieceSize, n - 1), last);
    } else {
      NoParts();
    }
  }

  // ----- sessions -----

  /** What may happen over a session: engine events, a resume of one file, or a restart of the process
      from any saved piece maps, over the same store. */
  datatype Act = Work(event: Event) | ResumeFile(file: FileId) | Rejoin(saved: seq<(FileId, seq<Saved>)>)

  function RestoreFile(e: Engine, file: FileId, imported: seq<Saved>): Engine
    requires file in e.manifests && Fits(e.manifests[file], imported)
  {
    var r := Restore(e.cfg, file, e.manifests[file], imported, e.storage);
    e.(managers := e.managers[file := r.states], storage := r.storage)
  }

  /** `resumeFile`: the engine's own map is exported and checked against the store. */
  function DoResume(e: Engine, file: FileId): Engine {
    if file in e.manifests && file in e.managers && Fits(e.manifests[file], Exported(e.managers[file]))
    then RestoreFile(e, file, Exported(e.managers[file])) else e
  }

  function FreshManagers(manifests: map<FileId, seq<Descriptor>>): map<FileId, States> {
    map f | f in manifests :: Initial(manifests[f])
  }

  /** A new engine process that has registered the same manifests over the same store. */
  function Restarted(e: Engine): Engine {
    Engine(e.cfg, e.manifests, FreshManagers(e.manifests), e.storage,
           map[], [], {}, {}, map[], [], 0, map[], map[], map[], map[], [], [], false)
  }

  /** The loop of `joinSession` over the saved maps; one that does not fit ends it with an error. */
  function RestoreAll(e: Engine, saved: seq<(FileId, seq<Saved>)>): Engine
    decreases |saved|
  {
    if saved == [] then e
    else if saved[0].0 !in e.manifests then RestoreAll(e, saved[1..])
    else if !Fits(e.manifests[saved[0].0], saved[0].1) then e
    else RestoreAll(RestoreFile(e, saved[0].0, saved[0].1), saved[1..])
  }

  function Perform(e: Engine, a: Act): Engine {
    match a
    case Work(event) => Step(e, event.action, event.env)
    case ResumeFile(file) => DoResume(e, file)
    case Rejoin(saved) => RestoreAll(Restarted(e), saved)
  }

  function Session(e: Engine, acts: seq<Act>): Engine {
    if acts == [] then e else Perform(Session(e, acts[..|acts| - 1]), acts[|acts| - 1])
  }

  lemma RestoreKeeps(e: Engine, file: FileId, imported: seq<Saved>)
    requires Books(e) && Integral(e) && file in e.manifests && Fits(e.manifests[file], imported)
    ensures Books(RestoreFile(e, file, imported)) && Integral(RestoreFile(e, file, imported))
  {
    hide Restore, Checks, Arrivals, LeasesOfIssued;
    var r := RestoreFile(e, file, imported);
    RestoreSplits(e.cfg, file, e.manifests[file], imported, e.storage);
    ResumeHeals(e.cfg, file, e.manifests[file], imported, e.storage);
    RestoreBooks(e, r);
    forall p | Has(r, p) && StateOf(r, p).status.Verified?
      ensures Backed(r, p)
    {
      if p.file == file {
        assert Kept(e.cfg, file, e.manifests[file], r.storage, p.index);
      } else {
        assert Has(e, p) && StateOf(e, p) == StateOf(r, p) && Backed(e, p);
      }
    }
  }

  lemma RestoreBooks(e: Engine, r: Engine)
    requires Books(e) && r == e.(managers := r.managers, storage := r.storage) && SameShape(e, r)
    ensures Books(r)
  {
    hide Sound;
    assert forall p :: p in e.leases ==> LeaseOfIssued(e, p);
    assert forall q :: q in e.pending ==> Announces(e, q, e.pending[q]);
    assert forall id :: id in e.incoming ==> Arrives(e, id, e.incoming[id]);
  }

  lemma RestartedKeeps(e: Engine)
    ensures Books(Restarted(e)) && Integral(Restarted(e))
  {
  }

  lemma {:induction false} RestoreAllKeeps(e: Engine, saved: seq<(FileId, seq<Saved>)>)
    requires Books(e) && Integral(e)
    ensures var r := RestoreAll(e, saved);
      Books(r) && Integral(r) && r.cfg == e.cfg && r.manifests == e.manifests
    decreases |saved|
  {
    hide Books, Integral, RestoreFile;
    if saved != [] {
      if saved[0].0 !in e.manifests {
        RestoreAllKeeps(e, saved[1..]);
      } else if Fits(e.manifests[saved[0].0], saved[0].1) {
        RestoreKeeps(e, saved[0].0, saved[0].1);
        RestoreFrame(e, saved[0].0, saved[0].1);
        RestoreAllKeeps(RestoreFile(e, saved[0].0, saved[0].1), saved[1..]);
      }
    }
  }

  lemma RestoreFrame(e: Engine, file: FileId, imported: seq<Saved>)
    requires file in e.manifests && Fits(e.manifests[file], imported)
    ensures RestoreFile(e, file, imported).cfg == e.cfg && RestoreFile(e, file, imported).manifests == e.manifests
  {
  }

  lemma PerformKeeps(e: Engine, a: Act)
    requires Books(e) && Integral(e)
    ensures var r := Perform(e, a);
      Books(r) && Integral(r) && r.cfg == e.cfg && r.manifests == e.manifests
  {
    hide Books, Integral, Step, RestoreFile, Keeps, Restarted;
    match a
    case Work(event) =>
      StepKeeps(e, event.action, event.env);
      KeepsIntegral(e, Step(e, event.action, event.env));
    case ResumeFile(file) =>
      if DoResume(e, file) != e {
        RestoreKeeps(e, file, Exported(e.managers[file]));
        RestoreFrame(e, file, Exported(e.managers[file]));
      }
    case Rejoin(saved) =>
      RestartedKeeps(e);
      RestoreAllKeeps(Restarted(e), saved);
      assert Restarted(e).cfg == e.cfg && Restarted(e).manifests == e.manifests by { RestartedFrame(e); }
  }

  lemma RestartedFrame(e: Engine)
    ensures Restarted(e).cfg == e.cfg && Restarted(e).manifests == e.manifests
  {
  }

  lemma KeepsIntegral(a: Engine, b: Engine)
    requires Keeps(a, b) && Integral(a)
    ensures Integral(b) && a.cfg == b.cfg && a.manifests == b.manifests
  {
  }

  lemma {:induction false} SessionKeeps(e: Engine, acts: seq<Act>)
    requires Start(e)
    ensures var r := Session(e, acts);
      Books(r) && Integral(r) && r.cfg == e.cfg && r.manifests == e.manifests
  {
    hide Books, Integral, Perform;
    if acts == [] {
      StartBooks(e);
    } else {
      SessionKeeps(e, acts[..|acts| - 1]);
      PerformKeeps(Session(e, acts[..|acts| - 1]), acts[|acts| - 1]);
    }
  }

  /** In every reachable state of every session a verified piece is stored with bytes of its
      descriptor's size and hash. */
  lemma SessionIntegrity(e: Engine, acts: seq<Act>, p: Piece)
    requires Start(e)
    ensures var r := Session(e, acts);
      Has(r, p) && StateOf(r, p).status.Verified? ==>
        p in r.storage && DescriptorOf(r, p).Some? && Checks(r.cfg, r.storage[p], DescriptorOf(r, p).value)
  {
    hide Books, Session, Checks;
    SessionKeeps(e, acts);
  }

  /** Whatever happened over a session, whoever sent the pieces: once all pieces of a file whose manifest
      the owner made are verified, the assembled file is the owner's, byte for byte. */
  lemma AssembledIsOwners(e: Engine, acts: seq<Act>, file: FileId, owner: Bytes, pieceSize: nat)
    requires Start(e) && pieceSize > 0 && NoCollision(e.cfg.hash, owner, pieceSize)
    requires file in e.manifests && e.manifests[file] == ManifestOf(e.cfg.hash, owner, pieceSize)
    requires var r := Session(e, acts);
      file in r.managers ==> forall i :: 0 <= i < |r.managers[file]| ==> r.managers[file][i].status.Verified?
    ensures var r := Session(e, acts);
      file in r.managers && Assemble(r.storage, file, |e.manifests[file]|) == Some(owner)
  {
    hide Session, NoCollision;
    var r, d := Session(e, acts), e.manifests[file];
    SessionKeeps(e, acts);
    forall i: nat | i < |d|
      ensures Kept(r.cfg, file, d, r.storage, i)
    {
      assert Has(r, Piece(file, i));
      SessionIntegrity(e, acts, Piece(file, i));
    }
    AssembleTiles(r.cfg, r.storage, file, owner, pieceSize, |d|);
    PiecesMakeFile(owner, pieceSize);
  }

  // ----- resuming what an engine saved -----

  predicate NoReceived(imported: seq<Saved>) {
    forall k :: 0 <= k < |imported| ==> !imported[k].state.status.Received?
  }

  lemma {:induction false} ImportNoReceived(s: States, imported: seq<Saved>)
    requires Importable(s, imported) && NoReceived(imported) && forall i :: 0 <= i < |s| ==> !s[i].status.Received?
    ensures forall i :: 0 <= i < |s| ==> !ImportAll(s, imported)[i].status.Received?
  {
    if imported != [] {
      ImportNoReceived(s, imported[..|imported| - 1]);
    }
  }

  /** A piece restored from a map without `received` pieces is neither receiving nor received. */
  lemma RestoreSettles(e: Engine, file: FileId, imported: seq<Saved>)
    requires Settled(e) && file in e.manifests && Fits(e.manifests[file], imported) && NoReceived(imported)
    ensures Settled(RestoreFile(e, file, imported))
  {
    hide Restore, Checks;
    var d, r := e.manifests[file], RestoreFile(e, file, imported);
    RestoreSplits(e.cfg, file, d, imported, e.storage);
    ImportedStatus(Initial(d), imported);
    ImportNoReceived(Initial(d), imported);
    forall p | Has(r, p)
      ensures !StateOf(r, p).status.Receiving? && !StateOf(r, p).status.Received?
    {
      if p.file != file {
        assert Has(e, p) && StateOf(e, p) == StateOf(r, p);
      }
    }
  }

  lemma ExportedSettled(e: Engine, file: FileId)
    requires Settled(e) && file in e.managers
    ensures NoReceived(Exported(e.managers[file]))
  {
    forall k | 0 <= k < |e.managers[file]|
      ensures !e.managers[file][k].status.Received?
    {
      assert Has(e, Piece(file, k));
    }
  }

  /** The saved maps a process restarts from report no piece as `received`: no engine ever saves such a map. */
  predicate EngineMade(a: Act) {
    a.Rejoin? ==> forall k :: 0 <= k < |a.saved| ==> NoReceived(a.saved[k].1)
  }

  lemma {:induction false} RestoreAllSettles(e: Engine, saved: seq<(FileId, seq<Saved>)>)
    requires Settled(e) && forall k :: 0 <= k < |saved| ==> NoReceived(saved[k].1)
    ensures Settled(RestoreAll(e, saved))
    decreases |saved|
  {
    hide Settled, NoReceived, RestoreFile;
    if saved != [] {
      if saved[0].0 !in e.manifests {
        RestoreAllSettles(e, saved[1..]);
      } else if Fits(e.manifests[saved[0].0], saved[0].1) {
        RestoreSettles(e, saved[0].0, saved[0].1);
        RestoreAllSettles(RestoreFile(e, saved[0].0, saved[0].1), saved[1..]);
      }
    }
  }

  lemma KeepsSettled(a: Engine, b: Engine)
    requires Keeps(a, b) && Settled(a)
    ensures Settled(b)
  {
  }

  lemma RestartedSettled(e: Engine)
    ensures Settled(Restarted(e))
  {
  }

  /** No reachable engine has a piece marked `receiving` or `received`. */
  lemma {:induction false} SessionSettled(e: Engine, acts: seq<Act>)
    requires Start(e) && forall k :: 0 <= k < |acts| ==> EngineMade(acts[k])
    ensures Settled(Session(e, acts))
  {
    hide Settled, Books, Integral, Step, RestoreFile, Keeps, Restarted, NoReceived;
    if acts == [] {
      StartBooks(e);
    } else {
      var n := |acts| - 1;
      var b := Session(e, acts[..n]);
      SessionSettled(e, acts[..n]);
      SessionKeeps(e, acts[..n]);
      match acts[n]
      case Work(event) =>
        StepKeeps(b, event.action, event.env);
        KeepsSettled(b, Step(b, event.action, event.env));
      case ResumeFile(file) =>
        if DoResume(b, file) != b {
          ExportedSettled(b, file);
          RestoreSettles(b, file, Exported(b.managers[file]));
        }
      case Rejoin(saved) =>
        RestartedSettled(b);
        RestoreAllSettles(Restarted(b), saved);
    }
  }

  /** Resuming any file of any reachable engine from its own piece map: the map fits, and afterwards every
      piece is either verified or missing, and not both. */
  lemma ResumePartitionsFile(e: Engine, acts: seq<Act>, file: FileId)
    requires Start(e) && file in e.manifests && forall k :: 0 <= k < |acts| ==> EngineMade(acts[k])
    ensures var s, d := Session(e, acts), e.manifests[file];
      && file in s.managers && s.manifests == e.manifests && Fits(d, Exported(s.managers[file]))
      && var r := Restore(s.cfg, file, d, Exported(s.managers[file]), s.storage).states;
         forall i: nat :: i < |d| ==> (i in VerifiedPieces(r) <==> i !in MissingPieces(r))
  {
    hide Session, Integral, Restore, Checks, VerifiedPieces, MissingPieces;
    var s, d := Session(e, acts), e.manifests[file];
    SessionKeeps(e, acts);
    SessionSettled(e, acts);
    assert file in s.managers && |s.managers[file]| == |d| by { BooksPieces(s, file); }
    hide Books;
    var imported := Exported(s.managers[file]);
    ExportedSettled(s, file);
    ImportNoReceived(Initial(d), imported);
    ResumePartitions(s.cfg, file, d, imported, s.storage);
  }

  lemma BooksPieces(e: Engine, file: FileId)
    requires Books(e) && file in e.manifests
    ensures file in e.managers && |e.managers[file]| == |e.manifests[file]|
  {
  }
}
