/** What a resume keeps, said of the saved entries and the stored bytes themselves. */
module ResumeMeaning {
  import opened Common
  import opened Pieces
  import opened Engine
  import opened EngineSteps
  import opened EngineRuns
  import opened Resume
  import opened Delivery

  /** Entry `k` is the last one for piece `i`. */
  predicate LastFor(imported: seq<Saved>, i: nat, k: nat) {
    k < |imported| && imported[k].index == i && forall j :: k < j < |imported| ==> imported[j].index != i
  }

  /** The piece is stored with bytes of the size and hash that its descriptor gives, if it gives a hash. */
  predicate RightBytes(cfg: Config, d: Descriptor, storage: Stored, p: Piece) {
    p in storage && (d.hash == None || (|storage[p]| == d.size && Some(cfg.hash(storage[p])) == d.hash))
  }

  /** Saved state `x` of a piece, resumed. */
  function AfterResume(x: PieceState, size: nat, right: bool): PieceState {
    if x.status == Verified && right then PieceState(Verified, size, Min(x.receivedBytes, size), x.retryCount, x.requestedFrom)
    else if x.status == Verified then PieceState(Missing, size, 0, x.retryCount + 1, None)
    else if x.status == Failed || x.status == Received then PieceState(x.status, size, Min(x.receivedBytes, size), x.retryCount, x.requestedFrom)
    else PieceState(Missing, size, 0, x.retryCount, None)
  }

  // ----- importing -----

  lemma {:induction false} ImportSize(s: States, imported: seq<Saved>, i: nat)
    requires Importable(s, imported) && i < |s|
    ensures ImportAll(s, imported)[i].size == s[i].size
  {
    if imported != [] {
      ImportSize(s, imported[..|imported| - 1], i);
    }
  }

  /** The last entry for a piece decides; without one the piece is as it was. */
  lemma {:induction false} ImportLast(s: States, imported: seq<Saved>, i: nat, k: nat)
    requires Importable(s, imported) && i < |s|
    ensures LastFor(imported, i, k) ==>
      var x, b := imported[k].state, ImportAll(s, imported)[i];
      if x.status == Verified || x.status == Failed || x.status == Received then
        b == PieceState(x.status, s[i].size, Min(x.receivedBytes, s[i].size), x.retryCount, x.requestedFrom)
      else b == PieceState(Missing, s[i].size, 0, x.retryCount, None)
    ensures (forall j :: 0 <= j < |imported| ==> imported[j].index != i) ==> ImportAll(s, imported)[i] == s[i]
  {
    if imported != [] {
      var n := |imported| - 1;
      ImportLast(s, imported[..n], i, k);
      ImportSize(s, imported[..n], i);
    }
  }

  // ----- resuming one file -----

  lemma RightIsKept(cfg: Config, file: FileId, d: seq<Descriptor>, storage: Stored, i: nat)
    requires i < |d|
    ensures Resume.Kept(cfg, file, d, storage, i) <==> RightBytes(cfg, d[i], storage, Piece(file, i))
  {
  }

  /** A piece saved as verified stays so exactly if its stored bytes match; otherwise it is removed and
      missing, with one more retry on record. One saved as requested or receiving is missing, and any other
      keeps its state. Retries are kept. */
  lemma RestoreMeaning(cfg: Config, file: FileId, d: seq<Descriptor>, imported: seq<Saved>, storage: Stored, i: nat, k: nat)
    requires |imported| == |d| && forall j :: 0 <= j < |imported| ==> imported[j].index < |d|
    requires i < |d| && LastFor(imported, i, k)
    ensures var r, x, p := Restore(cfg, file, d, imported, storage), imported[k].state, Piece(file, i);
      var right := RightBytes(cfg, d[i], storage, p);
      && r.states[i] == AfterResume(x, d[i].size, right)
      && (r.states[i].status == Verified <==> x.status == Verified && right)
      && (i in r.discarded <==> x.status == Verified && !right)
      && (p in r.storage <==> p in storage && (x.status == Verified ==> right))
      && (p in r.storage ==> r.storage[p] == storage[p])
  {
    hide Checks, RightBytes, Restore, ImportAll, Resume.Kept;
    RestoreSplits(cfg, file, d, imported, storage);
    ImportLast(Initial(d), imported, i, k);
    RightIsKept(cfg, file, d, storage, i);
  }

  /** A piece without an entry is missing as if it had never been asked for, and stays stored if it was. */
  lemma NotSaved(cfg: Config, file: FileId, d: seq<Descriptor>, imported: seq<Saved>, storage: Stored, i: nat)
    requires |imported| == |d| && forall j :: 0 <= j < |imported| ==> imported[j].index < |d|
    requires i < |d| && forall j :: 0 <= j < |imported| ==> imported[j].index != i
    ensures var r := Restore(cfg, file, d, imported, storage);
      && r.states[i] == PieceState(Missing, d[i].size, 0, 0, None)
      && (Piece(file, i) in r.storage <==> Piece(file, i) in storage)
  {
    hide Checks, Restore, ImportAll, Resume.Kept;
    RestoreSplits(cfg, file, d, imported, storage);
    ImportLast(Initial(d), imported, i, 0);
  }

  /** Pieces of other files stay stored as they are. */
  lemma OthersKept(cfg: Config, file: FileId, d: seq<Descriptor>, imported: seq<Saved>, storage: Stored, p: Piece)
    requires |imported| == |d| && forall j :: 0 <= j < |imported| ==> imported[j].index < |d|
    requires p.file != file
    ensures var r := Restore(cfg, file, d, imported, storage);
      (p in r.storage <==> p in storage) && (p in storage ==> r.storage[p] == storage[p])
  {
    hide Checks, Restore, ImportAll, Resume.Kept;
    RestoreSplits(cfg, file, d, imported, storage);
  }

  // ----- resuming what an engine saved -----

  /** A map in which every piece saved as verified is stored with matching bytes, as an engine exports it:
      after the resume exactly the same pieces are verified, no retry is added, and the store is untouched. */
  lemma OwnMapKept(cfg: Config, file: FileId, d: seq<Descriptor>, s: States, storage: Stored)
    requires |s| == |d| && forall i :: 0 <= i < |d| && s[i].status == Verified ==> RightBytes(cfg, d[i], storage, Piece(file, i))
    ensures var r := Restore(cfg, file, d, Exported(s), storage);
      && |r.states| == |d| && (forall i :: 0 <= i < |d| ==> r.states[i] == AfterResume(s[i], d[i].size, true))
      && r.storage == storage && r.discarded == []
  {
    hide Checks, RightBytes, Restore, ImportAll, Resume.Kept;
    var imported := Exported(s);
    forall i | 0 <= i < |d|
      ensures Restore(cfg, file, d, imported, storage).states[i] == AfterResume(s[i], d[i].size, true)
      ensures s[i].status == Verified <==> ImportAll(Initial(d), imported)[i].status == Verified
      ensures s[i].status == Verified ==> Resume.Kept(cfg, file, d, storage, i)
    {
      RestoreMeaning(cfg, file, d, imported, storage, i, i);
      ImportLast(Initial(d), imported, i, i);
      RightIsKept(cfg, file, d, storage, i);
    }
    HealedStays(cfg, file, d, imported, storage);
  }

  lemma ActSnoc(e: Engine, acts: seq<Act>, a: Act)
    ensures Session(e, acts + [a]) == Perform(Session(e, acts), a)
    ensures a.ResumeFile? ==> Session(e, acts + [a]) == DoResume(Session(e, acts), a.file)
    ensures a.Rejoin? ==> Session(e, acts + [a]) == RestoreAll(Restarted(Session(e, acts)), a.saved)
  {
    hide Step, DoResume, RestoreAll, Restarted;
    assert (acts + [a])[..|acts|] == acts;
  }

  lemma VerifiedRight(e: Engine, acts: seq<Act>, file: FileId)
    requires Start(e) && file in e.manifests
    ensures var s, d := Session(e, acts), e.manifests[file];
      && s.manifests == e.manifests && file in s.managers && |s.managers[file]| == |d|
      && forall i :: 0 <= i < |d| && s.managers[file][i].status == Verified ==> RightBytes(s.cfg, d[i], s.storage, Piece(file, i))
  {
    hide Session, Checks, Integral, RightBytes;
    var s, d := Session(e, acts), e.manifests[file];
    SessionKeeps(e, acts);
    BooksPieces(s, file);
    hide Books;
    forall i | 0 <= i < |d| && s.managers[file][i].status == Verified
      ensures RightBytes(s.cfg, d[i], s.storage, Piece(file, i))
    {
      assert Has(s, Piece(file, i));
      SessionIntegrity(e, acts, Piece(file, i));
      RightIsKept(s.cfg, file, d, s.storage, i);
    }
  }

  /** `resumeFile` on any reachable engine: each piece of the file is what its state was, requested ones
      missing again; the verified ones are exactly those that were, and nothing leaves the store. */
  lemma ResumeKeepsVerified(e: Engine, acts: seq<Act>, file: FileId)
    requires Start(e) && file in e.manifests
    ensures var s, r, d := Session(e, acts), Session(e, acts + [ResumeFile(file)]), e.manifests[file];
      && file in s.managers && file in r.managers && |s.managers[file]| == |r.managers[file]| == |d|
      && (forall i :: 0 <= i < |d| ==> r.managers[file][i] == AfterResume(s.managers[file][i], d[i].size, true))
      && (forall i :: 0 <= i < |d| ==> (r.managers[file][i].status == Verified <==> s.managers[file][i].status == Verified))
      && r == s.(managers := s.managers[file := r.managers[file]])
  {
    hide Session, Perform, Start, RightBytes, Restore, ImportAll;
    var s, d := Session(e, acts), e.manifests[file];
    VerifiedRight(e, acts, file);
    ActSnoc(e, acts, ResumeFile(file));
    OwnMapKept(s.cfg, file, d, s.managers[file], s.storage);
  }

  /** The maps saved for some files: each is what the engine would export. */
  ghost predicate SavedBy(s: Engine, saved: seq<(FileId, seq<Saved>)>) {
    forall k :: 0 <= k < |saved| ==>
      saved[k].0 in s.manifests && saved[k].0 in s.managers && saved[k].1 == Exported(s.managers[saved[k].0])
  }

  predicate Among(saved: seq<(FileId, seq<Saved>)>, file: FileId) {
    exists k :: 0 <= k < |saved| && saved[k].0 == file
  }

  lemma {:induction false} RestoreAllMeaning(s: Engine, e: Engine, saved: seq<(FileId, seq<Saved>)>)
    requires SavedBy(s, saved) && e.cfg == s.cfg && e.manifests == s.manifests && e.storage == s.storage
    requires forall f :: f in s.manifests ==> f in s.managers && |s.managers[f]| == |s.manifests[f]|
    requires forall f, i :: f in s.manifests && 0 <= i < |s.manifests[f]| && s.managers[f][i].status == Verified ==>
      RightBytes(s.cfg, s.manifests[f][i], s.storage, Piece(f, i))
    ensures var r := RestoreAll(e, saved);
      && r.storage == s.storage && r.manifests == s.manifests && r.cfg == s.cfg
      && (forall f :: Among(saved, f) ==> f in r.managers && |r.managers[f]| == |s.managers[f]|)
      && (forall f, i :: Among(saved, f) && 0 <= i < |s.managers[f]| ==>
            r.managers[f][i] == AfterResume(s.managers[f][i], s.manifests[f][i].size, true))
      && (forall f :: !Among(saved, f) ==> (f in r.managers <==> f in e.managers) && (f in e.managers ==> r.managers[f] == e.managers[f]))
    decreases |saved|
  {
    hide RightBytes, Restore, ImportAll, AfterResume;
    if saved != [] {
      var f := saved[0].0;
      OwnMapKept(s.cfg, f, s.manifests[f], s.managers[f], s.storage);
      assert forall k :: 0 <= k < |saved[1..]| ==> saved[1..][k] == saved[k + 1];
      RestoreAllMeaning(s, RestoreFile(e, f, saved[0].1), saved[1..]);
      AmongRest(saved);
    }
  }

  lemma AmongRest(saved: seq<(FileId, seq<Saved>)>)
    requires saved != []
    ensures forall f :: Among(saved, f) <==> f == saved[0].0 || Among(saved[1..], f)
  {
    var rest := saved[1..];
    forall f
      ensures Among(saved, f) <==> f == saved[0].0 || Among(rest, f)
    {
      if Among(saved, f) && f != saved[0].0 {
        var k :| 0 <= k < |saved| && saved[k].0 == f;
        assert rest[k - 1].0 == f;
      }
      if Among(rest, f) {
        var k :| 0 <= k < |rest| && rest[k].0 == f;
        assert saved[k + 1].0 == f;
      }
    }
  }

  /** The process ends and a new one joins from the maps that the last had saved: of every saved file the
      same pieces are verified, with the same bytes stored, and retries go on from where they were. */
  lemma RejoinKeepsVerified(e: Engine, acts: seq<Act>, saved: seq<(FileId, seq<Saved>)>, file: FileId)
    requires Start(e) && SavedBy(Session(e, acts), saved) && Among(saved, file)
    ensures var s, r := Session(e, acts), Session(e, acts + [Rejoin(saved)]);
      && file in e.manifests && file in s.managers && file in r.managers
      && |s.managers[file]| == |r.managers[file]| == |e.manifests[file]|
      && (forall i :: 0 <= i < |r.managers[file]| ==>
            r.managers[file][i] == AfterResume(s.managers[file][i], e.manifests[file][i].size, true))
      && (forall i :: 0 <= i < |r.managers[file]| ==>
            (r.managers[file][i].status == Verified <==> s.managers[file][i].status == Verified))
      && r.storage == s.storage && r.outstanding == map[] && r.issued == []
  {
    hide Session, Perform, RestoreAll, Start, Books, Integral, RightBytes, Restore, ImportAll;
    var s := Session(e, acts);
    ActSnoc(e, acts, Rejoin(saved));
    SessionKeeps(e, acts);
    forall f | f in s.manifests
      ensures f in s.managers && |s.managers[f]| == |s.manifests[f]|
      ensures forall i :: 0 <= i < |s.manifests[f]| && s.managers[f][i].status == Verified ==>
                RightBytes(s.cfg, s.manifests[f][i], s.storage, Piece(f, i))
    {
      VerifiedRight(e, acts, f);
    }
    RestoreAllMeaning(s, Restarted(s), saved);
    RestoreAllFrame(Restarted(s), saved);
  }

  /** Joining goes through the saved maps one by one: one of an unknown file is passed over, and one that does
      not fit its manifest ends the loop with what was restored so far. */
  lemma JoinMeaning(e: Engine, file: FileId, imported: seq<Saved>, rest: seq<(FileId, seq<Saved>)>)
    ensures var r := RestoreAll(e, [(file, imported)] + rest);
      if file !in e.manifests then r == RestoreAll(e, rest)
      else if |imported| != |e.manifests[file]| || (exists k :: 0 <= k < |imported| && imported[k].index >= |e.manifests[file]|) then r == e
      else r == RestoreAll(RestoreFile(e, file, imported), rest)
    ensures RestoreAll(e, []) == e
  {
    hide Restore;
    assert ([(file, imported)] + rest)[1..] == rest;
  }

  lemma {:induction false} RestoreAllFrame(e: Engine, saved: seq<(FileId, seq<Saved>)>)
    ensures var r := RestoreAll(e, saved); r.outstanding == e.outstanding && r.issued == e.issued
    decreases |saved|
  {
    hide Restore;
    if saved != [] {
      if saved[0].0 !in e.manifests {
        RestoreAllFrame(e, saved[1..]);
      } else if Fits(e.manifests[saved[0].0], saved[0].1) {
        RestoreAllFrame(RestoreFile(e, saved[0].0, saved[0].1), saved[1..]);
      }
    }
  }
}
