/** The Node storage adapter in offset mode: pieces written in place into one output file, with the set of
    pieces present saved beside it. */
module OffsetStore {
  import opened Common
  import opened Pieces

  type Path = nat

  /** Where a piece lies in its file. */
  datatype Place = Place(index: nat, offset: nat, size: nat)

  datatype Manifest = Manifest(file: FileId, size: nat, pieceSize: nat, pieces: seq<Place>)

  /** The saved state file; `layout` stands for the hash of the piece layout. */
  datatype SavedState = SavedState(
    size: nat, pieceSize: nat, layout: seq<Place>, path: Path, verified: set<nat>)

  datatype Output = Output(manifest: Manifest, path: Path, verified: set<nat>)

  /** `disk`, `states` and `parts` survive a restart; `outputs` is what the running process knows. */
  datatype Store = Store(
    disk: map<Path, Bytes>, states: map<FileId, SavedState>, parts: map<Piece, Bytes>, outputs: map<FileId, Output>)

  // ----- operations -----

  function FindPlace(pieces: seq<Place>, index: nat): (r: Option<Place>)
    ensures r.Some? ==> r.value in pieces && r.value.index == index
  {
    if pieces == [] then None
    else if pieces[0].index == index then Some(pieces[0])
    else FindPlace(pieces[1..], index)
  }

  /** A write at an offset; past the end the gap reads as zeros. */
  function WriteAt(content: Bytes, offset: nat, data: Bytes): Bytes {
    if offset + |data| <= |content| then content[..offset] + data + content[offset + |data|..]
    else if offset <= |content| then content[..offset] + data
    else content + seq(offset - |content|, _ => 0) + data
  }

  /** At most `size` bytes from an offset. */
  function ReadAt(content: Bytes, offset: nat, size: nat): Bytes {
    if offset >= |content| then [] else content[offset..Min(offset + size, |content|)]
  }

  function Truncate(content: Bytes, size: nat): (r: Bytes)
    ensures |r| == size
    ensures |content| == size ==> r == content
  {
    if |content| >= size then content[..size] else content + seq(size - |content|, _ => 0)
  }

  function SaveOutput(s: Store, file: FileId): Store
    requires file in s.outputs
  {
    var o := s.outputs[file];
    s.(states := s.states[file := SavedState(o.manifest.size, o.manifest.pieceSize, o.manifest.pieces, o.path, o.verified)])
  }

  /** The first half of a write in offset mode: bytes are in the file, the state is not yet saved. */
  function WriteBytes(s: Store, p: Piece, place: Place, data: Bytes): Store {
    if p.file !in s.outputs || s.outputs[p.file].path !in s.disk then s
    else
      var path := s.outputs[p.file].path;
      s.(disk := s.disk[path := WriteAt(s.disk[path], place.offset, data)])
  }

  /** The second half of a write or a deletion: the set of pieces present changes and is saved. */
  function Noted(s: Store, file: FileId, verified: set<nat>): Store
    requires file in s.outputs
  {
    SaveOutput(s.(outputs := s.outputs[file := s.outputs[file].(verified := verified)]), file)
  }

  /** `writePiece`; the flag is false where it throws: an unknown piece, data of the wrong size, or no
      output file. */
  function Write(s: Store, p: Piece, data: Bytes): (Store, bool) {
    if p.file in s.outputs then
      var o := s.outputs[p.file];
      var place := FindPlace(o.manifest.pieces, p.index);
      if place.None? || |data| != place.value.size || o.path !in s.disk then (s, false)
      else (Noted(WriteBytes(s, p, place.value, data), p.file, o.verified + {p.index}), true)
    else (s.(parts := s.parts[p := data]), true)
  }

  /** `readPiece`. Nothing is read, either, where opening a missing output file throws. */
  function Read(s: Store, p: Piece): Option<Bytes> {
    if p.file in s.outputs then
      var o := s.outputs[p.file];
      var place := FindPlace(o.manifest.pieces, p.index);
      if p.index !in o.verified || place.None? || o.path !in s.disk then None
      else Some(ReadAt(s.disk[o.path], place.value.offset, place.value.size))
    else if p in s.parts then Some(s.parts[p]) else None
  }

  /** `hasPiece`. */
  predicate HasPiece(s: Store, p: Piece) {
    if p.file in s.outputs then p.index in s.outputs[p.file].verified else p in s.parts
  }

  /** `deletePiece`. */
  function Delete(s: Store, p: Piece): Store {
    if p.file in s.outputs then Noted(s, p.file, s.outputs[p.file].verified - {p.index})
    else s.(parts := s.parts - {p})
  }

  predicate Matches(saved: SavedState, m: Manifest, path: Path) {
    saved.path == path && saved.size == m.size && saved.pieceSize == m.pieceSize && saved.layout == m.pieces
  }

  /** `prepareOutputFile`: the file gets its final size, and what was saved for the same file, place and
      layout counts as present. */
  function Prepare(s: Store, m: Manifest, path: Path): Store {
    var content := Truncate(if path in s.disk then s.disk[path] else [], m.size);
    var verified := if m.file in s.states && Matches(s.states[m.file], m, path) then s.states[m.file].verified else {};
    SaveOutput(s.(disk := s.disk[path := content], outputs := s.outputs[m.file := Output(m, path, verified)]), m.file)
  }

  /** A new process over the same disk. */
  function Restart(s: Store): Store {
    s.(outputs := map[])
  }

  /** `assembleFile`, piece by piece. */
  function Assemble(s: Store, file: FileId, pieces: seq<Place>): Option<Bytes> {
    if pieces == [] then Some([])
    else
      var n := |pieces| - 1;
      var before, last := Assemble(s, file, pieces[..n]), Read(s, Piece(file, pieces[n].index));
      if before.None? || last.None? then None else Some(before.value + last.value)
  }

  // ----- what a store holds -----

  /** The pieces lie within the file, one after the other, without overlap, numbered from zero. */
  ghost predicate Laid(m: Manifest) {
    && (forall i :: 0 <= i < |m.pieces| ==> m.pieces[i].index == i && m.pieces[i].offset + m.pieces[i].size <= m.size)
    && (forall i, j :: 0 <= i < j < |m.pieces| ==> m.pieces[i].offset + m.pieces[i].size <= m.pieces[j].offset)
  }

  /** They leave no gap. */
  ghost predicate Tiles(m: Manifest) {
    (forall i :: 0 <= i < |m.pieces| ==> Adjoins(m, i)) && End(m, |m.pieces|) == m.size
  }

  predicate Adjoins(m: Manifest, i: nat)
    requires i < |m.pieces|
  {
    m.pieces[i].index == i && m.pieces[i].offset == End(m, i)
  }

  function End(m: Manifest, n: nat): nat
    requires n <= |m.pieces|
  {
    if n == 0 then 0 else m.pieces[n - 1].offset + m.pieces[n - 1].size
  }

  lemma {:induction false} EndsGrow(m: Manifest, i: nat, n: nat)
    requires Tiles(m) && i <= n <= |m.pieces|
    ensures End(m, i) <= End(m, n)
  {
    hide End;
    if i < n {
      EndsGrow(m, i, n - 1);
      EndNext(m, n - 1);
    }
  }

  lemma EndNext(m: Manifest, i: nat)
    requires Tiles(m) && i < |m.pieces|
    ensures m.pieces[i].index == i && m.pieces[i].offset == End(m, i)
    ensures End(m, i + 1) == End(m, i) + m.pieces[i].size
  {
    assert Adjoins(m, i);
    hide Tiles;
  }

  lemma TilesAreLaid(m: Manifest)
    requires Tiles(m)
    ensures Laid(m)
  {
    hide End, Tiles;
    assert End(m, |m.pieces|) == m.size by { EndIsSize(m); }
    forall i | 0 <= i < |m.pieces|
      ensures m.pieces[i].index == i && m.pieces[i].offset + m.pieces[i].size <= m.size
    {
      EndNext(m, i);
      EndsGrow(m, i + 1, |m.pieces|);
    }
    forall i, j | 0 <= i < j < |m.pieces|
      ensures m.pieces[i].offset + m.pieces[i].size <= m.pieces[j].offset
    {
      EndNext(m, i);
      EndNext(m, j);
      EndsGrow(m, i + 1, j);
    }
  }

  lemma EndIsSize(m: Manifest)
    requires Tiles(m)
    ensures End(m, |m.pieces|) == m.size
  {
  }

  lemma {:induction false} FindLaid(pieces: seq<Place>, from: nat, index: nat)
    requires forall i :: 0 <= i < |pieces| ==> pieces[i].index == from + i
    ensures FindPlace(pieces, index) == if from <= index < from + |pieces| then Some(pieces[index - from]) else None
  {
    if pieces != [] && pieces[0].index != index {
      FindLaid(pieces[1..], from + 1, index);
    }
  }

  /** For each file that is ever prepared: its manifest and its output path. */
  type Catalogue = map<FileId, (Manifest, Path)>

  /** Every file has an output file of its own. */
  ghost predicate Sound(cat: Catalogue) {
    && (forall f :: f in cat ==> cat[f].0.file == f && Laid(cat[f].0))
    && (forall f, g :: f in cat && g in cat && f != g ==> cat[f].1 != cat[g].1)
  }

  /** A state saved for the file, its layout and its place. */
  predicate OnRecord(cat: Catalogue, s: Store, f: FileId)
    requires f in cat
  {
    f in s.states && Matches(s.states[f], cat[f].0, cat[f].1)
  }

  /** The output file has its full size, the pieces recorded are pieces of the file, and a process that
      prepared the file has the same record. */
  ghost predicate Backed(cat: Catalogue, s: Store, f: FileId)
    requires f in cat && f in s.states
  {
    var (m, path) := cat[f];
    && path in s.disk && |s.disk[path]| == m.size
    && (forall i :: i in s.states[f].verified ==> i < |m.pieces|)
    && (f in s.outputs ==> s.outputs[f] == Output(m, path, s.states[f].verified))
  }

  /** A file without a matching record has not been prepared by this process; whatever lies at its
      output path, or was saved for another layout, does not matter. */
  ghost predicate Intact(cat: Catalogue, s: Store, f: FileId)
    requires f in cat
  {
    if OnRecord(cat, s, f) then Backed(cat, s, f) else f !in s.outputs
  }

  ghost predicate Valid(cat: Catalogue, s: Store) {
    s.outputs.Keys <= cat.Keys && forall f :: f in cat ==> Intact(cat, s, f)
  }

  predicate Known(cat: Catalogue, p: Piece) {
    p.file in cat && p.index < |cat[p.file].0.pieces|
  }

  function PlaceOf(cat: Catalogue, p: Piece): Place
    requires Known(cat, p)
  {
    cat[p.file].0.pieces[p.index]
  }

  /** The bytes at the place of a piece, if its output file reaches that far. */
  function BytesAt(cat: Catalogue, s: Store, p: Piece): Option<Bytes>
    requires Known(cat, p)
  {
    var path, place := cat[p.file].1, PlaceOf(cat, p);
    if path in s.disk && place.offset + place.size <= |s.disk[path]|
    then Some(s.disk[path][place.offset..place.offset + place.size]) else None
  }

  /** Two plain maps: the pieces kept in output files and those kept one by one; and the files prepared
      by the running process, for which the first map answers. */
  datatype Model = Model(offset: map<Piece, Bytes>, parts: map<Piece, Bytes>, live: set<FileId>)

  predicate HeldAs(cat: Catalogue, s: Store, offset: map<Piece, Bytes>, p: Piece) {
    if p.file in cat && OnRecord(cat, s, p.file) then
      && (p in offset <==> p.index in s.states[p.file].verified)
      && (p in offset ==> Known(cat, p) && BytesAt(cat, s, p) == Some(offset[p]))
    else p !in offset
  }

  ghost predicate Holds(cat: Catalogue, s: Store, model: Model) {
    model.parts == s.parts && model.live == s.outputs.Keys && forall p: Piece :: HeldAs(cat, s, model.offset, p)
  }

  // ----- one operation -----

  lemma WriteAtSlices(content: Bytes, offset: nat, data: Bytes, from: nat, to: nat)
    requires offset + |data| <= |content| && from <= to <= |content|
    ensures |WriteAt(content, offset, data)| == |content|
    ensures to <= offset || offset + |data| <= from ==> WriteAt(content, offset, data)[from..to] == content[from..to]
    ensures from == offset && offset + |data| <= to ==>
      WriteAt(content, offset, data)[from..to] == data + content[from..to][|data|..]
  {
    var w := WriteAt(content, offset, data);
    if offset + |data| <= from {
      assert w[from..to] == content[from..to];
    } else if from == offset && offset + |data| <= to {
      assert w[from..to] == data + content[from + |data|..to];
    }
  }

  lemma PlaceFound(cat: Catalogue, p: Piece)
    requires Sound(cat) && p.file in cat
    ensures FindPlace(cat[p.file].0.pieces, p.index) == if Known(cat, p) then Some(PlaceOf(cat, p)) else None
  {
    FindLaid(cat[p.file].0.pieces, 0, p.index);
  }

  lemma InFile(cat: Catalogue, p: Piece)
    requires Sound(cat) && Known(cat, p)
    ensures PlaceOf(cat, p).offset + PlaceOf(cat, p).size <= cat[p.file].0.size
    ensures forall q :: Known(cat, q) && q.file == p.file && q.index < p.index ==>
      PlaceOf(cat, q).offset + PlaceOf(cat, q).size <= PlaceOf(cat, p).offset
  {
    assert Laid(cat[p.file].0);
  }

  lemma OtherPath(cat: Catalogue, f: FileId, g: FileId)
    requires Sound(cat) && f in cat && g in cat && f != g
    ensures cat[f].1 != cat[g].1
  {
  }

  /** A prepared file is on record and backed. */
  lemma LiveFile(cat: Catalogue, s: Store, f: FileId)
    requires Valid(cat, s) && f in s.outputs
    ensures f in cat && OnRecord(cat, s, f) && Backed(cat, s, f)
  {
    assert Intact(cat, s, f);
  }

  /** Bytes written at the start of a piece's place change that much of the piece, and nothing else. */
  lemma BytesWritten(cat: Catalogue, s: Store, p: Piece, data: Bytes, q: Piece)
    requires Sound(cat) && Known(cat, p) && Known(cat, q) && p.file in s.outputs
    requires OnRecord(cat, s, p.file) && Backed(cat, s, p.file) && |data| <= PlaceOf(cat, p).size
    ensures BytesAt(cat, s, p).Some? && |BytesAt(cat, s, p).value| == PlaceOf(cat, p).size
    ensures var w := WriteBytes(s, p, PlaceOf(cat, p), data);
      BytesAt(cat, w, q) == if q == p then Some(data + BytesAt(cat, s, p).value[|data|..]) else BytesAt(cat, s, q)
  {
    hide Sound, WriteAt;
    var path := cat[p.file].1;
    var a, b := PlaceOf(cat, p), PlaceOf(cat, q);
    InFile(cat, p);
    InFile(cat, q);
    if q.file == p.file {
      WriteAtSlices(s.disk[path], a.offset, data, b.offset, b.offset + b.size);
      assert q.index == p.index ==> q == p;
    } else {
      OtherPath(cat, p.file, q.file);
    }
  }

  lemma BytesValid(cat: Catalogue, s: Store, p: Piece, data: Bytes)
    requires Sound(cat) && Valid(cat, s) && Known(cat, p) && p.file in s.outputs && |data| <= PlaceOf(cat, p).size
    ensures Valid(cat, WriteBytes(s, p, PlaceOf(cat, p), data))
  {
    hide Sound, WriteAt;
    LiveFile(cat, s, p.file);
    InFile(cat, p);
    WriteAtSlices(s.disk[cat[p.file].1], PlaceOf(cat, p).offset, data, 0, 0);
    var w := WriteBytes(s, p, PlaceOf(cat, p), data);
    forall f | f in cat
      ensures Intact(cat, w, f)
    {
      assert Intact(cat, s, f);
      if f != p.file {
        OtherPath(cat, f, p.file);
      }
    }
  }

  lemma NotedValid(cat: Catalogue, s: Store, f: FileId, verified: set<nat>)
    requires Valid(cat, s) && f in s.outputs && f in cat && forall i :: i in verified ==> i < |cat[f].0.pieces|
    ensures Valid(cat, Noted(s, f, verified))
  {
    LiveFile(cat, s, f);
    var w := Noted(s, f, verified);
    forall g | g in cat
      ensures Intact(cat, w, g)
    {
      assert Intact(cat, s, g);
    }
  }

  lemma SameBytes(cat: Catalogue, a: Store, b: Store, q: Piece)
    requires a.disk == b.disk && Known(cat, q)
    ensures BytesAt(cat, a, q) == BytesAt(cat, b, q)
  {
  }

  /** Only what is noted of the piece itself changes. */
  lemma NotedHeld(cat: Catalogue, s: Store, w: Store, offset: map<Piece, Bytes>, after: map<Piece, Bytes>, p: Piece, q: Piece)
    requires p.file in cat && p.file in s.outputs && p.file in w.outputs && OnRecord(cat, s, p.file) && Backed(cat, s, p.file)
    requires w.states == s.states && w.outputs == s.outputs && HeldAs(cat, s, offset, q)
    requires q != p ==> (q in after <==> q in offset) && (q in offset ==> after[q] == offset[q])
    requires q != p && Known(cat, q) ==> BytesAt(cat, w, q) == BytesAt(cat, s, q)
    requires p in after ==> Known(cat, p) && BytesAt(cat, w, p) == Some(after[p])
    ensures HeldAs(cat, Noted(w, p.file, if p in after then s.outputs[p.file].verified + {p.index} else s.outputs[p.file].verified - {p.index}), after, q)
  {
    hide BytesAt;
    var n := Noted(w, p.file, if p in after then s.outputs[p.file].verified + {p.index} else s.outputs[p.file].verified - {p.index});
    if Known(cat, q) {
      SameBytes(cat, w, n, q);
    }
    assert q.file == p.file && q.index == p.index ==> q == p;
  }

  /** Whether a write to a prepared file is taken. */
  predicate Fits(cat: Catalogue, p: Piece, data: Bytes) {
    Known(cat, p) && |data| == PlaceOf(cat, p).size
  }

  /** Writing one piece changes that piece only, in its own file and every other. */
  lemma WriteHolds(cat: Catalogue, s: Store, model: Model, p: Piece, data: Bytes)
    requires Sound(cat) && Valid(cat, s) && Holds(cat, s, model) && p.file in model.live
    ensures var (w, ok) := Write(s, p, data);
      && ok == Fits(cat, p, data) && Valid(cat, w)
      && Holds(cat, w, if ok then model.(offset := model.offset[p := data]) else model)
  {
    hide Sound, HeldAs, Noted, WriteBytes;
    LiveFile(cat, s, p.file);
    PlaceFound(cat, p);
    if Fits(cat, p, data) {
      var m := WriteBytes(s, p, PlaceOf(cat, p), data);
      BytesValid(cat, s, p, data);
      BytesFrame(s, p, PlaceOf(cat, p), data);
      NotedValid(cat, m, p.file, s.outputs[p.file].verified + {p.index});
      NotedFrame(m, p.file, s.outputs[p.file].verified + {p.index});
      var after := model.offset[p := data];
      BytesWritten(cat, s, p, data, p);
      assert data + BytesAt(cat, s, p).value[|data|..] == data;
      forall q: Piece
        ensures HeldAs(cat, Write(s, p, data).0, after, q)
      {
        assert HeldAs(cat, s, model.offset, q);
        if Known(cat, q) {
          BytesWritten(cat, s, p, data, q);
        }
        NotedHeld(cat, s, m, model.offset, after, p, q);
      }
    }
  }

  lemma BytesFrame(s: Store, p: Piece, place: Place, data: Bytes)
    ensures var w := WriteBytes(s, p, place, data); w == s.(disk := w.disk)
  {
  }

  lemma NotedFrame(s: Store, f: FileId, verified: set<nat>)
    requires f in s.outputs
    ensures var w := Noted(s, f, verified); w.parts == s.parts && w.outputs.Keys == s.outputs.Keys && w.disk == s.disk
  {
  }

  lemma PartsHold(cat: Catalogue, s: Store, model: Model, parts: map<Piece, Bytes>)
    requires Valid(cat, s) && Holds(cat, s, model)
    ensures Valid(cat, s.(parts := parts)) && Holds(cat, s.(parts := parts), model.(parts := parts))
  {
    var w := s.(parts := parts);
    forall f | f in cat
      ensures Intact(cat, w, f)
    {
      assert Intact(cat, s, f);
    }
    forall q: Piece
      ensures HeldAs(cat, w, model.offset, q)
    {
      assert HeldAs(cat, s, model.offset, q);
    }
  }

  lemma ReadHolds(cat: Catalogue, s: Store, model: Model, p: Piece)
    requires Sound(cat) && Valid(cat, s) && Holds(cat, s, model)
    ensures Read(s, p) == Answering(model, p) && (HasPiece(s, p) <==> Answering(model, p).Some?)
  {
    hide Sound;
    if p.file in s.outputs {
      assert HeldAs(cat, s, model.offset, p);
      LiveFile(cat, s, p.file);
      PlaceFound(cat, p);
      if p in model.offset {
        InFile(cat, p);
        var content, place := s.disk[cat[p.file].1], PlaceOf(cat, p);
        assert ReadAt(content, place.offset, place.size) == content[place.offset..place.offset + place.size];
      }
    }
  }

  lemma DeleteHolds(cat: Catalogue, s: Store, model: Model, p: Piece)
    requires Valid(cat, s) && Holds(cat, s, model) && p.file in model.live
    ensures Valid(cat, Delete(s, p)) && Holds(cat, Delete(s, p), model.(offset := model.offset - {p}))
  {
    hide HeldAs, Noted;
    LiveFile(cat, s, p.file);
    NotedValid(cat, s, p.file, s.outputs[p.file].verified - {p.index});
    NotedFrame(s, p.file, s.outputs[p.file].verified - {p.index});
    forall q: Piece
      ensures HeldAs(cat, Delete(s, p), model.offset - {p}, q)
    {
      assert HeldAs(cat, s, model.offset, q);
      NotedHeld(cat, s, s, model.offset, model.offset - {p}, p, q);
    }
  }

  // ----- preparing, and restarts -----

  /** Preparing a file that is on record finds everything as it was left. */
  lemma PrepareKnown(cat: Catalogue, s: Store, f: FileId)
    requires f in cat && cat[f].0.file == f && OnRecord(cat, s, f) && Backed(cat, s, f)
    ensures Prepare(s, cat[f].0, cat[f].1) == s.(outputs := s.outputs[f := Output(cat[f].0, cat[f].1, s.states[f].verified)])
  {
    var p := Prepare(s, cat[f].0, cat[f].1);
    assert p.disk == s.disk;
    assert p.states == s.states;
  }

  lemma PrepareValid(cat: Catalogue, s: Store, f: FileId)
    requires Sound(cat) && Valid(cat, s) && f in cat
    ensures Valid(cat, Prepare(s, cat[f].0, cat[f].1))
  {
    hide Truncate;
    assert cat[f].0.file == f;
    assert Intact(cat, s, f);
    var r := Prepare(s, cat[f].0, cat[f].1);
    if OnRecord(cat, s, f) {
      PrepareKnown(cat, s, f);
    }
    forall g | g in cat
      ensures Intact(cat, r, g)
    {
      assert Intact(cat, s, g);
      if g != f {
        OtherPath(cat, f, g);
      }
    }
  }

  lemma PrepareHolds(cat: Catalogue, s: Store, model: Model, f: FileId)
    requires Sound(cat) && Valid(cat, s) && Holds(cat, s, model) && f in cat
    ensures Holds(cat, Prepare(s, cat[f].0, cat[f].1), model.(live := model.live + {f}))
  {
    hide Truncate;
    assert cat[f].0.file == f;
    assert Intact(cat, s, f);
    var r := Prepare(s, cat[f].0, cat[f].1);
    assert r.outputs.Keys == s.outputs.Keys + {f};
    if OnRecord(cat, s, f) {
      PrepareKnown(cat, s, f);
    }
    forall q: Piece
      ensures HeldAs(cat, r, model.offset, q)
    {
      assert HeldAs(cat, s, model.offset, q);
      if q.file in cat && q.file != f {
        OtherPath(cat, f, q.file);
      }
    }
  }

  lemma RestartHolds(cat: Catalogue, s: Store, model: Model)
    requires Valid(cat, s) && Holds(cat, s, model)
    ensures Valid(cat, Restart(s)) && Holds(cat, Restart(s), model.(live := {}))
  {
    var r := Restart(s);
    forall f | f in cat
      ensures Intact(cat, r, f)
    {
      assert Intact(cat, s, f);
    }
    forall q: Piece
      ensures HeldAs(cat, r, model.offset, q)
    {
      assert HeldAs(cat, s, model.offset, q);
    }
  }

  const EmptyStore := Store(map[], map[], map[], map[])

  lemma EmptyHolds(cat: Catalogue)
    ensures Valid(cat, EmptyStore) && Holds(cat, EmptyStore, Model(map[], map[], {}))
  {
  }

  // ----- any interleaving -----

  datatype Op =
    | WriteOp(piece: Piece, data: Bytes) | ReadOp(piece: Piece) | HasOp(piece: Piece) | DeleteOp(piece: Piece)
    | PrepareOp(file: FileId) | RestartOp

  datatype Answer = Wrote(ok: bool) | Got(data: Option<Bytes>) | Has(has: bool) | Done

  predicate Proper(cat: Catalogue, op: Op) {
    op.PrepareOp? ==> op.file in cat
  }

  function Perform(cat: Catalogue, s: Store, op: Op): (Store, Answer)
    requires Proper(cat, op)
  {
    match op
    case WriteOp(p, data) => (Write(s, p, data).0, Wrote(Write(s, p, data).1))
    case ReadOp(p) => (s, Got(Read(s, p)))
    case HasOp(p) => (s, Has(HasPiece(s, p)))
    case DeleteOp(p) => (Delete(s, p), Done)
    case PrepareOp(f) => (Prepare(s, cat[f].0, cat[f].1), Done)
    case RestartOp => (Restart(s), Done)
  }

  /** What the map that answers for the piece has for it. */
  function Answering(model: Model, p: Piece): Option<Bytes> {
    var m := if p.file in model.live then model.offset else model.parts;
    if p in m then Some(m[p]) else None
  }

  /** The same operation on two plain maps; preparing and restarting only decide which of them answers. */
  function PerformPlain(cat: Catalogue, model: Model, op: Op): (Model, Answer) {
    match op
    case WriteOp(p, data) =>
      if p.file !in model.live then (model.(parts := model.parts[p := data]), Wrote(true))
      else if Fits(cat, p, data) then (model.(offset := model.offset[p := data]), Wrote(true))
      else (model, Wrote(false))
    case ReadOp(p) => (model, Got(Answering(model, p)))
    case HasOp(p) => (model, Has(Answering(model, p).Some?))
    case DeleteOp(p) =>
      if p.file in model.live then (model.(offset := model.offset - {p}), Done) else (model.(parts := model.parts - {p}), Done)
    case PrepareOp(f) => (model.(live := model.live + {f}), Done)
    case RestartOp => (model.(live := {}), Done)
  }

  function Run(cat: Catalogue, s: Store, ops: seq<Op>): (Store, seq<Answer>)
    requires forall k :: 0 <= k < |ops| ==> Proper(cat, ops[k])
  {
    if ops == [] then (s, [])
    else
      var (before, answers) := Run(cat, s, ops[..|ops| - 1]);
      var (after, answer) := Perform(cat, before, ops[|ops| - 1]);
      (after, answers + [answer])
  }

  function RunPlain(cat: Catalogue, model: Model, ops: seq<Op>): (Model, seq<Answer>) {
    if ops == [] then (model, [])
    else
      var (before, answers) := RunPlain(cat, model, ops[..|ops| - 1]);
      var (after, answer) := PerformPlain(cat, before, ops[|ops| - 1]);
      (after, answers + [answer])
  }

  lemma LiveIsPrepared(cat: Catalogue, s: Store, model: Model, f: FileId)
    requires Holds(cat, s, model)
    ensures f in model.live <==> f in s.outputs
    ensures model.parts == s.parts
  {
  }

  lemma PerformAgrees(cat: Catalogue, s: Store, model: Model, op: Op)
    requires Sound(cat) && Valid(cat, s) && Holds(cat, s, model) && Proper(cat, op)
    ensures var (t, answer) := Perform(cat, s, op); var (after, plain) := PerformPlain(cat, model, op);
      Valid(cat, t) && Holds(cat, t, after) && answer == plain
  {
    hide Sound, Valid, Holds, Read, HasPiece, Prepare, Fits, FindPlace, Noted, WriteBytes;
    match op
    case WriteOp(p, data) =>
      LiveIsPrepared(cat, s, model, p.file);
      if p.file in model.live {
        WriteHolds(cat, s, model, p, data);
      } else {
        PartsHold(cat, s, model, s.parts[p := data]);
      }
    case ReadOp(p) => ReadHolds(cat, s, model, p);
    case HasOp(p) => ReadHolds(cat, s, model, p);
    case DeleteOp(p) =>
      LiveIsPrepared(cat, s, model, p.file);
      if p.file in model.live {
        DeleteHolds(cat, s, model, p);
      } else {
        PartsHold(cat, s, model, s.parts - {p});
      }
    case PrepareOp(f) =>
      PrepareValid(cat, s, f);
      PrepareHolds(cat, s, model, f);
    case RestartOp => RestartHolds(cat, s, model);
  }

  /** Whatever the order of writes, reads, queries, deletions, preparations and restarts, over any number
      of files, from an empty store or any other valid one: it answers as two plain maps from pieces to
      bytes, one for the files prepared since the last restart and one for the others. */
  lemma {:induction false} StoreIsPlainMap(cat: Catalogue, s: Store, model: Model, ops: seq<Op>)
    requires Sound(cat) && Valid(cat, s) && Holds(cat, s, model)
    requires forall k :: 0 <= k < |ops| ==> Proper(cat, ops[k])
    ensures var (t, answers) := Run(cat, s, ops); var (after, plain) := RunPlain(cat, model, ops);
      Valid(cat, t) && Holds(cat, t, after) && answers == plain
  {
    hide Sound, Valid, Holds, Perform, PerformPlain;
    if ops != [] {
      var n := |ops| - 1;
      StoreIsPlainMap(cat, s, model, ops[..n]);
      PerformAgrees(cat, Run(cat, s, ops[..n]).0, RunPlain(cat, model, ops[..n]).0, ops[n]);
    }
  }

  /** A crash in the middle of a write, when some first bytes are in the output file and nothing has been
      saved: a piece that was not there is still not there, one that was has just those bytes replaced,
      and nothing else changes. */
  lemma CrashInWrite(cat: Catalogue, s: Store, model: Model, p: Piece, data: Bytes, written: nat)
    requires Sound(cat) && Valid(cat, s) && Holds(cat, s, model)
    requires p.file in model.live && Fits(cat, p, data) && written <= |data|
    ensures p in model.offset ==> |model.offset[p]| == |data|
    ensures var r := Restart(WriteBytes(s, p, PlaceOf(cat, p), data[..written]));
      && Valid(cat, r)
      && Holds(cat, r, model.(live := {}, offset :=
           if p in model.offset then model.offset[p := data[..written] + model.offset[p][written..]] else model.offset))
  {
    hide Sound, HeldAs, WriteBytes;
    LiveFile(cat, s, p.file);
    BytesValid(cat, s, p, data[..written]);
    BytesFrame(s, p, PlaceOf(cat, p), data[..written]);
    var w := WriteBytes(s, p, PlaceOf(cat, p), data[..written]);
    BytesWritten(cat, s, p, data[..written], p);
    HeldBytes(cat, s, model, p);
    var after := if p in model.offset then model.offset[p := data[..written] + model.offset[p][written..]] else model.offset;
    forall q: Piece
      ensures HeldAs(cat, w, after, q)
    {
      assert HeldAs(cat, s, model.offset, q);
      if Known(cat, q) {
        BytesWritten(cat, s, p, data[..written], q);
      }
      TornHeld(cat, s, w, model.offset, after, p, q);
    }
    RestartHolds(cat, w, model.(offset := after));
  }

  lemma TornHeld(cat: Catalogue, s: Store, w: Store, offset: map<Piece, Bytes>, after: map<Piece, Bytes>, p: Piece, q: Piece)
    requires w == s.(disk := w.disk) && HeldAs(cat, s, offset, q)
    requires q in after <==> q in offset
    requires q in offset && q != p ==> after[q] == offset[q]
    requires q != p && Known(cat, q) ==> BytesAt(cat, w, q) == BytesAt(cat, s, q)
    requires p in after && Known(cat, p) ==> BytesAt(cat, w, p) == Some(after[p])
    ensures HeldAs(cat, w, after, q)
  {
    hide BytesAt;
  }

  /** A whole write that is not saved, or a write of the bytes already there, leaves the old or the new. */
  lemma CrashKeepsOneOrOther(cat: Catalogue, s: Store, model: Model, p: Piece, data: Bytes, written: nat)
    requires Sound(cat) && Valid(cat, s) && Holds(cat, s, model)
    requires p.file in model.live && Fits(cat, p, data) && written <= |data|
    ensures p in model.offset ==> |model.offset[p]| == |data|
    ensures var r := Restart(WriteBytes(s, p, PlaceOf(cat, p), data[..written]));
      && Valid(cat, r)
      && (Holds(cat, r, model.(live := {})) || Holds(cat, r, model.(live := {}, offset := model.offset[p := data]))
          <==> p !in model.offset || data[..written] == model.offset[p][..written] || data[written..] == model.offset[p][written..])
  {
    hide Sound, WriteBytes, Valid;
    CrashInWrite(cat, s, model, p, data, written);
    var r := Restart(WriteBytes(s, p, PlaceOf(cat, p), data[..written]));
    if p in model.offset {
      var was := model.offset[p];
      var torn := data[..written] + was[written..];
      assert torn[..written] == data[..written] && torn[written..] == was[written..];
      assert was == was[..written] + was[written..] && data == data[..written] + data[written..];
      assert model.offset[p := was] == model.offset;
      OneValue(cat, r, model.(live := {}, offset := model.offset[p := torn]), model.(live := {}), p);
      OneValue(cat, r, model.(live := {}, offset := model.offset[p := torn]), model.(live := {}, offset := model.offset[p := data]), p);
    }
  }

  lemma OneValue(cat: Catalogue, s: Store, a: Model, b: Model, p: Piece)
    requires Holds(cat, s, a) && p in a.offset && p in b.offset
    ensures Holds(cat, s, b) ==> a.offset[p] == b.offset[p]
  {
    hide BytesAt;
    assert HeldAs(cat, s, a.offset, p);
    if Holds(cat, s, b) {
      assert HeldAs(cat, s, b.offset, p);
    }
  }

  // ----- the output file -----

  lemma {:induction false} AssemblesUpTo(cat: Catalogue, s: Store, model: Model, f: FileId, n: nat)
    requires Sound(cat) && Valid(cat, s) && Holds(cat, s, model) && f in model.live && f in cat && Tiles(cat[f].0) && n <= |cat[f].0.pieces|
    requires forall i: nat :: i < n ==> Piece(f, i) in model.offset
    requires cat[f].1 in s.disk && |s.disk[cat[f].1]| == cat[f].0.size
    ensures End(cat[f].0, n) <= cat[f].0.size
    ensures Assemble(s, f, cat[f].0.pieces[..n]) == Some(s.disk[cat[f].1][..End(cat[f].0, n)])
  {
    hide Sound, Valid, Holds, Tiles, Read, End, HeldAs;
    var m := cat[f].0;
    EndsGrow(m, n, |m.pieces|);
    EndIsSize(m);
    if n > 0 {
      AssemblesUpTo(cat, s, model, f, n - 1);
      EndNext(m, n - 1);
      assert m.pieces[..n][..n - 1] == m.pieces[..n - 1];
      ReadHolds(cat, s, model, Piece(f, n - 1));
      HeldBytes(cat, s, model, Piece(f, n - 1));
      var content, e := s.disk[cat[f].1], End(m, n - 1);
      assert m.pieces[..n][n - 1] == m.pieces[n - 1];
      assert model.offset[Piece(f, n - 1)] == content[e..e + m.pieces[n - 1].size];
      assert content[..e] + content[e..e + m.pieces[n - 1].size] == content[..End(m, n)];
    } else {
      assert End(m, 0) == 0 by { EndStart(m); }
    }
  }

  lemma EndStart(m: Manifest)
    ensures End(m, 0) == 0
  {
  }

  lemma HeldBytes(cat: Catalogue, s: Store, model: Model, p: Piece)
    requires Holds(cat, s, model)
    ensures p in model.offset ==> Known(cat, p) && BytesAt(cat, s, p) == Some(model.offset[p])
  {
    assert HeldAs(cat, s, model.offset, p);
  }

  /** Once every piece of a tiling manifest is present, the assembled file is the output file as it lies
      on the disk. */
  lemma OutputIsAssembled(cat: Catalogue, s: Store, model: Model, f: FileId)
    requires Sound(cat) && Valid(cat, s) && Holds(cat, s, model) && f in model.live && f in cat && Tiles(cat[f].0)
    requires forall i: nat :: i < |cat[f].0.pieces| ==> Piece(f, i) in model.offset
    ensures cat[f].1 in s.disk && Assemble(s, f, cat[f].0.pieces) == Some(s.disk[cat[f].1])
  {
    var m := cat[f].0;
    LiveFile(cat, s, f);
    EndIsSize(m);
    AssemblesUpTo(cat, s, model, f, |m.pieces|);
    assert m.pieces[..|m.pieces|] == m.pieces;
    assert s.disk[cat[f].1][..End(m, |m.pieces|)] == s.disk[cat[f].1];
  }

  // ----- the adapter -----

  class NodeFileStorageAdapter {
    var disk: map<Path, Bytes>
    var states: map<FileId, SavedState>
    var parts: map<Piece, Bytes>
    var offsetOutputs: map<FileId, Output>

    ghost function Abs(): Store
      reads this
    {
      Store(disk, states, parts, offsetOutputs)
    }

    constructor (disk: map<Path, Bytes>, states: map<FileId, SavedState>, parts: map<Piece, Bytes>)
      ensures Abs() == Store(disk, states, parts, map[])
    {
      this.disk, this.states, this.parts, offsetOutputs := disk, states, parts, map[];
    }

    method Find(pieces: seq<Place>, index: nat) returns (place: Option<Place>)
      ensures place == FindPlace(pieces, index)
    {
      for k := 0 to |pieces|
        invariant FindPlace(pieces, index) == FindPlace(pieces[k..], index)
      {
        if pieces[k].index == index {
          return Some(pieces[k]);
        }
      }
      place := None;
    }

    method SaveOffsetOutputState(file: FileId)
      requires file in offsetOutputs
      modifies this`states
      ensures Abs() == SaveOutput(old(Abs()), file)
    {
      var o := offsetOutputs[file];
      states := states[file := SavedState(o.manifest.size, o.manifest.pieceSize, o.manifest.pieces, o.path, o.verified)];
    }

    method WritePiece(p: Piece, data: Bytes) returns (ok: bool)
      modifies this
      ensures (Abs(), ok) == Write(old(Abs()), p, data)
    {
      ok := true;
      if p.file in offsetOutputs {
        var o := offsetOutputs[p.file];
        var place := Find(o.manifest.pieces, p.index);
        if place.None? || |data| != place.value.size || o.path !in disk {
          return false;
        }
        disk := disk[o.path := WriteAt(disk[o.path], place.value.offset, data)];
        offsetOutputs := offsetOutputs[p.file := o.(verified := o.verified + {p.index})];
        SaveOffsetOutputState(p.file);
      } else {
        parts := parts[p := data];
      }
    }

    method ReadPiece(p: Piece) returns (data: Option<Bytes>)
      ensures data == Read(Abs(), p)
    {
      if p.file in offsetOutputs {
        var o := offsetOutputs[p.file];
        if p.index !in o.verified {
          return None;
        }
        var place := Find(o.manifest.pieces, p.index);
        if place.None? || o.path !in disk {
          return None;
        }
        return Some(ReadAt(disk[o.path], place.value.offset, place.value.size));
      }
      data := if p in parts then Some(parts[p]) else None;
    }

    method Contains(p: Piece) returns (has: bool)
      ensures has == HasPiece(Abs(), p)
    {
      if p.file in offsetOutputs {
        return p.index in offsetOutputs[p.file].verified;
      }
      has := p in parts;
    }

    method DeletePiece(p: Piece)
      modifies this
      ensures Abs() == Delete(old(Abs()), p)
    {
      if p.file in offsetOutputs {
        var o := offsetOutputs[p.file];
        offsetOutputs := offsetOutputs[p.file := o.(verified := o.verified - {p.index})];
        SaveOffsetOutputState(p.file);
      } else {
        parts := parts - {p};
      }
    }

    method PrepareOutputFile(m: Manifest, path: Path)
      modifies this
      ensures Abs() == Prepare(old(Abs()), m, path)
    {
      disk := disk[path := Truncate(if path in disk then disk[path] else [], m.size)];
      var verified := {};
      if m.file in states && Matches(states[m.file], m, path) {
        verified := states[m.file].verified;
      }
      offsetOutputs := offsetOutputs[m.file := Output(m, path, verified)];
      SaveOffsetOutputState(m.file);
    }

    method AssembleFile(file: FileId, pieces: seq<Place>) returns (data: Option<Bytes>)
      ensures data == Assemble(Abs(), file, pieces)
    {
      var blob: Bytes := [];
      for i := 0 to |pieces|
        invariant Assemble(Abs(), file, pieces[..i]) == Some(blob)
      {
        assert pieces[..i + 1][..i] == pieces[..i];
        var part := ReadPiece(Piece(file, pieces[i].index));
        if part.None? {
          MissingIsFinal(Abs(), file, pieces, i);
          return None;
        }
        blob := blob + part.value;
      }
      assert pieces[..|pieces|] == pieces;
      data := Some(blob);
    }
  }

  lemma {:induction false} MissingIsFinal(s: Store, file: FileId, pieces: seq<Place>, i: nat)
    requires i < |pieces| && Read(s, Piece(file, pieces[i].index)).None?
    ensures Assemble(s, file, pieces).None?
  {
    var n := |pieces| - 1;
    if i < n {
      MissingIsFinal(s, file, pieces[..n], i);
    }
  }
}
