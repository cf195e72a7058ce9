/** Each operation of the offset store, byte by byte and record by record. */
module OffsetMeaning {
  import opened Common
  import opened Pieces
  import opened OffsetStore

  /** What lies at a path; nothing if there is no file. */
  function Content(s: Store, path: Path): Bytes {
    if path in s.disk then s.disk[path] else []
  }

  /** Nothing but these entries changed, for one file and one path. */
  ghost predicate Elsewhere(a: Store, b: Store, file: FileId, path: Path) {
    && (forall q :: q != path ==> (q in b.disk <==> q in a.disk) && (q in a.disk ==> b.disk[q] == a.disk[q]))
    && (forall f :: f != file ==> (f in b.states <==> f in a.states) && (f in a.states ==> b.states[f] == a.states[f]))
    && (forall f :: f != file ==> (f in b.outputs <==> f in a.outputs) && (f in a.outputs ==> b.outputs[f] == a.outputs[f]))
    && b.parts == a.parts
  }

  /** The record saved for a file speaks of the same path, size, piece size and places. */
  predicate SameLayout(s: Store, m: Manifest, path: Path) {
    && m.file in s.states && s.states[m.file].path == path && s.states[m.file].size == m.size
    && s.states[m.file].pieceSize == m.pieceSize && s.states[m.file].layout == m.pieces
  }

  /** Preparing gives the file its final size, cutting it off or filling it up with zeros, and trusts the record
      of pieces present exactly if it was saved for the same layout at the same path. */
  lemma PrepareMeaning(s: Store, m: Manifest, path: Path)
    ensures var r, c := Prepare(s, m, path), Content(s, path);
      var present := if SameLayout(s, m, path) then s.states[m.file].verified else {};
      && path in r.disk && |r.disk[path]| == m.size
      && (forall k :: 0 <= k < m.size ==> r.disk[path][k] == if k < |c| then c[k] else 0)
      && m.file in r.outputs && r.outputs[m.file] == Output(m, path, present)
      && m.file in r.states && r.states[m.file] == SavedState(m.size, m.pieceSize, m.pieces, path, present)
      && Elsewhere(s, r, m.file, path)
  {
  }

  /** The first place listed for an index. */
  ghost predicate FirstPlace(pieces: seq<Place>, index: nat, k: nat) {
    k < |pieces| && pieces[k].index == index && forall j :: 0 <= j < k ==> pieces[j].index != index
  }

  lemma {:induction false} FindsFirst(pieces: seq<Place>, index: nat)
    ensures FindPlace(pieces, index).None? <==> forall k :: 0 <= k < |pieces| ==> pieces[k].index != index
    ensures forall k: nat :: FirstPlace(pieces, index, k) ==> FindPlace(pieces, index) == Some(pieces[k])
    ensures FindPlace(pieces, index).Some? ==> exists k: nat :: FirstPlace(pieces, index, k)
  {
    if pieces != [] {
      var rest := pieces[1..];
      FindsFirst(rest, index);
      assert forall k :: 0 < k < |pieces| ==> pieces[k] == rest[k - 1];
      if pieces[0].index == index {
        assert FirstPlace(pieces, index, 0);
        assert forall k: nat :: FirstPlace(pieces, index, k) ==> k == 0;
      } else {
        forall k: nat | FirstPlace(pieces, index, k)
          ensures FirstPlace(rest, index, k - 1) && pieces[k] == rest[k - 1]
        {
        }
        if FindPlace(rest, index).Some? {
          var k: nat :| FirstPlace(rest, index, k);
          assert FirstPlace(pieces, index, k + 1);
        }
      }
    }
  }

  /** What is read at a position once `data` was written at `offset`; a gap before it reads as zeros. */
  function ByteAt(content: Bytes, offset: nat, data: Bytes, j: nat): Byte {
    if offset <= j < offset + |data| then data[j - offset] else if j < |content| then content[j] else 0
  }

  /** The bytes of a piece overwrite what lies at its place, and nothing else. */
  lemma WriteAtMeaning(content: Bytes, offset: nat, data: Bytes)
    ensures var w := WriteAt(content, offset, data);
      && |w| == (if offset + |data| > |content| then offset + |data| else |content|)
      && forall j :: 0 <= j < |w| ==> w[j] == ByteAt(content, offset, data, j)
  {
    hide Min;
  }

  /** A piece of a prepared file is written at its place exactly if it is in the layout, has the right size and
      the output file is there; then it is noted as present, and the record saved. One of any other file is
      kept by itself. A refused write changes nothing. */
  lemma WriteMeaning(s: Store, p: Piece, data: Bytes, k: nat)
    requires p.file in s.outputs ==>
      var pieces := s.outputs[p.file].manifest.pieces;
      FirstPlace(pieces, p.index, k) || forall j :: 0 <= j < |pieces| ==> pieces[j].index != p.index
    ensures var (r, ok) := Write(s, p, data);
      if p.file in s.outputs then
        var o := s.outputs[p.file];
        var pieces := o.manifest.pieces;
        && (ok <==> FirstPlace(pieces, p.index, k) && |data| == pieces[k].size && o.path in s.disk)
        && (!ok ==> r == s)
        && (ok ==>
              && o.path in r.disk && r.disk[o.path] == WriteAt(s.disk[o.path], pieces[k].offset, data)
              && NotedAs(s, r, p.file, o.verified + {p.index}) && Elsewhere(s, r, p.file, o.path))
      else ok && r == s.(parts := s.parts[p := data])
  {
    hide WriteAt, FindPlace;
    if p.file in s.outputs {
      FindsFirst(s.outputs[p.file].manifest.pieces, p.index);
    }
  }

  /** The pieces present are these, to the process and on record. */
  ghost predicate NotedAs(a: Store, b: Store, file: FileId, verified: set<nat>)
    requires file in a.outputs
  {
    var o := a.outputs[file];
    && file in b.outputs && b.outputs[file] == Output(o.manifest, o.path, verified)
    && file in b.states && b.states[file] == SavedState(o.manifest.size, o.manifest.pieceSize, o.manifest.pieces, o.path, verified)
  }

  /** A piece of a prepared file is read from its place exactly if it is noted as present and the output file
      is there; as many of its bytes as the file reaches. One of any other file is what was kept for it. */
  lemma ReadMeaning(s: Store, p: Piece, k: nat)
    requires p.file in s.outputs ==>
      var pieces := s.outputs[p.file].manifest.pieces;
      FirstPlace(pieces, p.index, k) || forall j :: 0 <= j < |pieces| ==> pieces[j].index != p.index
    ensures var r := Read(s, p);
      if p.file in s.outputs then
        var o := s.outputs[p.file];
        var pieces := o.manifest.pieces;
        && (r.Some? <==> FirstPlace(pieces, p.index, k) && p.index in o.verified && o.path in s.disk)
        && (r.Some? ==>
              var c, place := s.disk[o.path], pieces[k];
              && |r.value| == (if |c| >= place.offset + place.size then place.size else if |c| > place.offset then |c| - place.offset else 0)
              && forall j :: 0 <= j < |r.value| ==> r.value[j] == c[place.offset + j])
      else r == if p in s.parts then Some(s.parts[p]) else None
    ensures HasPiece(s, p) <==> if p.file in s.outputs then p.index in s.outputs[p.file].verified else p in s.parts
  {
    hide FindPlace;
    if p.file in s.outputs {
      FindsFirst(s.outputs[p.file].manifest.pieces, p.index);
    }
  }

  /** A deleted piece of a prepared file is no longer noted as present, and its bytes stay where they are; one
      of any other file is gone. A restart forgets what was prepared, and nothing else. */
  lemma DeleteMeaning(s: Store, p: Piece)
    ensures var r := Delete(s, p);
      if p.file in s.outputs then
        NotedAs(s, r, p.file, s.outputs[p.file].verified - {p.index}) && r.disk == s.disk && Elsewhere(s, r, p.file, s.outputs[p.file].path)
      else r == s.(parts := s.parts - {p})
    ensures Restart(s) == s.(outputs := map[])
  {
  }
}
