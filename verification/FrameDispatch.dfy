/** Which messages keep a connection open, which end it, and which frames are errors, said of opcodes and
    payloads alone. */
module FrameDispatch {
  import opened Common
  import opened FrameCodec
  import opened FrameStream

  /** Neither a close frame nor a text that is not JSON. */
  predicate Harmless(json: Bytes -> bool, m: Message) {
    m.opcode != 8 && (m.opcode == 1 ==> json(m.payload))
  }

  lemma HarmlessOpen(json: Bytes -> bool, out: seq<Message>)
    ensures AnyClosing(json, out) <==> exists i :: 0 <= i < |out| && !Harmless(json, out[i])
    ensures (forall i :: 0 <= i < |out| ==> Harmless(json, out[i])) ==> ClosesLast(json, out)
    ensures |out| == 1 ==> ClosesLast(json, out)
  {
    forall i | 0 <= i < |out|
      ensures Harmless(json, out[i]) <==> !Closing(json, out[i])
    {
    }
  }

  /** At the end of an error-free stream, in any chunks within the limit, a connection is open exactly when
      the stream holds no close frame and no text that is not JSON. Then everything was dispatched, and the
      bytes of an incomplete frame wait; otherwise the messages up to the first of those were, at least. */
  lemma OpenExactly(json: Bytes -> bool, chunks: seq<Bytes>)
    requires ErrorFree(Concat(chunks)) && WithinCap(json, chunks)
    ensures var c, all := Feed(json, chunks), MessagesOf(Concat(chunks));
      && !c.failed && c.asm.out <= all
      && (c.open <==> forall i :: 0 <= i < |all| ==> all[i].opcode != 8 && (all[i].opcode == 1 ==> json(all[i].payload)))
      && (c.open ==> c.asm.out == all && c.pending == ParseAll(Concat(chunks)).rest)
      && (!c.open ==> exists i :: 0 <= i < |c.asm.out| && !Harmless(json, all[i]))
  {
    hide Feed, MessagesOf, ErrorFree, ParseAll, WithinCap, AnyClosing, Closing;
    var n := KeepsUp(json, chunks);
    var c, all := Feed(json, chunks), MessagesOf(Concat(chunks));
    NothingInvented(json, chunks);
    HarmlessOpen(json, c.asm.out);
    if c.open {
      assert chunks[..n] == chunks;
      CaughtOpen(json, c, Concat(chunks));
      forall i | 0 <= i < |all|
        ensures Harmless(json, all[i])
      {
      }
    } else {
      var i :| 0 <= i < |c.asm.out| && !Harmless(json, c.asm.out[i]);
      assert all[i] == c.asm.out[i];
    }
  }

  /** Messages that are binary, or JSON text, with any control frames but close among them, in any number,
      each in any fragments, masked or not, cut into any chunks within the limit: all of them arrive, and
      the connection stays open. */
  lemma HarmlessArrive(json: Bytes -> bool, os: seq<Outgoing>, masks: seq<Option<Bytes>>, chunks: seq<Bytes>)
    requires forall i :: 0 <= i < |os| ==> Proper(os[i])
    requires forall i :: 0 <= i < |os| ==> os[i].opcode == 2 || json(Concat(os[i].parts))
    requires forall i, j, k :: 0 <= i < |os| && 0 <= j < |os[i].controls| && 0 <= k < |os[i].controls[j]| ==> os[i].controls[j][k].opcode != 8
    requires var fs := AllFrames(os);
      && |masks| == |fs| && (forall i :: 0 <= i < |fs| ==> Sendable(fs[i]) && Key(masks[i]))
      && Concat(chunks) == EncodeAll(fs, masks)
    requires WithinCap(json, chunks)
    ensures var c := Feed(json, chunks); c.open && !c.failed && c.asm.out == AllMessages(os) && c.pending == []
  {
    hide Feed, AllFrames, EncodeAll, WithinCap, AnyClosing, ClosesLast, Sendable, Key;
    AllHarmless(json, os);
    HarmlessOpen(json, AllMessages(os));
    MessagesArrive(json, os, masks, chunks);
  }

  lemma {:induction false} AllHarmless(json: Bytes -> bool, os: seq<Outgoing>)
    requires forall i :: 0 <= i < |os| ==> Proper(os[i])
    requires forall i :: 0 <= i < |os| ==> os[i].opcode == 2 || json(Concat(os[i].parts))
    requires forall i, j, k :: 0 <= i < |os| && 0 <= j < |os[i].controls| && 0 <= k < |os[i].controls[j]| ==> os[i].controls[j][k].opcode != 8
    ensures forall i :: 0 <= i < |AllMessages(os)| ==> Harmless(json, AllMessages(os)[i])
  {
    hide Concat, ControlsFirst;
    if os != [] {
      var o := os[|os| - 1];
      AllHarmless(json, os[..|os| - 1]);
      ControlsHarmless(json, o, |o.parts|);
    }
  }

  lemma {:induction false} ControlsHarmless(json: Bytes -> bool, o: Outgoing, k: nat)
    requires Proper(o) && forall i, j :: 0 <= i < |o.controls| && 0 <= j < |o.controls[i]| ==> o.controls[i][j].opcode != 8
    ensures forall i :: 0 <= i < |ControlsFirst(o, k)| ==> Harmless(json, ControlsFirst(o, k)[i])
  {
    hide Concat, Messages;
    if 0 < k <= |o.controls| {
      ControlsHarmless(json, o, k - 1);
      var sent := Messages(o.controls[k - 1]);
      forall i | 0 <= i < |sent|
        ensures Harmless(json, sent[i])
      {
        MessageAt(o.controls[k - 1], i);
        assert Control(o.controls[k - 1][i]);
      }
    }
  }

  lemma {:induction false} MessageAt(fs: seq<Frame>, i: nat)
    requires i < |fs|
    ensures Messages(fs)[i] == Message(fs[i].opcode, fs[i].payload)
  {
    if i > 0 {
      MessageAt(fs[1..], i - 1);
    }
  }

  /** A single final frame, masked or not, in any chunks: it is dispatched, and the connection is closed
      exactly if it is a close frame or a text that is not JSON. */
  lemma SingleFrame(json: Bytes -> bool, opcode: nat, payload: Bytes, mask: Option<Bytes>, chunks: seq<Bytes>)
    requires 0 < opcode < 16 && |payload| <= 16 * 1024 * 1024 && (mask.Some? ==> |mask.value| == 4)
    requires Concat(chunks) == Encode(Frame(true, opcode, payload), mask) && WithinCap(json, chunks)
    ensures var c := Feed(json, chunks);
      && c.asm.out == [Message(opcode, payload)] && !c.failed
      && (c.open <==> opcode != 8 && (opcode == 1 ==> json(payload))) && (c.open ==> c.pending == [])
  {
    hide Feed, WithinCap, AnyClosing, Encode, ParseAll, Reading;
    var f := Frame(true, opcode, payload);
    CodecRoundTrip([f], [mask]);
    OneEncoded(f, mask);
    ReadingIsParse(Concat(chunks));
    AcceptOne(Idle, f);
    HarmlessOpen(json, [Message(opcode, payload)]);
    assert MessagesOf(Concat(chunks)) == [Message(opcode, payload)];
    OpenExactly(json, chunks);
    assert MessagesOf(Concat(chunks))[0].payload == payload;
    SplitsAgree(json, chunks);
  }

  lemma OneEncoded(f: Frame, mask: Option<Bytes>)
    requires Sendable(f) && Key(mask)
    ensures EncodeAll([f], [mask]) == Encode(f, mask)
  {
    hide Encode;
    assert Encode(f, mask) + [] == Encode(f, mask);
  }

  // ----- errors -----

  predicate Data(f: Frame) {
    f.opcode == 0 || f.opcode == 1 || f.opcode == 2
  }

  /** The last text, binary or continuation frame is not the last of its message. */
  predicate Unfinished(fs: seq<Frame>) {
    exists j :: 0 <= j < |fs| && Data(fs[j]) && !fs[j].fin && forall k :: j < k < |fs| ==> !Data(fs[k])
  }

  /** Bytes of the message that the last frames belong to. */
  function Gathering(fs: seq<Frame>): nat {
    if fs == [] then 0
    else
      var f := fs[|fs| - 1];
      if f.opcode == 1 || f.opcode == 2 then |f.payload|
      else Gathering(fs[..|fs| - 1]) + if f.opcode == 0 then |f.payload| else 0
  }

  /** Frame `k` may come where it does: a continuation only in a message begun and not finished, and as
      long as that has no more than 16 MiB; text and binary only when there is no such message; control
      frames anywhere. */
  predicate InPlace(fs: seq<Frame>, k: nat)
    requires k < |fs|
  {
    && (fs[k].opcode == 0 ==> Unfinished(fs[..k]) && Gathering(fs[..k]) + |fs[k].payload| <= 16 * 1024 * 1024)
    && (fs[k].opcode == 1 || fs[k].opcode == 2 ==> !Unfinished(fs[..k]))
  }

  lemma UnfinishedSnoc(fs: seq<Frame>, f: Frame)
    ensures Unfinished(fs + [f]) <==> if Data(f) then !f.fin else Unfinished(fs)
  {
    var all, n := fs + [f], |fs|;
    assert all[n] == f;
    if !Data(f) && Unfinished(fs) {
      var j :| 0 <= j < |fs| && Data(fs[j]) && !fs[j].fin && forall k :: j < k < |fs| ==> !Data(fs[k]);
      assert Data(all[j]) && forall k :: j < k < |all| ==> !Data(all[k]);
    }
    if !Data(f) && Unfinished(all) {
      var j :| 0 <= j < |all| && Data(all[j]) && !all[j].fin && forall k :: j < k < |all| ==> !Data(all[k]);
      assert Data(fs[j]) && forall k :: j < k < |fs| ==> fs[k] == all[k];
    }
  }

  /** Frames are accepted exactly when each may come where it does. */
  lemma {:induction false} ErrorsExactly(fs: seq<Frame>)
    ensures var p := AcceptAll(Idle, fs);
      && (p.ok <==> forall k :: 0 <= k < |fs| ==> InPlace(fs, k))
      && (p.ok ==> (p.asm.fragment.Some? <==> Unfinished(fs)))
      && (p.ok && p.asm.fragment.Some? ==> |p.asm.fragment.value.payload| == Gathering(fs))
  {
    hide AcceptAll, InPlace, Unfinished;
    if fs == [] {
      AcceptNone(Idle);
      assert !Unfinished([]) by { NothingBegun(); }
    } else {
      var n := |fs| - 1;
      var before, f := fs[..n], fs[n];
      ErrorsExactly(before);
      assert fs == before + [f];
      AcceptSplit(Idle, before, [f]);
      UnfinishedSnoc(before, f);
      InPlacePrefix(fs, n);
      if AcceptAll(Idle, before).ok {
        OneMoreFrame(before, f, AcceptAll(Idle, before).asm);
      }
    }
  }

  lemma NothingBegun()
    ensures !Unfinished([])
  {
  }

  lemma InPlacePrefix(fs: seq<Frame>, n: nat)
    requires n < |fs|
    ensures (forall k :: 0 <= k < n ==> (InPlace(fs, k) <==> InPlace(fs[..n], k)))
  {
    forall k | 0 <= k < n
      ensures fs[..n][..k] == fs[..k]
    {
    }
  }

  lemma OneMoreFrame(before: seq<Frame>, f: Frame, a: Assembler)
    requires a.fragment.Some? <==> Unfinished(before)
    requires a.fragment.Some? ==> |a.fragment.value.payload| == Gathering(before)
    ensures var p, fs := AcceptAll(a, [f]), before + [f];
      && (p.ok <==> InPlace(fs, |before|))
      && (p.ok ==> (p.asm.fragment.Some? <==> if Data(f) then !f.fin else Unfinished(before)))
      && (p.ok && p.asm.fragment.Some? ==> |p.asm.fragment.value.payload| == Gathering(fs))
  {
    var fs := before + [f];
    assert fs[..|before|] == before && fs[|before|] == f;
    assert [f][1..] == [];
    hide Unfinished;
  }

  /** A chunk that would take the buffer past 16 MiB and 14 bytes ends the connection with an error, and
      nothing that comes later is looked at. */
  lemma FullBufferFails(json: Bytes -> bool, c: Conn, chunk: Bytes, later: Bytes)
    requires c.open && |c.pending| + |chunk| > 16 * 1024 * 1024 + 14
    ensures var d := OnData(json, c, chunk);
      d.failed && !d.open && d.asm.out == c.asm.out && d.pending == [] && OnData(json, d, later) == d
  {
  }

  /** Within that limit an open connection dispatches, or fails over a frame that is too large or out of
      place; every frame before such a one is dispatched. */
  lemma FailsExactly(json: Bytes -> bool, chunks: seq<Bytes>, chunk: Bytes)
    requires var c := Feed(json, chunks); c.open && |c.pending| + |chunk| <= 16 * 1024 * 1024 + 14
    ensures var d, all := Feed(json, chunks + [chunk]), Concat(chunks) + chunk;
      && (d.failed <==> ParseAll(Feed(json, chunks).pending + chunk).Failed? || exists k :: 0 <= k < |Reading(all)| && !InPlace(Reading(all), k))
      && (ParseAll(Feed(json, chunks).pending + chunk).Frames? ==> d.asm.out == MessagesOf(all))
      && (d.failed ==> !d.open)
  {
    hide ParseAll, AcceptAll, Reading, AnyClosing, InPlace;
    var c, stream := Feed(json, chunks), Concat(chunks);
    NothingInvented(json, chunks);
    assert (chunks + [chunk])[..|chunks|] == chunks;
    assert Feed(json, chunks + [chunk]) == OnData(json, c, chunk);
    ReadingSplit(stream, chunk);
    ReadingIsParse(c.pending + chunk);
    AcceptSplit(Idle, Reading(stream), Reading(c.pending + chunk));
    ErrorsExactly(Reading(stream + chunk));
  }
}
