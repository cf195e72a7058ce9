/** What each event of the send queue does, and that an open channel that keeps draining gets everything. */
module SendProgress {
  import opened Common
  import opened SendQueue

  // ----- the events -----

  /** A send is accepted exactly if, with all that is unsettled, it stays within the larger of the high
      watermark and 256 KiB. It goes behind all others; a refused one changes nothing. */
  lemma SendMeaning(q: Queue, bytes: nat)
    requires q.pump.Idle? ==> q.pending == []
    ensures var n, item := Happen(q, Send(bytes)), Item(|q.accepted|, bytes);
      var capacity := if q.profile.high >= 262144 then q.profile.high else 262144;
      if bytes <= capacity && q.pendingBytes + bytes <= capacity then
        && n.accepted == q.accepted + [item] && Unsettled(n) == Unsettled(q) + [item] && n.pendingBytes == q.pendingBytes + bytes
        && n.sent == q.sent && n.settled == q.settled && n.buffered == q.buffered && n.open == q.open
        && (if q.pump.Idle? then Taken(q, n) else n.pump == q.pump && n.blocked == q.blocked && n.marks == q.marks)
      else n == q
  {
    if q.pump.Idle? {
      assert [] + [Item(|q.accepted|, bytes)] == [Item(|q.accepted|, bytes)];
    } else {
      assert [q.pump.item] + (q.pending + [Item(|q.accepted|, bytes)]) == [q.pump.item] + q.pending + [Item(|q.accepted|, bytes)];
    }
  }

  /** What the pump does with the first unsettled send: refuse it if the channel is not open, hold it ready
      if there is room below the high watermark, else wait and report that the queue is high. */
  ghost predicate Taken(q: Queue, n: Queue) {
    if Unsettled(n) == [] then n.pump == Idle && n.blocked == q.blocked && n.marks == q.marks
    else
      var first := Unsettled(n)[0];
      if !n.open then n.pump == Refused(first) && n.blocked == q.blocked && n.marks == q.marks
      else if n.buffered < n.profile.high then n.pump == Ready(first) && n.blocked == q.blocked && n.marks == q.marks
      else n.pump == Waiting(first) && n.blocked && n.marks == q.marks + [High]
  }

  lemma TakenBy(q: Queue)
    requires q.pump.Idle?
    ensures var n := Take(q);
      && Taken(q, n) && Unsettled(n) == q.pending && n == q.(pending := n.pending, pump := n.pump, blocked := n.blocked, marks := n.marks)
  {
    if q.pending != [] {
      assert [q.pending[0]] + q.pending[1..] == q.pending;
    }
  }

  /** A step of the pump: a send it holds ready goes to the channel and is settled as done if the channel is
      open and takes it, and is settled as failed otherwise, like one that was refused; then the next one is
      taken. A send whose wait is over becomes ready, or is refused if the channel closed; a pump at rest or
      waiting does nothing. */
  lemma StepMeaning(q: Queue, accepts: bool)
    ensures var n, first := Happen(q, Step(accepts)), Unsettled(q);
      if q.pump.Ready? || q.pump.Refused? then
        var goes := q.pump.Ready? && q.open && accepts;
        && n.sent == (if goes then q.sent + [first[0]] else q.sent)
        && n.buffered == (if goes then q.buffered + first[0].bytes else q.buffered)
        && n.settled == q.settled + [Settlement(first[0].id, goes)] && n.pendingBytes == q.pendingBytes - first[0].bytes
        && Unsettled(n) == first[1..] && n.accepted == q.accepted && n.open == q.open && n.profile == q.profile && Taken(q, n)
      else if q.pump.Resumed? then n == q.(pump := if q.open then Ready(q.pump.item) else Refused(q.pump.item))
      else n == q
  {
    hide Take, Taken;
    if q.pump.Ready? || q.pump.Refused? {
      var goes, item := q.pump.Ready? && q.open && accepts, q.pump.item;
      assert ([item] + q.pending)[1..] == q.pending;
      var s := q.(sent := if goes then q.sent + [item] else q.sent, buffered := if goes then q.buffered + item.bytes else q.buffered,
                  settled := q.settled + [Settlement(item.id, goes)], pendingBytes := q.pendingBytes - item.bytes, pump := Idle);
      TakenBy(s);
      TakeIgnoresPump(s.(pump := q.pump));
      assert Happen(q, Step(accepts)) == Take(s.(pump := q.pump));
      TakenFrame(s, q, Take(s));
    }
  }

  lemma TakenFrame(s: Queue, q: Queue, n: Queue)
    requires Taken(s, n) && q.blocked == s.blocked && q.marks == s.marks
    ensures Taken(q, n)
  {
  }

  /** Room below the low watermark is reported once after it was high, and ends the wait; a wait also ends,
      in refusal, when the channel is no longer open. */
  lemma DrainMeaning(q: Queue)
    ensures var n := Happen(q, DrainEvent);
      && (n.marks == if q.blocked && q.buffered <= q.profile.low then q.marks + [Low] else q.marks)
      && (n.blocked <==> q.blocked && q.buffered > q.profile.low)
      && (n.pump == if q.pump.Waiting? && !q.open then Refused(q.pump.item)
                    else if q.pump.Waiting? && q.buffered <= q.profile.low then Resumed(q.pump.item) else q.pump)
      && n == q.(marks := n.marks, blocked := n.blocked, pump := n.pump)
  {
  }

  lemma {:induction false} RejectedInOrder(settled: seq<Settlement>, items: seq<Item>)
    ensures var r := RejectAll(settled, items);
      && |r| == |settled| + |items| && r[..|settled|] == settled
      && forall k :: 0 <= k < |items| ==> r[|settled| + k] == Settlement(items[k].id, false)
    decreases |items|
  {
    if items != [] {
      var more := settled + [Settlement(items[0].id, false)];
      RejectedInOrder(more, items[1..]);
      var r := RejectAll(settled, items);
      assert r[|settled|] == r[..|more|][|settled|];
      assert r[..|settled|] == r[..|more|][..|settled|];
      forall k | 0 <= k < |items|
        ensures r[|settled| + k] == Settlement(items[k].id, false)
      {
        if k > 0 {
          assert r[|more| + (k - 1)] == Settlement(items[1..][k - 1].id, false);
        }
      }
    }
  }

  /** When the channel closes or reports an error, every queued send is settled as failed in its order, a
      waiting one is about to be, and what the pump holds otherwise stays with it. */
  lemma RejectionMeaning(q: Queue, closes: bool)
    ensures var n := Happen(q, if closes then CloseEvent else ErrorEvent);
      && n.open == (q.open && !closes) && n.pending == [] && n.pendingBytes == q.pendingBytes - Total(q.pending)
      && n.pump == (if q.pump.Waiting? then Refused(q.pump.item) else q.pump)
      && |n.settled| == |q.settled| + |q.pending| && n.settled[..|q.settled|] == q.settled
      && (forall k :: 0 <= k < |q.pending| ==> n.settled[|q.settled| + k] == Settlement(q.pending[k].id, false))
      && n.sent == q.sent && n.accepted == q.accepted && n.blocked == q.blocked && n.marks == q.marks && n.buffered == q.buffered
  {
    hide RejectAll, Total;
    RejectedInOrder(q.settled, q.pending);
  }

  // ----- progress -----

  /** The channel empties, says so, and the pump goes on twice. */
  const Round := [Flush(0), DrainEvent, Step(true), Step(true)]

  function Rounds(n: nat): seq<Event> {
    if n == 0 then [] else Rounds(n - 1) + Round
  }

  /** Open, and not about to refuse anything. */
  predicate Going(q: Queue) {
    q.open && !q.pump.Refused? && (q.pump.Idle? ==> q.pending == [])
  }

  /** Some of what was unsettled went to the channel, in its order, and nothing was lost. */
  ghost predicate Forward(q: Queue, n: Queue) {
    && Going(n) && n.sent + Unsettled(n) == q.sent + Unsettled(q) && |n.sent| >= |q.sent|
    && n.accepted == q.accepted && n.profile == q.profile
  }

  lemma StepForward(q: Queue)
    requires Going(q)
    ensures Forward(q, Happen(q, Step(true)))
    ensures q.pump.Ready? ==> |Happen(q, Step(true)).sent| == |q.sent| + 1
    ensures q.pump.Resumed? ==> Happen(q, Step(true)).pump.Ready?
  {
    hide Happen, Taken;
    var n := Happen(q, Step(true));
    StepMeaning(q, true);
    if q.pump.Ready? {
      ReadyForward(q, n);
      IdleIsEmpty(q, n);
    } else {
      assert Unsettled(n) == Unsettled(q);
    }
  }

  lemma ReadyForward(q: Queue, n: Queue)
    requires q.pump.Ready? && n.sent == q.sent + [Unsettled(q)[0]] && Unsettled(n) == Unsettled(q)[1..]
    ensures n.sent + Unsettled(n) == q.sent + Unsettled(q) && |n.sent| == |q.sent| + 1
  {
    var all := Unsettled(q);
    assert all == [all[0]] + all[1..];
    hide Unsettled;
    assert q.sent + [all[0]] + all[1..] == q.sent + ([all[0]] + all[1..]);
  }

  lemma IdleIsEmpty(q: Queue, n: Queue)
    requires Taken(q, n) && n.open
    ensures Going(n)
  {
  }

  lemma RoundForward(q: Queue)
    requires Going(q)
    ensures var n := Happen(Happen(Happen(Happen(q, Flush(0)), DrainEvent), Step(true)), Step(true));
      Forward(q, n) && (Unsettled(q) != [] ==> |n.sent| > |q.sent|)
  {
    var f := Happen(q, Flush(0));
    var d := Happen(f, DrainEvent);
    assert Unsettled(f) == Unsettled(q);
    DrainMeaning(f);
    assert Unsettled(d) == Unsettled(q) && Going(d) && d.sent == q.sent && (d.pump.Idle? ==> Unsettled(q) == []);
    assert !d.pump.Waiting?;
    hide Happen, Unsettled;
    StepForward(d);
    StepForward(Happen(d, Step(true)));
  }

  lemma {:induction false} RoundsForward(q: Queue, n: nat)
    requires Going(q)
    ensures var r := Run(q, Rounds(n));
      Forward(q, r) && (Unsettled(r) == [] || |r.sent| >= |q.sent| + n)
  {
    hide Happen, Unsettled, Going;
    if n == 0 {
      assert Forward(q, q);
    } else {
      var b := Run(q, Rounds(n - 1));
      RoundsForward(q, n - 1);
      FourMore(q, Rounds(n - 1));
      RoundForward(b);
      if Unsettled(b) == [] {
        NothingLeft(b, Run(q, Rounds(n)));
      }
    }
  }

  lemma NothingLeft(b: Queue, r: Queue)
    requires Forward(b, r) && Unsettled(b) == []
    ensures Unsettled(r) == []
  {
    assert |r.sent + Unsettled(r)| == |b.sent|;
  }

  lemma FourMore(q: Queue, events: seq<Event>)
    ensures Run(q, events + Round) == Happen(Happen(Happen(Happen(Run(q, events), Flush(0)), DrainEvent), Step(true)), Step(true))
  {
    hide Happen, Run;
    RunOne(q, events, Flush(0));
    RunThree(q, events + [Flush(0)], DrainEvent, Step(true), Step(true));
    assert events + [Flush(0)] + [DrainEvent, Step(true), Step(true)] == events + Round;
  }

  lemma {:induction false} RunAppend(q: Queue, a: seq<Event>, b: seq<Event>)
    ensures Run(q, a + b) == Run(Run(q, a), b)
  {
    hide Happen;
    if b == [] {
      assert a + b == a;
    } else {
      RunAppend(q, a, b[..|b| - 1]);
      assert (a + b)[..|a + b| - 1] == a + b[..|b| - 1];
    }
  }

  /** From any point that a run can reach with the channel open and no send about to be refused: if the
      channel keeps emptying and takes what it is handed, everything accepted and unsettled reaches it in the
      order of the calls, and is settled as done exactly once. */
  lemma EverythingSent(p: Profile, open: bool, events: seq<Event>)
    requires var q := Run(Start(p, open), events); q.open && !q.pump.Refused?
    ensures var q := Run(Start(p, open), events);
      var r := Run(Start(p, open), events + Rounds(|Unsettled(q)|));
      && r.sent == q.sent + Unsettled(q) && r.pump == Idle && r.pending == [] && r.pendingBytes == 0
      && r.accepted == q.accepted && Done(r.settled) == Ids(r.sent)
      && forall id: nat :: id < |r.accepted| ==> Count(r.settled, id) == 1
  {
    hide Happen, Run, Count, Done, Ids, InOrder, SettledOnce;
    var s, q := Start(p, open), Run(Start(p, open), events);
    var n := |Unsettled(q)|;
    RunKeeps(p, open, events);
    RunAppend(s, events, Rounds(n));
    RoundsForward(q, n);
    var r := Run(q, Rounds(n));
    AllSent(q, r);
    RunKeeps(p, open, events + Rounds(n));
    IdleMeansSettled(p, open, events + Rounds(n));
  }

  lemma AllSent(q: Queue, r: Queue)
    requires Forward(q, r) && (Unsettled(r) == [] || |r.sent| >= |q.sent| + |Unsettled(q)|)
    ensures r.sent == q.sent + Unsettled(q) && r.pump == Idle && r.pending == []
  {
    assert |r.sent + Unsettled(r)| == |q.sent| + |Unsettled(q)|;
    assert Unsettled(r) == [];
    assert r.sent + [] == r.sent;
  }
}
