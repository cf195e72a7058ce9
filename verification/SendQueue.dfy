/** The backpressured send queue of a data channel (`DataChannelWrapper`).

    The pump is an asynchronous loop. A step runs it from one suspension point to the next; everything
    else (new sends, the channel's events, the channel's own progress) may happen in between. */
module SendQueue {
  import opened Common

  const MIN_PENDING_SEND_BYTES: nat := 256 * 1024

  datatype Profile = Profile(high: nat, low: nat)

  /** An accepted send; ids count up in the order of acceptance. */
  datatype Item = Item(id: nat, bytes: nat)

  /** Where the pump is suspended: found the channel writable, waiting for it to drain, told that it
      drained, or holding a send that failed. */
  datatype Pump = Idle | Ready(item: Item) | Waiting(item: Item) | Resumed(item: Item) | Refused(item: Item)

  datatype Phase = High | Low

  datatype Settlement = Settlement(id: nat, ok: bool)

  datatype Queue = Queue(
    profile: Profile,
    accepted: seq<Item>,          // every send that was not refused at once
    pending: seq<Item>,           // `pendingSends`
    pendingBytes: int,            // `pendingSendBytes`
    pump: Pump,
    blocked: bool,                // `watermarkBlocked`
    open: bool,                   // the channel's readyState is `open`
    buffered: nat,                // the channel's bufferedAmount
    sent: seq<Item>,              // handed to the channel
    settled: seq<Settlement>,     // promises resolved or rejected
    marks: seq<Phase>)            // watermark events

  function Capacity(p: Profile): nat {
    Max(p.high, MIN_PENDING_SEND_BYTES)
  }

  function Start(p: Profile, open: bool): Queue {
    Queue(p, [], [], 0, Idle, false, open, 0, [], [], [])
  }

  function Settle(q: Queue, item: Item, ok: bool): Queue {
    q.(settled := q.settled + [Settlement(item.id, ok)])
  }

  // ----- the pump -----

  /** The loop takes the next send and looks at the channel (`waitForWritable` up to its first wait). */
  function Take(q: Queue): Queue {
    if q.pending == [] then q.(pump := Idle)
    else
      var item, rest := q.pending[0], q.pending[1..];
      if !q.open then q.(pending := rest, pump := Refused(item))
      else if q.buffered < q.profile.high then q.(pending := rest, pump := Ready(item))
      else q.(pending := rest, pump := Waiting(item), blocked := true, marks := q.marks + [High])
  }

  /** One settled send leaves the pump. */
  function Finish(q: Queue, item: Item, ok: bool): Queue {
    Take(Settle(q, item, ok).(pendingBytes := q.pendingBytes - item.bytes))
  }

  /** The pump continues where it is suspended. `accepts` says whether the open channel takes the data. */
  function Continue(q: Queue, accepts: bool): Queue {
    match q.pump
    case Idle => q
    case Waiting(_) => q
    case Refused(item) => Finish(q, item, false)
    case Resumed(item) => q.(pump := if q.open then Ready(item) else Refused(item))
    case Ready(item) =>
      if q.open && accepts then Finish(q.(sent := q.sent + [item], buffered := q.buffered + item.bytes), item, true)
      else Finish(q, item, false)
  }

  // ----- what happens around it -----

  predicate Refuses(q: Queue, bytes: nat) {
    bytes > Capacity(q.profile) || q.pendingBytes + bytes > Capacity(q.profile)
  }

  /** `enqueueSend`; a send over capacity is refused and changes nothing. */
  function Enqueue(q: Queue, bytes: nat): Queue {
    if Refuses(q, bytes) then q
    else
      var item := Item(|q.accepted|, bytes);
      var n := q.(accepted := q.accepted + [item], pending := q.pending + [item], pendingBytes := q.pendingBytes + bytes);
      if q.pump.Idle? then Take(n) else n
  }

  /** `handleDrain`. */
  function Drain(q: Queue): Queue {
    var n := if q.blocked && q.buffered <= q.profile.low then q.(blocked := false, marks := q.marks + [Low]) else q;
    if !n.pump.Waiting? then n
    else if !n.open then n.(pump := Refused(n.pump.item))
    else if n.buffered <= n.profile.low then n.(pump := Resumed(n.pump.item))
    else n
  }

  function RejectAll(settled: seq<Settlement>, items: seq<Item>): seq<Settlement>
    decreases |items|
  {
    if items == [] then settled else RejectAll(settled + [Settlement(items[0].id, false)], items[1..])
  }

  function Total(items: seq<Item>): nat {
    if items == [] then 0 else items[0].bytes + Total(items[1..])
  }

  /** `rejectDrainWaiters` and `rejectPendingSends`. */
  function RejectEverything(q: Queue): Queue {
    q.(pump := if q.pump.Waiting? then Refused(q.pump.item) else q.pump,
       pending := [],
       pendingBytes := q.pendingBytes - Total(q.pending),
       settled := RejectAll(q.settled, q.pending))
  }

  datatype Event =
    | Send(bytes: nat)         // `sendText` or `sendBinary`
    | Step(accepts: bool)      // the pump continues
    | Flush(remaining: nat)    // the channel sends: bufferedAmount falls
    | DrainEvent | CloseEvent | ErrorEvent
    | Opens | Closes           // readyState changes

  function Happen(q: Queue, e: Event): Queue {
    match e
    case Send(bytes) => Enqueue(q, bytes)
    case Step(accepts) => Continue(q, accepts)
    case Flush(n) => q.(buffered := Min(n, q.buffered))
    case DrainEvent => Drain(q)
    case CloseEvent => RejectEverything(q.(open := false))
    case ErrorEvent => RejectEverything(q)
    case Opens => q.(open := true)
    case Closes => q.(open := false)
  }

  function Run(q: Queue, events: seq<Event>): Queue {
    if events == [] then q else Happen(Run(q, events[..|events| - 1]), events[|events| - 1])
  }

  class DataChannelWrapper {
    const profile: Profile
    var accepted: seq<Item>
    var pendingSends: seq<Item>
    var pendingSendBytes: int
    var pump: Pump
    var watermarkBlocked: bool
    var open: bool
    var buffered: nat
    var sent: seq<Item>
    var settled: seq<Settlement>
    var marks: seq<Phase>

    ghost function Abs(): Queue
      reads this
    {
      Queue(profile, accepted, pendingSends, pendingSendBytes, pump, watermarkBlocked, open, buffered, sent, settled, marks)
    }

    constructor (profile: Profile, open: bool)
      ensures Abs() == Start(profile, open)
    {
      this.profile := profile;
      accepted, pendingSends, pendingSendBytes, pump, watermarkBlocked := [], [], 0, Idle, false;
      this.open, buffered, sent, settled, marks := open, 0, [], [], [];
    }

    /** From taking the next send to the first wait. */
    method TakeNext()
      modifies this
      ensures Abs() == Take(old(Abs()))
    {
      if |pendingSends| == 0 {
        pump := Idle;
        return;
      }
      var item := pendingSends[0];
      pendingSends := pendingSends[1..];
      if !open {
        pump := Refused(item);
      } else if buffered < profile.high {
        pump := Ready(item);
      } else {
        watermarkBlocked := true;
        marks := marks + [High];
        pump := Waiting(item);
      }
    }

    method EnqueueSend(bytes: nat) returns (taken: bool)
      modifies this
      ensures Abs() == Enqueue(old(Abs()), bytes) && taken == !Refuses(old(Abs()), bytes)
    {
      var capacity := Max(profile.high, MIN_PENDING_SEND_BYTES);
      if bytes > capacity || pendingSendBytes + bytes > capacity {
        return false;
      }
      taken := true;
      var item := Item(|accepted|, bytes);
      pendingSendBytes := pendingSendBytes + bytes;
      accepted := accepted + [item];
      pendingSends := pendingSends + [item];
      if pump.Idle? {
        TakeNext();
      }
    }

    method DrainSendQueue(accepts: bool)
      modifies this
      ensures Abs() == Continue(old(Abs()), accepts)
    {
      match pump
      case Idle =>
      case Waiting(_) =>
      case Resumed(item) => pump := if open then Ready(item) else Refused(item);
      case Refused(item) =>
        settled := settled + [Settlement(item.id, false)];
        pendingSendBytes := pendingSendBytes - item.bytes;
        TakeNext();
      case Ready(item) =>
        if open && accepts {
          sent, buffered := sent + [item], buffered + item.bytes;
          settled := settled + [Settlement(item.id, true)];
        } else {
          settled := settled + [Settlement(item.id, false)];
        }
        pendingSendBytes := pendingSendBytes - item.bytes;
        TakeNext();
    }

    method HandleDrain()
      modifies this
      ensures Abs() == Drain(old(Abs()))
    {
      if watermarkBlocked && buffered <= profile.low {
        watermarkBlocked := false;
        marks := marks + [Low];
      }
      if pump.Waiting? {
        if !open {
          pump := Refused(pump.item);
        } else if buffered <= profile.low {
          pump := Resumed(pump.item);
        }
      }
    }

    method RejectPending()
      modifies this
      ensures Abs() == RejectEverything(old(Abs()))
    {
      if pump.Waiting? {
        pump := Refused(pump.item);
      }
      var items := pendingSends;
      pendingSends := [];
      var total := 0;
      ghost var before := settled;
      for k := 0 to |items|
        invariant total + Total(items[k..]) == Total(items)
        invariant RejectAll(settled, items[k..]) == RejectAll(before, items)
        invariant Abs() == old(Abs()).(pump := pump, pending := [], settled := settled)
        invariant pump == if old(pump).Waiting? then Refused(old(pump).item) else old(pump)
      {
        assert items[k..][1..] == items[k + 1..];
        total := total + items[k].bytes;
        settled := settled + [Settlement(items[k].id, false)];
      }
      pendingSendBytes := pendingSendBytes - total;
    }

    method HandleClose()
      modifies this
      ensures Abs() == Happen(old(Abs()), CloseEvent)
    {
      open := false;
      RejectPending();
    }
  }

  // ----- the invariant -----

  function Held(p: Pump): seq<Item> {
    if p.Idle? then [] else [p.item]
  }

  /** Sends accepted and not settled, in order. */
  function Unsettled(q: Queue): seq<Item> {
    Held(q.pump) + q.pending
  }

  function Count(settled: seq<Settlement>, id: nat): nat {
    if settled == [] then 0
    else Count(settled[..|settled| - 1], id) + if settled[|settled| - 1].id == id then 1 else 0
  }

  ghost predicate Ascending(items: seq<Item>) {
    forall j, k :: 0 <= j < k < |items| ==> items[j].id < items[k].id
  }

  predicate Holds(items: seq<Item>, id: nat) {
    exists k :: 0 <= k < |items| && items[k].id == id
  }

  /** What was sent, and what is still to be sent, are accepted sends in the order of acceptance. */
  ghost predicate InOrder(accepted: seq<Item>, sent: seq<Item>, unsettled: seq<Item>) {
    && (forall k :: 0 <= k < |accepted| ==> accepted[k].id == k)
    && Ascending(sent + unsettled)
    && (forall x :: x in sent || x in unsettled ==> x.id < |accepted| && accepted[x.id] == x)
  }

  /** Every accepted send is either unsettled or settled, and then exactly once. */
  ghost predicate SettledOnce(accepted: seq<Item>, unsettled: seq<Item>, settled: seq<Settlement>) {
    forall id: nat :: Count(settled, id) == if id < |accepted| && !Holds(unsettled, id) then 1 else 0
  }

  /** The sends settled as done are the sends handed to the channel, in that order. */
  function Done(settled: seq<Settlement>): seq<nat> {
    if settled == [] then []
    else Done(settled[..|settled| - 1]) + if settled[|settled| - 1].ok then [settled[|settled| - 1].id] else []
  }

  function Ids(items: seq<Item>): seq<nat> {
    if items == [] then [] else Ids(items[..|items| - 1]) + [items[|items| - 1].id]
  }

  /** The byte count is that of the unsettled sends and within capacity. */
  ghost predicate Accounted(q: Queue) {
    q.pendingBytes == Total(Unsettled(q)) && q.pendingBytes <= Capacity(q.profile)
  }

  /** The pump rests only when there is nothing to send, and where it is about to send there is room. */
  ghost predicate Pumping(q: Queue) {
    && (q.pump.Idle? ==> q.pending == [])
    && (q.profile.low < q.profile.high && (q.pump.Ready? || q.pump.Resumed?) ==> q.buffered < q.profile.high)
  }

  ghost predicate Inv(q: Queue) {
    && InOrder(q.accepted, q.sent, Unsettled(q)) && SettledOnce(q.accepted, Unsettled(q), q.settled)
    && Done(q.settled) == Ids(q.sent) && Accounted(q) && Pumping(q)
  }

  // ----- lists -----

  lemma CountSnoc(settled: seq<Settlement>, x: Settlement, id: nat)
    ensures Count(settled + [x], id) == Count(settled, id) + if x.id == id then 1 else 0
    ensures Done(settled + [x]) == Done(settled) + if x.ok then [x.id] else []
  {
    assert (settled + [x])[..|settled|] == settled;
  }

  lemma IdsSnoc(items: seq<Item>, x: Item)
    ensures Ids(items + [x]) == Ids(items) + [x.id]
  {
    assert (items + [x])[..|items|] == items;
  }

  lemma {:induction false} TotalSnoc(items: seq<Item>, x: Item)
    ensures Total(items + [x]) == Total(items) + x.bytes
  {
    if items != [] {
      assert (items + [x])[1..] == items[1..] + [x];
      TotalSnoc(items[1..], x);
    }
  }

  lemma {:induction false} TotalAppend(a: seq<Item>, b: seq<Item>)
    ensures Total(a + b) == Total(a) + Total(b)
  {
    if a == [] {
      assert a + b == b;
    } else {
      assert (a + b)[1..] == a[1..] + b;
      TotalAppend(a[1..], b);
    }
  }

  // ----- the ways the books change -----

  /** The first unsettled send is settled. */
  lemma SettleFirst(accepted: seq<Item>, sent: seq<Item>, unsettled: seq<Item>, settled: seq<Settlement>, ok: bool)
    requires InOrder(accepted, sent, unsettled) && SettledOnce(accepted, unsettled, settled) && unsettled != []
    requires Done(settled) == Ids(sent)
    ensures var x := unsettled[0]; var after := if ok then sent + [x] else sent;
      && InOrder(accepted, after, unsettled[1..])
      && SettledOnce(accepted, unsettled[1..], settled + [Settlement(x.id, ok)])
      && Done(settled + [Settlement(x.id, ok)]) == Ids(after)
  {
    var x, rest := unsettled[0], unsettled[1..];
    OrderAfterFirst(accepted, sent, unsettled, ok);
    assert Ascending(sent + unsettled);
    hide InOrder, Done, Ids, Ascending;
    CountSnoc(settled, Settlement(x.id, ok), 0);
    IdsSnoc(sent, x);
    forall id: nat
      ensures Count(settled + [Settlement(x.id, ok)], id) == if id < |accepted| && !Holds(rest, id) then 1 else 0
    {
      CountSnoc(settled, Settlement(x.id, ok), id);
      HoldsFirst(sent, unsettled, id);
    }
  }

  lemma OrderAfterFirst(accepted: seq<Item>, sent: seq<Item>, unsettled: seq<Item>, ok: bool)
    requires InOrder(accepted, sent, unsettled) && unsettled != []
    ensures InOrder(accepted, if ok then sent + [unsettled[0]] else sent, unsettled[1..])
    ensures unsettled[0].id < |accepted|
  {
    var x, rest := unsettled[0], unsettled[1..];
    assert x in unsettled;
    assert forall y :: y in rest ==> y in unsettled;
    assert sent + unsettled == sent + [x] + rest;
    if !ok {
      FewerAscend(sent, x, rest);
    }
  }

  lemma HoldsFirst(sent: seq<Item>, unsettled: seq<Item>, id: nat)
    requires unsettled != [] && Ascending(sent + unsettled)
    ensures Holds(unsettled, id) <==> Holds(unsettled[1..], id) || id == unsettled[0].id
    ensures !Holds(unsettled[1..], unsettled[0].id)
  {
    var x, rest := unsettled[0], unsettled[1..];
    assert [] + [x] + rest == unsettled;
    assert [] + rest == rest;
    HoldsMiddle(sent, [], x, rest, id);
  }

  lemma FewerAscend(sent: seq<Item>, x: Item, rest: seq<Item>)
    requires Ascending(sent + [x] + rest)
    ensures Ascending(sent + rest)
  {
    var all, few, n := sent + [x] + rest, sent + rest, |sent|;
    forall j, k | 0 <= j < k < |few|
      ensures few[j].id < few[k].id
    {
      assert few[j] == all[if j < n then j else j + 1];
      assert few[k] == all[if k < n then k else k + 1];
    }
  }

  /** One more accepted send joins the end. */
  lemma AcceptLast(accepted: seq<Item>, sent: seq<Item>, unsettled: seq<Item>, settled: seq<Settlement>, x: Item)
    requires InOrder(accepted, sent, unsettled) && SettledOnce(accepted, unsettled, settled) && x.id == |accepted|
    ensures InOrder(accepted + [x], sent, unsettled + [x]) && SettledOnce(accepted + [x], unsettled + [x], settled)
  {
    var all, more := sent + unsettled, sent + (unsettled + [x]);
    assert more == all + [x];
    assert forall k :: 0 <= k < |all| ==> all[k] in sent || all[k] in unsettled;
    assert forall y :: y in unsettled + [x] <==> y in unsettled || y == x;
    forall id: nat
      ensures Holds(unsettled + [x], id) <==> Holds(unsettled, id) || id == x.id
    {
      HoldsLast(unsettled, x, id);
    }
    forall k | 0 <= k < |unsettled|
      ensures unsettled[k].id != |accepted|
    {
      assert unsettled[k] in unsettled;
    }
  }

  lemma HoldsLast(items: seq<Item>, x: Item, id: nat)
    ensures Holds(items + [x], id) <==> Holds(items, id) || id == x.id
  {
    var more := items + [x];
    assert more[|items|] == x;
    assert forall k :: 0 <= k < |items| ==> more[k] == items[k];
  }

  /** All sends behind the first few are rejected. */
  lemma {:induction false} RejectRest(accepted: seq<Item>, sent: seq<Item>, held: seq<Item>, items: seq<Item>, settled: seq<Settlement>)
    requires InOrder(accepted, sent, held + items) && SettledOnce(accepted, held + items, settled) && Done(settled) == Ids(sent)
    ensures InOrder(accepted, sent, held) && SettledOnce(accepted, held, RejectAll(settled, items))
    ensures Done(RejectAll(settled, items)) == Ids(sent)
    decreases |items|
  {
    if items == [] {
      assert held + items == held;
    } else {
      var x, rest := items[0], items[1..];
      assert held + items == held + [x] + rest;
      RejectMiddle(accepted, sent, held, x, rest, settled);
      RejectRest(accepted, sent, held, rest, settled + [Settlement(x.id, false)]);
    }
  }

  lemma RejectMiddle(accepted: seq<Item>, sent: seq<Item>, held: seq<Item>, x: Item, rest: seq<Item>, settled: seq<Settlement>)
    requires InOrder(accepted, sent, held + [x] + rest) && SettledOnce(accepted, held + [x] + rest, settled) && Done(settled) == Ids(sent)
    ensures InOrder(accepted, sent, held + rest) && SettledOnce(accepted, held + rest, settled + [Settlement(x.id, false)])
    ensures Done(settled + [Settlement(x.id, false)]) == Ids(sent)
  {
    var all := held + [x] + rest;
    assert all[|held|] == x;
    assert x in all;
    assert forall y :: y in held + rest ==> y in all;
    assert sent + all == (sent + held) + [x] + rest;
    assert sent + (held + rest) == (sent + held) + rest;
    FewerAscend(sent + held, x, rest);
    CountSnoc(settled, Settlement(x.id, false), 0);
    hide InOrder, Done, Ids;
    forall id: nat
      ensures Count(settled + [Settlement(x.id, false)], id) == if id < |accepted| && !Holds(held + rest, id) then 1 else 0
    {
      CountSnoc(settled, Settlement(x.id, false), id);
      HoldsMiddle(sent, held, x, rest, id);
    }
  }

  lemma HoldsAppend(a: seq<Item>, b: seq<Item>, id: nat)
    ensures Holds(a + b, id) <==> Holds(a, id) || Holds(b, id)
  {
    var c := a + b;
    assert forall k :: 0 <= k < |a| ==> c[k] == a[k];
    if Holds(b, id) {
      var k :| 0 <= k < |b| && b[k].id == id;
      assert c[|a| + k].id == id;
    }
  }

  lemma HoldsMiddle(sent: seq<Item>, held: seq<Item>, x: Item, rest: seq<Item>, id: nat)
    requires Ascending(sent + (held + [x] + rest))
    ensures Holds(held + [x] + rest, id) <==> Holds(held + rest, id) || id == x.id
    ensures !Holds(held + rest, x.id)
  {
    HoldsAppend(held + [x], rest, id);
    HoldsAppend(held, [x], id);
    HoldsAppend(held, rest, id);
    assert Holds([x], id) <==> id == x.id by { assert [x][0] == x; }
    NotTwice(sent, held, x, rest);
  }

  lemma NotTwice(sent: seq<Item>, held: seq<Item>, x: Item, rest: seq<Item>)
    requires Ascending(sent + (held + [x] + rest))
    ensures !Holds(held + rest, x.id)
  {
    var few, n := held + rest, |held|;
    var whole := sent + (held + [x] + rest);
    assert whole[|sent| + n] == x;
    forall k | 0 <= k < |few|
      ensures few[k].id != x.id
    {
      assert few[k] == whole[|sent| + if k < n then k else k + 1];
    }
  }

  // ----- every event -----

  /** Taking the next send moves it from the queue to the pump; the books stay. */
  lemma TakeMoves(q: Queue)
    requires q.pump.Idle?
    ensures var t := Take(q);
      && Unsettled(t) == q.pending && t == q.(pending := t.pending, pump := t.pump, blocked := t.blocked, marks := t.marks)
      && Pumping(t)
  {
    if q.pending != [] {
      assert [q.pending[0]] + q.pending[1..] == q.pending;
    }
  }

  lemma TakeIgnoresPump(q: Queue)
    ensures Take(q) == Take(q.(pump := Idle))
  {
  }

  /** With the pump at rest and the books in order, taking the next send leaves them so. */
  lemma TakeInv(q: Queue)
    requires InOrder(q.accepted, q.sent, q.pending) && SettledOnce(q.accepted, q.pending, q.settled)
    requires Done(q.settled) == Ids(q.sent) && q.pendingBytes == Total(q.pending) <= Capacity(q.profile)
    ensures Inv(Take(q))
  {
    hide InOrder, SettledOnce, Done, Ids, Total, Pumping;
    TakeIgnoresPump(q);
    TakeMoves(q.(pump := Idle));
    hide Take;
  }

  lemma FinishKeeps(q: Queue, after: Queue, item: Item, ok: bool)
    requires Inv(q) && !q.pump.Idle? && q.pump.item == item
    requires after == q.(sent := after.sent, buffered := after.buffered)
    requires after.sent == if ok then q.sent + [item] else q.sent
    ensures Inv(Finish(after, item, ok))
  {
    hide InOrder, SettledOnce, Done, Ids, Total, Take, Pumping;
    assert Unsettled(q) == [item] + q.pending;
    assert Unsettled(q)[0] == item && Unsettled(q)[1..] == q.pending;
    SettleFirst(q.accepted, q.sent, Unsettled(q), q.settled, ok);
    TotalAppend([item], q.pending);
    assert Total([item]) == item.bytes by { OneTotal(item); }
    TakeInv(Settle(after, item, ok).(pendingBytes := q.pendingBytes - item.bytes));
  }

  lemma OneTotal(item: Item)
    ensures Total([item]) == item.bytes
  {
    assert [item][1..] == [];
  }

  lemma ContinueKeeps(q: Queue, accepts: bool)
    requires Inv(q)
    ensures Inv(Continue(q, accepts))
  {
    hide InOrder, SettledOnce, Done, Ids, Total, Finish;
    match q.pump
    case Idle =>
    case Waiting(_) =>
    case Refused(item) => FinishKeeps(q, q, item, false);
    case Resumed(item) => assert Unsettled(Continue(q, accepts)) == Unsettled(q);
    case Ready(item) =>
      FinishKeeps(q, q, item, false);
      FinishKeeps(q, q.(sent := q.sent + [item], buffered := q.buffered + item.bytes), item, true);
  }

  lemma EnqueueKeeps(q: Queue, bytes: nat)
    requires Inv(q)
    ensures Inv(Enqueue(q, bytes))
  {
    hide InOrder, SettledOnce, Done, Ids, Total, Take;
    if !Refuses(q, bytes) {
      var item := Item(|q.accepted|, bytes);
      var n := q.(accepted := q.accepted + [item], pending := q.pending + [item], pendingBytes := q.pendingBytes + bytes);
      AcceptLast(q.accepted, q.sent, Unsettled(q), q.settled, item);
      assert Unsettled(n) == Unsettled(q) + [item];
      TotalSnoc(Unsettled(q), item);
      if q.pump.Idle? {
        assert Unsettled(n) == n.pending;
        TakeInv(n);
      }
    }
  }

  lemma RejectKeeps(q: Queue, open: bool)
    requires Inv(q)
    ensures Inv(RejectEverything(q.(open := open)))
  {
    hide InOrder, SettledOnce, Done, Ids, Total;
    var r := RejectEverything(q.(open := open));
    RejectRest(q.accepted, q.sent, Held(q.pump), q.pending, q.settled);
    assert Unsettled(r) == Held(q.pump);
    TotalAppend(Held(q.pump), q.pending);
  }

  lemma DrainKeeps(q: Queue)
    requires Inv(q)
    ensures Inv(Drain(q)) && Unsettled(Drain(q)) == Unsettled(q)
  {
    hide InOrder, SettledOnce, Done, Ids, Total;
    assert Unsettled(Drain(q)) == Unsettled(q);
  }

  lemma HappenKeeps(q: Queue, e: Event)
    requires Inv(q)
    ensures Inv(Happen(q, e))
  {
    hide InOrder, SettledOnce, Done, Ids, Total, Enqueue, Continue, Drain, RejectEverything;
    match e
    case Send(bytes) => EnqueueKeeps(q, bytes);
    case Step(accepts) => ContinueKeeps(q, accepts);
    case DrainEvent => DrainKeeps(q);
    case CloseEvent => RejectKeeps(q, false);
    case ErrorEvent =>
      RejectKeeps(q, q.open);
      assert q.(open := q.open) == q;
    case Flush(n) => assert Unsettled(q.(buffered := Min(n, q.buffered))) == Unsettled(q);
    case Opens => assert Unsettled(q.(open := true)) == Unsettled(q);
    case Closes => assert Unsettled(q.(open := false)) == Unsettled(q);
  }

  lemma {:induction false} RunKeeps(p: Profile, open: bool, events: seq<Event>)
    ensures Inv(Run(Start(p, open), events)) && Run(Start(p, open), events).profile == p
  {
    hide Inv, Happen;
    if events == [] {
      assert Inv(Start(p, open)) by { StartInv(p, open); }
    } else {
      RunKeeps(p, open, events[..|events| - 1]);
      HappenKeeps(Run(Start(p, open), events[..|events| - 1]), events[|events| - 1]);
      HappenProfile(Run(Start(p, open), events[..|events| - 1]), events[|events| - 1]);
    }
  }

  lemma HappenProfile(q: Queue, e: Event)
    ensures Happen(q, e).profile == q.profile
  {
  }

  lemma StartInv(p: Profile, open: bool)
    ensures Inv(Start(p, open))
  {
  }

  // ----- what it means -----

  /** In every run: `pendingSendBytes` is exactly the bytes queued and in the pump, and within capacity;
      what reached the channel is in the order of the calls; every accepted send is settled at most once,
      resolved exactly if it reached the channel, and unsettled sends are still on their way. */
  lemma QueueIsFaithful(p: Profile, open: bool, events: seq<Event>)
    ensures var q := Run(Start(p, open), events);
      && q.pendingBytes == Total(Held(q.pump)) + Total(q.pending) <= Capacity(p)
      && Ascending(q.sent) && Done(q.settled) == Ids(q.sent)
      && (forall x :: x in q.sent ==> x.id < |q.accepted| && q.accepted[x.id] == x)
      && (forall id: nat :: Count(q.settled, id) <= 1)
      && (forall id: nat :: Count(q.settled, id) == 1 <==> id < |q.accepted| && !Holds(Unsettled(q), id))
  {
    hide Run, Count, Done, Ids, Holds;
    RunKeeps(p, open, events);
    var q := Run(Start(p, open), events);
    TotalAppend(Held(q.pump), q.pending);
    forall j, k | 0 <= j < k < |q.sent|
      ensures q.sent[j].id < q.sent[k].id
    {
      assert (q.sent + Unsettled(q))[j] == q.sent[j] && (q.sent + Unsettled(q))[k] == q.sent[k];
    }
  }

  /** A resting pump has nothing left to do: every accepted send is settled exactly once. */
  lemma IdleMeansSettled(p: Profile, open: bool, events: seq<Event>)
    ensures var q := Run(Start(p, open), events);
      q.pump.Idle? ==> q.pending == [] && forall id: nat :: id < |q.accepted| ==> Count(q.settled, id) == 1
  {
    hide Run, Count, Done, Ids, InOrder;
    RunKeeps(p, open, events);
  }

  /** After the channel closed, at most two further steps of the pump leave it at rest: by then every
      send accepted before is settled exactly once. */
  lemma CloseSettlesAll(p: Profile, open: bool, events: seq<Event>, a: bool, b: bool)
    ensures var before := Run(Start(p, open), events); var q := Run(Start(p, open), events + [CloseEvent, Step(a), Step(b)]);
      && q.pump.Idle? && q.accepted == before.accepted && q.pendingBytes == 0
      && forall id: nat :: id < |q.accepted| ==> Count(q.settled, id) == 1
  {
    var before := Run(Start(p, open), events);
    var all := events + [CloseEvent, Step(a), Step(b)];
    RunThree(Start(p, open), events, CloseEvent, Step(a), Step(b));
    assert Run(Start(p, open), all) == Happen(Happen(Happen(before, CloseEvent), Step(a)), Step(b));
    RunKeeps(p, open, all);
    IdleMeansSettled(p, open, all);
    ClosedStops(before, a, b);
  }

  lemma ClosedStops(q: Queue, a: bool, b: bool)
    ensures var r := Continue(Continue(RejectEverything(q.(open := false)), a), b);
      r.pump.Idle? && r.pending == [] && r.accepted == q.accepted
  {
    hide RejectAll;
  }

  lemma RunThree(q: Queue, events: seq<Event>, a: Event, b: Event, c: Event)
    ensures Run(q, events + [a, b, c]) == Happen(Happen(Happen(Run(q, events), a), b), c)
  {
    hide Happen, Run;
    RunOne(q, events, a);
    RunOne(q, events + [a], b);
    RunOne(q, events + [a] + [b], c);
    assert events + [a] + [b] + [c] == events + [a, b, c];
  }

  lemma RunOne(q: Queue, events: seq<Event>, e: Event)
    ensures Run(q, events + [e]) == Happen(Run(q, events), e)
  {
    hide Happen;
    assert (events + [e])[..|events|] == events;
  }

  /** Data is handed to the channel only while it is open and below the high watermark, given that the
      low watermark is below the high one and nobody else writes to the channel. */
  lemma SendsOnlyWithRoom(p: Profile, open: bool, events: seq<Event>, accepts: bool)
    requires p.low < p.high
    ensures var q := Run(Start(p, open), events);
      Continue(q, accepts).sent != q.sent ==>
        q.open && q.buffered < p.high && q.pump.Ready? && Continue(q, accepts).sent == q.sent + [q.pump.item]
  {
    hide Run, InOrder, SettledOnce, Accounted, Done, Ids;
    RunKeeps(p, open, events);
  }

  // ----- watermark events -----

  ghost predicate Alternate(marks: seq<Phase>) {
    forall k :: 0 <= k < |marks| ==> marks[k] == if k % 2 == 0 then High else Low
  }

  predicate LastHigh(marks: seq<Phase>) {
    marks != [] && marks[|marks| - 1] == High
  }

  /** The pump takes its next send while the channel is open and at or above the high watermark. */
  predicate Blocks(q: Queue, e: Event) {
    q.open &&
    match e
    case Send(bytes) => !Refuses(q, bytes) && q.pump.Idle? && q.buffered >= q.profile.high
    case Step(accepts) =>
      && q.pending != [] && (q.pump.Refused? || q.pump.Ready?)
      && (if q.pump.Ready? && accepts then q.buffered + q.pump.item.bytes else q.buffered) >= q.profile.high
    case _ => false
  }

  /** `watermarkBlocked` says which event came last. */
  ghost predicate Marked(q: Queue) {
    q.blocked == LastHigh(q.marks)
  }

  lemma MarkStep(q: Queue, e: Event)
    requires Marked(q)
    ensures var n := Happen(q, e);
      && Marked(n)
      && (n.marks == q.marks || n.marks == q.marks + [High] || (n.marks == q.marks + [Low] && q.blocked))
      && (n.marks == q.marks + [High] <==> Blocks(q, e))
  {
    hide RejectAll, Total;
  }

  /** One event keeps high and low watermark events alternating unless, exactly, it makes the pump block
      while it still counts as blocked. */
  lemma AlternationStep(q: Queue, e: Event)
    requires Marked(q) && Alternate(q.marks)
    ensures Alternate(Happen(q, e).marks) <==> !(Blocks(q, e) && q.blocked)
  {
    hide Happen, Blocks;
    MarkStep(q, e);
    var n, m := Happen(q, e), |q.marks|;
    assert q.blocked <==> m % 2 == 1;
    if n.marks != q.marks {
      assert n.marks[m] == n.marks[|n.marks| - 1];
      assert forall k :: 0 <= k < m ==> n.marks[k] == q.marks[k];
    }
  }

  /** In move `k` of a run the pump blocks while it still counts as blocked. */
  ghost predicate BlocksAgain(p: Profile, open: bool, events: seq<Event>, k: nat)
    requires k < |events|
  {
    Blocks(Run(Start(p, open), events[..k]), events[k]) && Run(Start(p, open), events[..k]).blocked
  }

  lemma BlocksAgainPrefix(p: Profile, open: bool, events: seq<Event>, n: nat, k: nat)
    requires k < n <= |events|
    ensures BlocksAgain(p, open, events[..n], k) <==> BlocksAgain(p, open, events, k)
  {
    hide Run, Blocks;
    assert events[..n][..k] == events[..k];
  }

  /** Over a whole run: the events alternate exactly if the pump never blocks while still counting as blocked. */
  lemma {:induction false} AlternationExactly(p: Profile, open: bool, events: seq<Event>)
    ensures Marked(Run(Start(p, open), events))
    ensures Alternate(Run(Start(p, open), events).marks) <==> forall k: nat :: k < |events| ==> !BlocksAgain(p, open, events, k)
  {
    hide Happen, Blocks, Alternate, Marked;
    var s := Start(p, open);
    if events == [] {
      assert Marked(s) && Alternate([]) by { StartMarked(p, open); }
    } else {
      var n := |events| - 1;
      AlternationExactly(p, open, events[..n]);
      forall k: nat | k < n
        ensures BlocksAgain(p, open, events[..n], k) <==> BlocksAgain(p, open, events, k)
      {
        BlocksAgainPrefix(p, open, events, n, k);
      }
      var q := Run(s, events[..n]);
      assert BlocksAgain(p, open, events, n) <==> Blocks(q, events[n]) && q.blocked;
      hide BlocksAgain;
      MarkStep(q, events[n]);
      if Alternate(q.marks) {
        AlternationStep(q, events[n]);
      } else {
        BrokenStays(q.marks, Run(s, events).marks);
      }
    }
  }

  lemma BrokenStays(before: seq<Phase>, after: seq<Phase>)
    requires !Alternate(before) && before <= after
    ensures !Alternate(after)
  {
    var k :| 0 <= k < |before| && before[k] != if k % 2 == 0 then High else Low;
    assert after[k] == before[k];
  }

  predicate Peaceful(e: Event) {
    !e.CloseEvent? && !e.ErrorEvent? && !e.Closes?
  }

  /** Without close or error, being blocked means that the pump is waiting. */
  lemma {:induction false} PeacefulRun(p: Profile, events: seq<Event>)
    requires forall k :: 0 <= k < |events| ==> Peaceful(events[k])
    ensures var q := Run(Start(p, true), events);
      q.open && Marked(q) && Alternate(q.marks) && (q.blocked <==> q.pump.Waiting?)
  {
    hide Happen, Marked, Alternate, Blocks;
    if events == [] {
      assert Marked(Start(p, true)) && Alternate([]) by { StartMarked(p, true); }
    } else {
      var n := |events| - 1;
      PeacefulRun(p, events[..n]);
      var q := Run(Start(p, true), events[..n]);
      MarkStep(q, events[n]);
      PeacefulStep(q, events[n]);
      AlternationStep(q, events[n]);
    }
  }

  lemma StartMarked(p: Profile, open: bool)
    ensures Marked(Start(p, open)) && Alternate([])
  {
  }

  lemma PeacefulStep(q: Queue, e: Event)
    requires Peaceful(e) && q.open && (q.blocked <==> q.pump.Waiting?)
    ensures var n := Happen(q, e);
      n.open && (n.blocked <==> n.pump.Waiting?) && !(Blocks(q, e) && q.blocked)
  {
  }

  /** High and low watermark events alternate, starting with high, in every run of an open channel
      without close or error. */
  lemma WatermarksAlternate(p: Profile, events: seq<Event>)
    requires forall k :: 0 <= k < |events| ==> Peaceful(events[k])
    ensures Alternate(Run(Start(p, true), events).marks)
  {
    PeacefulRun(p, events);
  }

  /** An error rejects the waiting send but leaves the flag: whatever the profile, the next send to block
      reports high a second time. */
  lemma ErrorBreaksAlternation(p: Profile)
    ensures !Alternate(Run(Start(p, true), [Send(p.high), Step(true), Send(1), ErrorEvent, Step(true), Send(1)]).marks)
  {
    var s := Start(p, true);
    var e1, e2, e3, e4, e5, e6 := Send(p.high), Step(true), Send(1), ErrorEvent, Step(true), Send(1);
    RunThree(s, [], e1, e2, e3);
    assert [] + [e1, e2, e3] == [e1, e2, e3];
    RunThree(s, [e1, e2, e3], e4, e5, e6);
    assert [e1, e2, e3] + [e4, e5, e6] == [e1, e2, e3, e4, e5, e6];
    var q3 := Run(s, [e1, e2, e3]);
    FillsUp(p);
    ErrorThenBlock(q3);
  }

  lemma FillsUp(p: Profile)
    ensures var q := Happen(Happen(Happen(Start(p, true), Send(p.high)), Step(true)), Send(1));
      && q.marks == [High] && q.pump.Waiting? && q.blocked && q.open && q.buffered == p.high && q.profile == p
      && q.pendingBytes == q.pump.item.bytes + Total(q.pending)
  {
    var q1 := Happen(Start(p, true), Send(p.high));
    assert q1.pending == [] && q1.pendingBytes == p.high;
    if p.high > 0 {
      assert q1.pump == Ready(Item(0, p.high));
      var q2 := Happen(q1, Step(true));
      assert q2.pump == Idle && q2.buffered == p.high && q2.pendingBytes == 0 && |q2.accepted| == 1;
      assert Happen(q2, Send(1)).pump == Waiting(Item(1, 1));
    } else {
      assert q1.pump == Waiting(Item(0, 0));
      OneTotal(Item(1, 1));
      assert Happen(q1, Step(true)) == q1;
      assert Happen(q1, Send(1)).pending == [Item(1, 1)];
    }
  }

  lemma ErrorThenBlock(q: Queue)
    requires q.marks == [High] && q.pump.Waiting? && q.blocked && q.open && q.buffered == q.profile.high
    requires q.pendingBytes == q.pump.item.bytes + Total(q.pending)
    ensures !Alternate(Happen(Happen(Happen(q, ErrorEvent), Step(true)), Send(1)).marks)
  {
    hide RejectAll;
    var q4 := Happen(q, ErrorEvent);
    assert q4.pump == Refused(q.pump.item) && q4.pendingBytes == q.pump.item.bytes && q4.pending == [];
    var q5 := Happen(q4, Step(true));
    assert q5.pump == Idle && q5.pendingBytes == 0 && q5.marks == [High];
    var marks := Happen(q5, Send(1)).marks;
    assert marks == [High, High];
    assert marks[1] == High;
  }
}
