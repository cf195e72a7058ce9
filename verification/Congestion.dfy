/** The additive-increase, multiplicative-decrease window of `AdaptiveCongestionController`.
    Times of flight are exact numbers here; the factors 0.7, 0.8 and 0.2 are the fractions they stand for. */
module Congestion {
  import opened Common

  datatype Profile = Profile(min: nat, initial: nat, max: nat, chunk: nat)

  predicate Sane(p: Profile) {
    p.min <= p.initial <= p.max
  }

  datatype Controller = Controller(
    min: nat, max: nat, cwnd: nat, rtt: real, bandwidth: real, minRtt: Option<real>,
    last: int, chunk: nat, started: bool, direct: bool)

  function New(p: Profile, direct: bool): Controller {
    Controller(p.min, p.max, p.initial, 10.0, 0.0, None, 0, Max(1, p.chunk), false, direct)
  }

  function Start(c: Controller): Controller {
    c.(started := true, last := 0)
  }

  /** `reset`; the kind of path stays what it was. */
  function Reset(c: Controller, profile: Option<Profile>): Controller {
    var d := if profile.None? then c
             else c.(min := profile.value.min, max := profile.value.max, cwnd := profile.value.initial, chunk := Max(1, profile.value.chunk));
    d.(rtt := 10.0, bandwidth := 0.0, minRtt := None, last := 0, started := false)
  }

  /** `updateFromCandidateStats`: samples out of range are ignored. */
  function Sample(c: Controller, rtt: Option<real>, bandwidth: Option<real>): Controller {
    var d := if rtt.Some? && 0.0 < rtt.value <= 10_000.0 then
               c.(rtt := rtt.value, minRtt := if c.minRtt.None? || rtt.value < c.minRtt.value then rtt else c.minRtt)
             else c;
    if bandwidth.Some? && bandwidth.value > 0.0 then d.(bandwidth := bandwidth.value) else d
  }

  predicate Throttled(c: Controller, now: int) {
    c.started && c.last > 0 && now - c.last < 100
  }

  function Baseline(c: Controller): real {
    var b := if c.minRtt.None? then 10.0 else c.minRtt.value;
    if b > 1.0 then b else 1.0
  }

  /** The round-trip time is more than twice its baseline. */
  predicate Congested(c: Controller) {
    c.rtt / Baseline(c) > 2.0
  }

  predicate Clear(c: Controller) {
    c.rtt / Baseline(c) < 1.5
  }

  function Increase(c: Controller): nat {
    if c.direct || c.rtt < 10.0 then 256 * 1024 else 64 * 1024
  }

  function Adjusted(c: Controller, buffered: int): nat {
    var buffer := Max(0, buffered);
    if Congested(c) || buffer > c.cwnd then Max(c.min, c.cwnd * 7 / 10)
    else if Clear(c) && 10 * buffer < 8 * c.cwnd then Min(c.max, c.cwnd + Increase(c))
    else c.cwnd
  }

  /** `updateBufferState`. */
  function Update(c: Controller, buffered: int, now: int): Controller {
    if Throttled(c, now) then c else c.(cwnd := Adjusted(c, buffered), last := now)
  }

  /** The batch size of `getSnapshot`. */
  function Batch(c: Controller): nat
    requires c.chunk > 0
  {
    Max(1, Min(32, c.cwnd * 2 / 10 / c.chunk))
  }

  class AdaptiveCongestionController {
    var cwndBytes: nat
    var minCwnd: nat
    var maxCwnd: nat
    var estimatedRttMs: real
    var estimatedBwBps: real
    var minRtt: Option<real>
    var lastUpdateTime: int
    var chunkSizeBytes: nat
    var started: bool
    const direct: bool

    ghost function Abs(): Controller
      reads this
    {
      Controller(minCwnd, maxCwnd, cwndBytes, estimatedRttMs, estimatedBwBps, minRtt, lastUpdateTime, chunkSizeBytes, started, direct)
    }

    constructor (p: Profile, direct: bool)
      ensures Abs() == New(p, direct)
    {
      minCwnd, maxCwnd, cwndBytes, chunkSizeBytes := p.min, p.max, p.initial, Max(1, p.chunk);
      estimatedRttMs, estimatedBwBps, minRtt, lastUpdateTime, started := 10.0, 0.0, None, 0, false;
      this.direct := direct;
    }

    method UpdateFromCandidateStats(rtt: Option<real>, bandwidth: Option<real>)
      modifies this
      ensures Abs() == Sample(old(Abs()), rtt, bandwidth)
    {
      if rtt.Some? && rtt.value > 0.0 && rtt.value <= 10_000.0 {
        estimatedRttMs := rtt.value;
        if minRtt.None? || rtt.value < minRtt.value {
          minRtt := rtt;
        }
      }
      if bandwidth.Some? && bandwidth.value > 0.0 {
        estimatedBwBps := bandwidth.value;
      }
    }

    method UpdateBufferState(bufferedAmountBytes: int, now: int) returns (batch: nat)
      requires chunkSizeBytes > 0
      modifies this
      ensures Abs() == Update(old(Abs()), bufferedAmountBytes, now) && batch == Batch(Abs())
    {
      if !(started && lastUpdateTime > 0 && now - lastUpdateTime < 100) {
        var baseline := if minRtt.None? then 10.0 else minRtt.value;
        var rttRatio := estimatedRttMs / (if baseline > 1.0 then baseline else 1.0);
        var buffer := Max(0, bufferedAmountBytes);
        if rttRatio > 2.0 || buffer > cwndBytes {
          cwndBytes := Max(minCwnd, cwndBytes * 7 / 10);
        } else if rttRatio < 1.5 && 10 * buffer < 8 * cwndBytes {
          var increase := if direct || estimatedRttMs < 10.0 then 256 * 1024 else 64 * 1024;
          cwndBytes := Min(maxCwnd, cwndBytes + increase);
        }
        lastUpdateTime := now;
      }
      batch := Max(1, Min(32, cwndBytes * 2 / 10 / chunkSizeBytes));
    }
  }

  // ----- every run -----

  datatype Event = DoStart | DoReset(profile: Option<Profile>) | DoSample(rtt: Option<real>, bandwidth: Option<real>) | DoUpdate(buffered: int, now: int)

  function Happen(c: Controller, e: Event): Controller {
    match e
    case DoStart => Start(c)
    case DoReset(p) => Reset(c, p)
    case DoSample(rtt, bandwidth) => Sample(c, rtt, bandwidth)
    case DoUpdate(buffered, now) => Update(c, buffered, now)
  }

  function Run(c: Controller, events: seq<Event>): Controller {
    if events == [] then c else Happen(Run(c, events[..|events| - 1]), events[|events| - 1])
  }

  /** In every run the window stays between its bounds, and the recommended batch between 1 and 32. */
  lemma {:induction false} WindowStaysInBounds(p: Profile, direct: bool, events: seq<Event>)
    requires Sane(p) && forall k :: 0 <= k < |events| && events[k].DoReset? && events[k].profile.Some? ==> Sane(events[k].profile.value)
    ensures var c := Run(New(p, direct), events);
      && c.min <= c.cwnd <= c.max && c.chunk > 0 && 1 <= Batch(c) <= 32
  {
    if events != [] {
      WindowStaysInBounds(p, direct, events[..|events| - 1]);
      AdjustedInBounds(Run(New(p, direct), events[..|events| - 1]), events[|events| - 1]);
    }
  }

  lemma AdjustedInBounds(c: Controller, e: Event)
    requires c.min <= c.cwnd <= c.max && c.chunk > 0
    requires e.DoReset? && e.profile.Some? ==> Sane(e.profile.value)
    ensures var d := Happen(c, e); d.min <= d.cwnd <= d.max && d.chunk > 0
  {
    assert c.cwnd * 7 / 10 <= c.cwnd;
  }

  // ----- convergence -----

  /** Updates only, none of them throttled: each takes effect. */
  ghost predicate Effective(c: Controller, events: seq<Event>) {
    forall k :: 0 <= k < |events| ==> events[k].DoUpdate? && !Throttled(Run(c, events[..k]), events[k].now)
  }

  lemma EffectivePrefix(c: Controller, events: seq<Event>, n: nat)
    requires Effective(c, events) && n <= |events|
    ensures Effective(c, events[..n])
  {
    hide Run, Throttled;
    assert forall k :: 0 <= k < n ==> events[..n][..k] == events[..k] && events[..n][k] == events[k];
  }

  lemma {:induction false} RunSplit(c: Controller, a: seq<Event>, b: seq<Event>)
    ensures Run(c, a + b) == Run(Run(c, a), b)
  {
    hide Happen;
    if b == [] {
      assert a + b == a;
    } else {
      RunSplit(c, a, b[..|b| - 1]);
      assert (a + b)[..|a + b| - 1] == a + b[..|b| - 1];
    }
  }

  lemma EffectiveRest(c: Controller, events: seq<Event>, n: nat)
    requires Effective(c, events) && n <= |events|
    ensures Effective(Run(c, events[..n]), events[n..]) && Run(c, events) == Run(Run(c, events[..n]), events[n..])
  {
    hide Run, Throttled;
    RunSplit(c, events[..n], events[n..]);
    assert events[..n] + events[n..] == events;
    forall k | 0 <= k < |events| - n
      ensures Run(Run(c, events[..n]), events[n..][..k]) == Run(c, events[..n + k])
    {
      RunSplit(c, events[..n], events[n..][..k]);
      assert events[..n] + events[n..][..k] == events[..n + k];
    }
    assert forall k :: 0 <= k < |events| - n ==> events[n..][k] == events[n + k];
  }

  /** Updates change the window and the time of the last update only. */
  lemma {:induction false} UpdatesFrame(c: Controller, events: seq<Event>)
    requires forall k :: 0 <= k < |events| ==> events[k].DoUpdate?
    ensures var d := Run(c, events); d == c.(cwnd := d.cwnd, last := d.last)
  {
    hide Adjusted, Throttled;
    if events != [] {
      UpdatesFrame(c, events[..|events| - 1]);
    }
  }

  /** How often a number can be halved before it is zero. */
  function Halvings(n: nat): nat {
    if n == 0 then 0 else 1 + Halvings(n / 2)
  }

  lemma {:induction false} HalvingsMonotone(a: nat, b: nat)
    requires a <= b
    ensures Halvings(a) <= Halvings(b)
  {
    if a > 0 {
      HalvingsMonotone(a / 2, b / 2);
    }
  }

  /** While the round-trip time is congested, whatever the buffer readings, every update that takes
      effect shrinks a window above its minimum, and none grows it. */
  lemma {:induction false} CongestionShrinks(c: Controller, events: seq<Event>)
    requires c.min <= c.cwnd <= c.max && Congested(c) && Effective(c, events)
    ensures var d := Run(c, events);
      && c.min <= d.cwnd <= c.cwnd
      && (events != [] ==>
            var before := Run(c, events[..|events| - 1]).cwnd;
            && d.cwnd == Max(c.min, before * 7 / 10) && (before > c.min ==> d.cwnd < before))
  {
    if events != [] {
      var n := |events| - 1;
      EffectivePrefix(c, events, n);
      CongestionShrinks(c, events[..n]);
      assert forall k :: 0 <= k < n ==> events[..n][k] == events[k];
      UpdatesFrame(c, events[..n]);
      var b := Run(c, events[..n]);
      assert Congested(b);
      assert b.cwnd * 7 / 10 <= b.cwnd && (b.cwnd > 0 ==> b.cwnd * 7 / 10 < b.cwnd);
    }
  }

  /** Two such updates at least halve the window, or bring it to its minimum. */
  lemma TwoHalve(c: Controller, events: seq<Event>)
    requires c.min <= c.cwnd <= c.max && Congested(c) && Effective(c, events) && |events| == 2
    ensures Run(c, events).cwnd <= Max(c.min, c.cwnd / 2)
  {
    hide Effective, Happen;
    EffectivePrefix(c, events, 1);
    CongestionShrinks(c, events);
    CongestionShrinks(c, events[..1]);
    assert events[..1][..0] == [];
    assert Run(c, []) == c;
    var once := Max(c.min, c.cwnd * 7 / 10);
    assert once * 7 / 10 <= Max(c.min, c.cwnd / 2);
  }

  /** So twice as many updates as the window can be halved bring it down to its minimum, and it stays there. */
  lemma {:induction false} CongestionReachesMin(c: Controller, events: seq<Event>)
    requires c.min <= c.cwnd <= c.max && Congested(c) && Effective(c, events)
    requires |events| >= 2 * Halvings(c.cwnd)
    ensures Run(c, events).cwnd == c.min
    decreases |events|
  {
    CongestionShrinks(c, events);
    if c.cwnd > c.min {
      var two, rest := events[..2], events[2..];
      var d := Run(c, two);
      EffectivePrefix(c, events, 2);
      EffectiveRest(c, events, 2);
      TwoHalve(c, two);
      CongestionShrinks(c, two);
      assert forall k :: 0 <= k < 2 ==> two[k] == events[k];
      UpdatesFrame(c, two);
      assert Congested(d);
      hide Effective, Congested, Run;
      CongestionShrinks(d, rest);
      if d.cwnd > c.min {
        HalvingsMonotone(d.cwnd, c.cwnd / 2);
        CongestionReachesMin(d, rest);
      }
    }
  }

  predicate EmptyBuffer(events: seq<Event>) {
    forall k :: 0 <= k < |events| ==> events[k].DoUpdate? && events[k].buffered <= 0
  }

  lemma ClearStep(c: Controller, e: Event)
    requires c.min <= c.cwnd <= c.max && !Congested(c) && Clear(c) && e.DoUpdate? && e.buffered <= 0 && !Throttled(c, e.now)
    ensures Happen(c, e).cwnd == if c.cwnd == 0 then 0 else Min(c.max, c.cwnd + Increase(c))
  {
    hide Congested, Clear, Increase;
  }

  lemma LastEffective(c: Controller, events: seq<Event>)
    requires Effective(c, events) && events != []
    ensures !Throttled(Run(c, events[..|events| - 1]), events[|events| - 1].now)
  {
    hide Throttled, Run;
  }

  /** Where the window is, nothing else decides whether the path is clear or how far an update goes. */
  lemma StaysClear(c: Controller, events: seq<Event>)
    requires !Congested(c) && Clear(c) && EmptyBuffer(events)
    ensures var d := Run(c, events);
      !Congested(d) && Clear(d) && Increase(d) == Increase(c) && d.min == c.min && d.max == c.max
  {
    UpdatesFrame(c, events);
    hide Run;
  }

  /** Clear updates over an empty buffer add the same step each time, up to the maximum. */
  lemma {:induction false} ClearGrows(c: Controller, events: seq<Event>)
    requires c.min <= c.cwnd <= c.max && !Congested(c) && Clear(c) && Effective(c, events) && EmptyBuffer(events)
    ensures Run(c, events).cwnd == if c.cwnd == 0 then 0 else Min(c.max, c.cwnd + |events| * Increase(c))
  {
    hide Effective, Happen, Congested, Clear, Increase, Throttled;
    if events != [] {
      var n := |events| - 1;
      EffectivePrefix(c, events, n);
      LastEffective(c, events);
      ClearGrows(c, events[..n]);
      StaysClear(c, events[..n]);
      ClearStep(Run(c, events[..n]), events[n]);
      assert (n + 1) * Increase(c) == n * Increase(c) + Increase(c);
    }
  }

  /** So ceil((max - min) / step) of them bring the window to its maximum, exactly if it was not zero to
      begin with, or the maximum is zero too: an empty window never counts as clear. */
  lemma ClearReachesMax(c: Controller, events: seq<Event>)
    requires c.min <= c.cwnd <= c.max && !Congested(c) && Clear(c) && Effective(c, events) && EmptyBuffer(events)
    requires |events| * Increase(c) >= c.max - c.min
    ensures Run(c, events).cwnd == c.max <==> c.cwnd > 0 || c.max == 0
  {
    ClearGrows(c, events);
  }

  // ----- pacing -----

  /** Updates only, at times that never go back. */
  ghost predicate Timed(events: seq<Event>, from: int) {
    && (forall k :: 0 <= k < |events| ==> events[k].DoUpdate? && events[k].now >= from)
    && (forall j, k :: 0 <= j < k < |events| && events[j].DoUpdate? && events[k].DoUpdate? ==> events[j].now <= events[k].now)
  }

  lemma PacedStep(c: Controller, buffered: int, now: int)
    requires c.started && c.last > 0 && c.min <= c.cwnd <= c.max && c.last <= now
    ensures var d := Update(c, buffered, now);
      && d.started && c.last <= d.last <= now && d.min <= d.cwnd <= d.max
      && 100 * (d.cwnd - c.cwnd) <= 256 * 1024 * (d.last - c.last)
  {
    if !Throttled(c, now) {
      assert c.cwnd * 7 / 10 <= c.cwnd;
      assert Adjusted(c, buffered) <= c.cwnd + 256 * 1024;
    }
  }

  /** However often it is called, a started controller widens the window by no more than 256 KiB for
      every 100 ms that pass. */
  lemma {:induction false} GrowthIsPaced(c: Controller, events: seq<Event>)
    requires c.started && c.last > 0 && c.min <= c.cwnd <= c.max && Timed(events, c.last)
    ensures var d := Run(c, events);
      && d.started && d.last >= c.last && (events != [] ==> d.last <= events[|events| - 1].now) && (events == [] ==> d == c)
      && d.min <= d.cwnd <= d.max && 100 * (d.cwnd - c.cwnd) <= 256 * 1024 * (d.last - c.last)
  {
    hide Update;
    if events != [] {
      var n := |events| - 1;
      assert Timed(events[..n], c.last) by { TimedPrefix(events, c.last, n); }
      GrowthIsPaced(c, events[..n]);
      if n > 0 {
        assert events[..n][n - 1] == events[n - 1];
      }
      PacedStep(Run(c, events[..n]), events[n].buffered, events[n].now);
    }
  }

  lemma TimedPrefix(events: seq<Event>, from: int, n: nat)
    requires Timed(events, from) && n <= |events|
    ensures Timed(events[..n], from)
  {
  }
}
