/** The congestion controller's decisions, without its divisions. */
module CongestionMeaning {
  import opened Common
  import opened Congestion

  /** The least round-trip time seen, or ten milliseconds, but not below one. */
  function Base(c: Controller): real {
    var b := if c.minRtt == None then 10.0 else c.minRtt.value;
    if b < 1.0 then 1.0 else b
  }

  lemma RatioIs(c: Controller)
    ensures Base(c) == Baseline(c)
    ensures Congested(c) <==> c.rtt > 2.0 * Base(c)
    ensures Clear(c) <==> c.rtt < 1.5 * Base(c)
  {
    var b := Baseline(c);
    Ratio(c.rtt, b, 2.0);
    Ratio(c.rtt, b, 1.5);
  }

  lemma Ratio(r: real, b: real, k: real)
    requires b > 0.0
    ensures (r / b > k <==> r > k * b) && (r / b < k <==> r < k * b)
  {
    var q := r / b;
    assert q * b == r;
    if q > k {
      RealMono(k, q, b);
    } else if q < k {
      RealMono(q, k, b);
    }
  }

  lemma RealMono(x: real, y: real, b: real)
    requires x < y && b > 0.0
    ensures x * b < y * b
  {
    assert (y - x) * b > 0.0;
  }

  /** Less than 100 ms after the last update of a started controller nothing changes. Otherwise the window
      shrinks to seven tenths, though not below its minimum, if the round-trip time is more than twice its
      base or more is buffered than the window allows; it grows by 256 KiB on a direct or short path, else by
      64 KiB, though not above its maximum, if the time is less than one and a half times its base and less
      than four fifths of the window is buffered; and it stays as it is in between. */
  lemma UpdateMeaning(c: Controller, buffered: int, now: int)
    ensures var d := Happen(c, DoUpdate(buffered, now));
      if c.started && c.last > 0 && now < c.last + 100 then d == c
      else
        && d == c.(cwnd := d.cwnd, last := now)
        && (if c.rtt > 2.0 * Base(c) || buffered > c.cwnd then
              exists x: nat :: 10 * x <= 7 * c.cwnd < 10 * x + 10 && d.cwnd == if x < c.min then c.min else x
            else if c.rtt < 1.5 * Base(c) && (buffered < 0 || 5 * buffered < 4 * c.cwnd) && (buffered >= 0 || c.cwnd > 0) then
              var wider := c.cwnd + if c.direct || c.rtt < 10.0 then 262144 else 65536;
              d.cwnd == if wider > c.max then c.max else wider
            else d.cwnd == c.cwnd)
  {
    RatioIs(c);
    hide Congested, Clear, Base, Baseline;
    var x := c.cwnd * 7 / 10;
    assert 10 * x <= 7 * c.cwnd < 10 * x + 10;
  }

  /** A round-trip time of more than zero and no more than ten seconds is taken over, and remembered if it is
      the least; a bandwidth above zero is taken over. */
  lemma SampleMeaning(c: Controller, rtt: Option<real>, bandwidth: Option<real>)
    ensures var d := Happen(c, DoSample(rtt, bandwidth));
      var good := rtt != None && 0.0 < rtt.value && rtt.value <= 10_000.0;
      && d.rtt == (if good then rtt.value else c.rtt)
      && d.minRtt == (if good && (c.minRtt == None || rtt.value < c.minRtt.value) then rtt else c.minRtt)
      && d.bandwidth == (if bandwidth != None && bandwidth.value > 0.0 then bandwidth.value else c.bandwidth)
      && d == c.(rtt := d.rtt, minRtt := d.minRtt, bandwidth := d.bandwidth)
  {
  }

  /** A new controller has the window of its profile, no measurement, and a round-trip time of ten milliseconds. */
  lemma NewMeaning(p: Profile, direct: bool)
    ensures New(p, direct) == Controller(p.min, p.max, p.initial, 10.0, 0.0, None, 0, if p.chunk < 1 then 1 else p.chunk, false, direct)
  {
  }

  /** Starting forgets the last update; a reset forgets all measurements, and takes over a profile if one is given. */
  lemma ResetMeaning(c: Controller, profile: Option<Profile>)
    ensures Happen(c, DoStart) == c.(started := true, last := 0)
    ensures var d := Happen(c, DoReset(profile));
      && d.rtt == 10.0 && d.minRtt == None && d.bandwidth == 0.0 && d.last == 0 && !d.started && d.direct == c.direct
      && (profile == None ==> d.cwnd == c.cwnd && d.min == c.min && d.max == c.max && d.chunk == c.chunk)
      && (profile != None ==>
            var p := profile.value;
            d.cwnd == p.initial && d.min == p.min && d.max == p.max && d.chunk == if p.chunk < 1 then 1 else p.chunk)
  {
  }

  /** The recommended batch holds more than `k` chunks exactly if `k + 1` of them are a fifth of the window
      at most; it is at least one chunk, and at most 32. */
  lemma BatchMeaning(c: Controller, k: nat)
    requires c.chunk > 0 && 1 <= k < 32
    ensures 1 <= Batch(c) <= 32 && (Batch(c) > k <==> 5 * ((k + 1) * c.chunk) <= c.cwnd)
  {
    var fifth := c.cwnd * 2 / 10;
    assert 5 * fifth <= c.cwnd < 5 * fifth + 5;
    var n := fifth / c.chunk;
    assert n * c.chunk <= fifth < n * c.chunk + c.chunk;
    if n > k {
      MulMono(k + 1, n, c.chunk);
    } else {
      MulMono(n + 1, k + 1, c.chunk);
      assert (n + 1) * c.chunk == n * c.chunk + c.chunk;
    }
  }
}
