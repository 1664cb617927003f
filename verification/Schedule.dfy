/** The cleanup loop's two accumulate-and-reset counters, over exact time. */
module Schedule {

  /** The least whole number not below `x`. */
  function Ceil(x: real): (n: int)
    ensures (n - 1) as real < x <= n as real
  {
    -((-x).Floor)
  }

  /** How many ticks a counter needs: at least one, and enough to accumulate the interval. */
  function Period(interval: real, tick: real): (m: nat)
    requires tick > 0.0
    ensures m >= 1
  {
    if interval <= tick then 1 else Ceil(interval / tick)
  }

  /** The time of `n` ticks. */
  function Span(n: nat, tick: real): real {
    if n == 0 then 0.0 else Span(n - 1, tick) + tick
  }

  lemma {:induction false} SpanIsProduct(n: nat, tick: real)
    ensures Span(n, tick) == n as real * tick
  {
    if n > 0 {
      SpanIsProduct(n - 1, tick);
      assert n as real == (n - 1) as real + 1.0;
      assert n as real * tick == (n - 1) as real * tick + tick;
    }
  }

  lemma {:induction false} SpanMonotone(low: nat, high: nat, tick: real)
    requires low <= high && tick > 0.0
    ensures Span(low, tick) <= Span(high, tick)
    decreases high
  {
    if low < high {
      SpanMonotone(low, high - 1, tick);
    }
  }

  lemma Scaled(low: real, q: real, high: real, tick: real, product: real)
    requires low < q <= high && tick > 0.0 && q * tick == product
    ensures low * tick < product <= high * tick
  {
    assert product - low * tick == (q - low) * tick > 0.0;
    assert high * tick - product == (high - q) * tick >= 0.0;
  }

  lemma SpanReaches(m: nat, q: real, tick: real, interval: real)
    requires m > 0 && (m - 1) as real < q <= m as real && tick > 0.0 && q * tick == interval
    ensures Span(m - 1, tick) < interval <= Span(m, tick)
  {
    Scaled((m - 1) as real, q, m as real, tick, interval);
    SpanIsProduct(m, tick);
    SpanIsProduct(m - 1, tick);
  }

  /** The period is the least number of ticks, at least one, whose time reaches the interval. */
  lemma PeriodReaches(interval: real, tick: real)
    requires tick > 0.0
    ensures var m := Period(interval, tick);
            interval <= Span(m, tick) && (m > 1 ==> Span(m - 1, tick) < interval)
  {
    var m := Period(interval, tick);
    if interval <= tick {
      assert m == 1 && Span(0, tick) == 0.0;
      assert Span(m, tick) == tick;
    } else {
      var q := interval / tick;
      assert q * tick == interval;
      SpanReaches(m, q, tick, interval);
    }
  }

  datatype Counter = Counter(value: real, fired: nat)

  function Tick(c: Counter, interval: real, tick: real): Counter {
    var v := c.value + tick;
    if v >= interval then Counter(0.0, c.fired + 1) else Counter(v, c.fired)
  }

  function Ticks(n: nat, interval: real, tick: real): Counter {
    if n == 0 then Counter(0.0, 0) else Tick(Ticks(n - 1, interval, tick), interval, tick)
  }

  /** After `r` ticks since the last firing, the next one fires exactly when it completes the period. */
  lemma ReachedIff(r: nat, interval: real, tick: real)
    requires tick > 0.0 && r < Period(interval, tick)
    ensures Span(r, tick) + tick >= interval <==> r + 1 == Period(interval, tick)
  {
    var m := Period(interval, tick);
    PeriodReaches(interval, tick);
    assert Span(r + 1, tick) == Span(r, tick) + tick;
    if r + 1 < m {
      SpanMonotone(r + 1, m - 1, tick);
    }
  }

  /** Where the counter should be after `n` ticks. */
  function Expected(n: nat, m: nat, tick: real): Counter
    requires m > 0
  {
    Counter(Span(n % m, tick), n / m)
  }

  lemma ExpectedStep(n: nat, interval: real, tick: real)
    requires tick > 0.0 && n > 0
    ensures var m := Period(interval, tick);
            Tick(Expected(n - 1, m, tick), interval, tick) == Expected(n, m, tick)
  {
    var m := Period(interval, tick);
    var r := (n - 1) % m;
    NextDivMod(n, m);
    ReachedIff(r, interval, tick);
    assert Span(r + 1, tick) == Span(r, tick) + tick;
  }

  /** For every tick length and interval, the counter has fired once per period, after every number of
      ticks, and holds exactly the time since. */
  lemma {:induction false} FiredOncePerPeriod(n: nat, interval: real, tick: real)
    requires tick > 0.0
    ensures Ticks(n, interval, tick) == Expected(n, Period(interval, tick), tick)
  {
    if n > 0 {
      FiredOncePerPeriod(n - 1, interval, tick);
      ExpectedStep(n, interval, tick);
    }
  }

  /** The counter fires at tick `n` exactly when `n` is a multiple of the period. */
  lemma FiresIff(n: nat, interval: real, tick: real)
    requires tick > 0.0 && n > 0
    ensures Ticks(n - 1, interval, tick).value + tick >= interval <==> n % Period(interval, tick) == 0
  {
    var m := Period(interval, tick);
    var r := (n - 1) % m;
    FiredOncePerPeriod(n - 1, interval, tick);
    assert Ticks(n - 1, interval, tick).value == Span(r, tick);
    ReachedIff(r, interval, tick);
    NextDivMod(n, m);
  }

  lemma NextDivMod(n: nat, m: nat)
    requires n > 0 && m > 0
    ensures (n - 1) % m + 1 < m ==> n % m == (n - 1) % m + 1 && n / m == (n - 1) / m
    ensures (n - 1) % m + 1 == m ==> n % m == 0 && n / m == (n - 1) / m + 1
  {
    var q, r := (n - 1) / m, (n - 1) % m;
    assert n == q * m + (r + 1);
    if r + 1 < m {
      DivModUnique(n, m, q, r + 1);
    } else {
      assert n == (q + 1) * m;
      DivModUnique(n, m, q + 1, 0);
    }
  }

  lemma DivModUnique(n: nat, m: nat, q: nat, r: nat)
    requires m > 0 && r < m && n == q * m + r
    ensures n / m == q && n % m == r
  {
    var d := n / m - q;
    assert d * m == r - n % m;
    assert d >= 1 ==> d * m >= m;
    assert d <= -1 ==> d * m <= -1 * m;
  }

  // ------------------------------------------------------------------ the loop

  const POLL_INTERVAL := 20.0
  const IDLE_INTERVAL := 60.0
  const ORPHAN_INTERVAL := 300.0

  /** The idle sweep is due every third tick, the orphan sweep every fifteenth. */
  lemma Periods()
    ensures Period(IDLE_INTERVAL, POLL_INTERVAL) == 3 && Period(ORPHAN_INTERVAL, POLL_INTERVAL) == 15
  {
  }

  datatype Sweep = Idle(tick: nat) | Orphans(tick: nat) | OldClaims(tick: nat)

  /** The sweeps of the first `n` ticks, in order. */
  function Sweeps(n: nat): seq<Sweep> {
    if n == 0 then []
    else Sweeps(n - 1)
         + (if n % 3 == 0 then [Idle(n)] else [])
         + (if n % 15 == 0 then [Orphans(n), OldClaims(n)] else [])
  }

  lemma Multiples(t: nat)
    ensures (20 * t) % 60 == 0 <==> t % 3 == 0
    ensures (20 * t) % 300 == 0 <==> t % 15 == 0
  {
    DivModUnique(20 * t, 60, t / 3, 20 * (t % 3));
    DivModUnique(20 * t, 300, t / 15, 20 * (t % 15));
  }

  /** An idle sweep runs at exactly the ticks that complete a minute, the other two at exactly those that
      complete five minutes. */
  lemma {:induction false} SweepsIff(n: nat, t: nat)
    ensures Idle(t) in Sweeps(n) <==> 0 < t <= n && (20 * t) % 60 == 0
    ensures Orphans(t) in Sweeps(n) <==> 0 < t <= n && (20 * t) % 300 == 0
    ensures OldClaims(t) in Sweeps(n) <==> 0 < t <= n && (20 * t) % 300 == 0
  {
    Multiples(t);
    if n > 0 {
      SweepsIff(n - 1, t);
    }
  }

  /** Later entries belong to later ticks, or to the same tick and are of another kind. */
  predicate Advances(log: seq<Sweep>) {
    forall i, j | 0 <= i < j < |log| :: log[i].tick <= log[j].tick && log[i] != log[j]
  }

  lemma NextTickAdvances(before: seq<Sweep>, now: seq<Sweep>, n: nat)
    requires Advances(before) && Advances(now)
    requires (forall i | 0 <= i < |before| :: before[i].tick < n) && (forall i | 0 <= i < |now| :: now[i].tick == n)
    ensures Advances(before + now)
  {
    var all := before + now;
    forall i, j | 0 <= i < j < |all| ensures all[i].tick <= all[j].tick && all[i] != all[j] {
      if j < |before| {
        assert all[i] == before[i] && all[j] == before[j];
      } else if |before| <= i {
        assert all[i] == now[i - |before|] && all[j] == now[j - |before|];
      } else {
        assert all[i] == before[i] && all[j] == now[j - |before|];
      }
    }
  }

  /** The sweeps of one tick. */
  function SweepsAt(n: nat): (now: seq<Sweep>)
    ensures Advances(now) && forall i | 0 <= i < |now| :: now[i].tick == n
  {
    (if n % 3 == 0 then [Idle(n)] else []) + (if n % 15 == 0 then [Orphans(n), OldClaims(n)] else [])
  }

  /** Sweeps come in the order of their ticks, and none runs twice. */
  lemma {:induction false} SweepsAdvance(n: nat)
    ensures Advances(Sweeps(n)) && forall i | 0 <= i < |Sweeps(n)| :: 0 < Sweeps(n)[i].tick <= n
  {
    if n > 0 {
      SweepsAdvance(n - 1);
      assert Sweeps(n) == Sweeps(n - 1) + SweepsAt(n);
      NextTickAdvances(Sweeps(n - 1), SweepsAt(n), n);
    }
  }

  /** Every orphan sweep comes right after an idle sweep and right before a claim sweep of its tick. */
  lemma {:induction false} OrphanSweepFollowsIdle(n: nat, i: nat)
    requires i < |Sweeps(n)| && Sweeps(n)[i].Orphans?
    ensures var t := Sweeps(n)[i].tick;
            0 < i < |Sweeps(n)| - 1 && Sweeps(n)[i - 1] == Idle(t) && Sweeps(n)[i + 1] == OldClaims(t)
  {
    if i < |Sweeps(n - 1)| {
      OrphanSweepFollowsIdle(n - 1, i);
    } else {
      assert n % 15 == 0 ==> n % 3 == 0;
    }
  }

  method CleanupLoop(ticks: nat) returns (log: seq<Sweep>)
    ensures log == Sweeps(ticks)
  {
    log := [];
    var idle, orphan := 0.0, 0.0;
    var n := 0;
    while n < ticks
      invariant 0 <= n <= ticks
      invariant log == Sweeps(n)
      invariant idle == Ticks(n, IDLE_INTERVAL, POLL_INTERVAL).value
      invariant orphan == Ticks(n, ORPHAN_INTERVAL, POLL_INTERVAL).value
    {
      n := n + 1;
      Periods();
      FiresIff(n, IDLE_INTERVAL, POLL_INTERVAL);
      FiresIff(n, ORPHAN_INTERVAL, POLL_INTERVAL);
      idle := idle + POLL_INTERVAL;
      if idle >= IDLE_INTERVAL {
        idle := 0.0;
        log := log + [Idle(n)];
      }
      orphan := orphan + POLL_INTERVAL;
      if orphan >= ORPHAN_INTERVAL {
        orphan := 0.0;
        log := log + [Orphans(n)];
        log := log + [OldClaims(n)];
      }
    }
  }
}
