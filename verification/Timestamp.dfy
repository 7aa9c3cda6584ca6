/** Commit timestamps: unix seconds above an 18-bit counter for commits within one second. */
module Timestamps {
  const LOGICAL_RANGE: nat := 0x4_0000

  /** Seconds beyond this do not fit above the counter in a u64. */
  const CLOCK_LIMIT: nat := 0x4000_0000_0000

  datatype Timestamp = Timestamp(physical: nat, logical: nat) {
    function AsU64(): nat {
      physical * LOGICAL_RANGE + logical
    }
  }

  function FromU64(n: nat): Timestamp {
    Timestamp(n / LOGICAL_RANGE, n % LOGICAL_RANGE)
  }

  /** The first timestamp a process takes. */
  function New(now: nat): Timestamp {
    Timestamp(now, 0)
  }

  /** The timestamp taken at clock reading `now` after `prev`. */
  function After(prev: Timestamp, now: nat): Timestamp {
    Timestamp(now, if now <= prev.physical then prev.logical + 1 else 0)
  }

  lemma RoundTrip(n: nat)
    ensures FromU64(n).AsU64() == n
  {
  }

  lemma RoundTripBack(t: Timestamp)
    ensures FromU64(t.AsU64()) == t <==> t.logical < LOGICAL_RANGE
  {
    if t.logical < LOGICAL_RANGE {
      DivMod(t.physical, t.logical);
    }
  }

  lemma DivMod(p: nat, l: nat)
    requires l < LOGICAL_RANGE
    ensures (p * LOGICAL_RANGE + l) / LOGICAL_RANGE == p
    ensures (p * LOGICAL_RANGE + l) % LOGICAL_RANGE == l
  {
  }

  /** The next timestamp is later exactly when the clock has not gone back and, if it has moved on,
      the counter had not overrun the seconds that passed. */
  lemma AfterIncreases(prev: Timestamp, now: nat)
    ensures After(prev, now).AsU64() > prev.AsU64() <==>
            && now >= prev.physical
            && (now > prev.physical ==> prev.logical < (now - prev.physical) * LOGICAL_RANGE)
  {
    assert (now - prev.physical) * LOGICAL_RANGE == now * LOGICAL_RANGE - prev.physical * LOGICAL_RANGE;
  }

  /** A clock that steps back by one second repeats or undercuts timestamps already used. */
  lemma ClockStepBack()
    ensures var prev := Timestamp(100, 0);
            After(prev, 99).AsU64() < prev.AsU64()
  {
  }

  /** A restarted process does not know the last timestamp and starts its counter over, so its first
      timestamp is later exactly when the last commit's second has passed. */
  lemma RestartIncreases(last: Timestamp, now: nat)
    requires last.logical < LOGICAL_RANGE
    ensures New(now).AsU64() > last.AsU64() <==> now > last.physical
  {
    if now <= last.physical {
      assert now * LOGICAL_RANGE <= last.physical * LOGICAL_RANGE;
    } else {
      assert now * LOGICAL_RANGE >= last.physical * LOGICAL_RANGE + LOGICAL_RANGE;
    }
  }

  /** Two commits in second 100 and a restart within it: the next timestamp undercuts the last. */
  lemma RestartSameSecond()
    ensures var last := After(New(100), 100);
            New(100).AsU64() < last.AsU64()
  {
  }

  // --- the clock

  /** The readings a clock will give, up to some horizon: they do not go back, they fit a timestamp, and
      of any `LOGICAL_RANGE + 1` in a row not all fall into one second. */
  ghost predicate GoodClock(clock: nat -> nat, horizon: nat) {
    && (forall i, j | 0 <= i <= j < horizon :: clock(i) <= clock(j))
    && (forall i | 0 <= i < horizon :: clock(i) < CLOCK_LIMIT)
    && (forall i: nat, j | j == i + LOGICAL_RANGE && j < horizon :: clock(i) < clock(j))
  }

  /** A timestamp taken at the latest reading: its counter counts the readings since its second began. */
  ghost predicate TakenAt(clock: nat -> nat, ticks: nat, t: Timestamp) {
    && t.logical < LOGICAL_RANGE && t.logical < ticks
    && clock(ticks - 1 - t.logical) == t.physical == clock(ticks - 1)
  }

  /** The next timestamp after such a one is again such a one, and later. */
  lemma TakesNext(clock: nat -> nat, horizon: nat, ticks: nat, prev: Timestamp)
    requires GoodClock(clock, horizon) && ticks < horizon && TakenAt(clock, ticks, prev)
    ensures TakenAt(clock, ticks + 1, After(prev, clock(ticks)))
    ensures After(prev, clock(ticks)).AsU64() > prev.AsU64()
  {
    var first := ticks - 1 - prev.logical;
    assert clock(ticks - 1) <= clock(ticks);
    assert prev.logical + 1 == LOGICAL_RANGE ==> ticks == first + LOGICAL_RANGE;
    AfterIncreases(prev, clock(ticks));
  }

  /** The second of a packed timestamp. */
  function Second(ts: nat): nat {
    FromU64(ts).physical
  }

  lemma PackedFits(t: Timestamp)
    requires t.physical < CLOCK_LIMIT && t.logical < LOGICAL_RANGE
    ensures t.AsU64() < 0x1_0000_0000_0000_0000 && Second(t.AsU64()) == t.physical
  {
    RoundTripBack(t);
    assert (CLOCK_LIMIT - 1) * LOGICAL_RANGE + LOGICAL_RANGE == 0x1_0000_0000_0000_0000;
    assert t.physical * LOGICAL_RANGE <= (CLOCK_LIMIT - 1) * LOGICAL_RANGE;
  }
}
