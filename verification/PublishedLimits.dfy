/** A configuration that passes the check keeps the vendors' published limits, in every run. */
module PublishedLimits {
  import opened Prelude
  import opened HostScheduling
  import opened CircuitBreaker
  import opened Governor
  import opened GovernorLedger
  import GovernorPacing
  import opened GovernorRuns
  import opened Registry
  import Stores = AllowanceStores
  import Witness = GovernorWitness

  // ---------------------------------------------------------------------------
  // Calls per second.
  // ---------------------------------------------------------------------------

  /** At `d` calls a second, `d` delays fill the second. */
  lemma DelaysFillTheSecond(ceiling: HostCeiling, d: real)
    requires ceiling.minDelayMs >= 1 && DelayRate(ceiling) <= d
    ensures d * ceiling.minDelayMs as real >= 1000.0
  {
    var m := ceiling.minDelayMs as real;
    assert (1000.0 / m) * m == 1000.0;
    assert (d - 1000.0 / m) * m >= 0.0;
  }

  lemma PositiveFactor(x: real, m: real)
    requires m > 0.0 && x * m > 0.0
    ensures x > 0.0
  {
    assert x == (x * m) / m;
  }

  lemma FewerThanFill(n: nat, m: nat, d: real)
    requires n * m < 1000 && m >= 1 && d * m as real >= 1000.0
    ensures n as real < d
  {
    assert (n * m) as real == n as real * m as real;
    assert (d - n as real) * m as real == d * m as real - n as real * m as real;
    PositiveFactor(d - n as real, m as real);
  }

  /** Releases spaced that far apart are fewer than `d + 1` in any half-open second: at most `d`, when that is an integer. */
  lemma SecondHoldsAtMost(h: seq<int>, ceiling: HostCeiling, d: real, t: int)
    requires ceiling.Valid() && Ascending(h) && Paced(h, ceiling) && DelayRate(ceiling) <= d
    ensures CountWithin(h, t - 1000, t) as real < d + 1.0
  {
    DelaysFillTheSecond(ceiling, d);
    var a, b := CountIsSlice(h, t - 1000, t);
    if b > a {
      StretchTakesDelays(h, ceiling, a, b - a - 1);
      FewerThanFill(b - a - 1, ceiling.minDelayMs, d);
    } else {
      FewerThanFill(0, ceiling.minDelayMs, d);
    }
  }

  /**
   PER SECOND: in every run of a governor that passes, no second sees more releases to the host
   than the vendor publishes.
   */
  lemma PublishedRateIsKept(c: Config, states: seq<State>, events: seq<Event>, i: nat, source: Source, entry: SourceEntry, d: real, t: int)
    requires c.Valid() && IsRun(c, states, events) && i < |states|
    requires Compliant(c, source, entry) && entry.terms.Some? && entry.terms.value.perSecond == Some(d)
    ensures CountWithin(ReleasedOf(states[i], entry.host), t - 1000, t) as real < d + 1.0
    ensures d == d.Floor as real ==> CountWithin(ReleasedOf(states[i], entry.host), t - 1000, t) <= d.Floor
  {
    InvAlways(c, states, events, i);
    assert GovernorPacing.HostOk(c, states[i], entry.host);
    SecondHoldsAtMost(ReleasedOf(states[i], entry.host), c.hosts[entry.host], d, t);
  }

  // ---------------------------------------------------------------------------
  // Calls per day.
  // ---------------------------------------------------------------------------

  /** Does this departure spend a unit of a period that starts in `day`? */
  predicate SpendsIn(d: Departure, source: Source, day: int) {
    d.key.Some? && d.key.value.source == source && day * DAY_MS <= d.key.value.periodStart < (day + 1) * DAY_MS
  }

  function SpentIn(wire: seq<Departure>, n: nat, source: Source, day: int): nat
    requires n <= |wire|
  {
    if n == 0 then 0 else SpentIn(wire, n - 1, source, day) + if SpendsIn(wire[n - 1], source, day) then 1 else 0
  }

  /** The units left of the periods numbered `from` up to `upTo`. */
  function LeftOver(wire: seq<Departure>, n: nat, source: Source, periodMs: nat, from: int, upTo: int): nat
    requires n <= |wire| && from <= upTo
    decreases upTo - from
  {
    if from == upTo then 0
    else LeftOver(wire, n, source, periodMs, from, upTo - 1) + CountLeft(wire, n, Stores.Key(source, (upTo - 1) * periodMs))
  }

  /** One more departure counts for the one period its key names. */
  lemma {:induction false} OneMoreCountsOnce(wire: seq<Departure>, n: nat, source: Source, periodMs: nat, from: int, upTo: int, k: int)
    requires 0 < n <= |wire| && from <= upTo && periodMs >= 1
    requires wire[n - 1].key == Some(Stores.Key(source, k * periodMs))
    ensures LeftOver(wire, n, source, periodMs, from, upTo) ==
            LeftOver(wire, n - 1, source, periodMs, from, upTo) + if from <= k < upTo then 1 else 0
    decreases upTo - from
  {
    if from < upTo {
      OneMoreCountsOnce(wire, n, source, periodMs, from, upTo - 1, k);
      MultiplesDiffer(k, upTo - 1, periodMs);
    }
  }

  lemma MultiplesDiffer(a: int, b: int, n: nat)
    requires n >= 1
    ensures a * n == b * n <==> a == b
    ensures a <= b <==> a * n <= b * n
  {
    Differs(a, b, n);
    TimesIsFar(a - b, n);
  }

  lemma {:induction false} OthersDoNotCount(wire: seq<Departure>, n: nat, source: Source, periodMs: nat, from: int, upTo: int)
    requires 0 < n <= |wire| && from <= upTo
    requires wire[n - 1].key.Some? ==> wire[n - 1].key.value.source != source
    ensures LeftOver(wire, n, source, periodMs, from, upTo) == LeftOver(wire, n - 1, source, periodMs, from, upTo)
    decreases upTo - from
  {
    if from < upTo {
      OthersDoNotCount(wire, n, source, periodMs, from, upTo - 1);
    }
  }

  ghost predicate AlignedKeys(wire: seq<Departure>, source: Source, periodMs: nat) {
    forall i :: 0 <= i < |wire| && wire[i].key.Some? && wire[i].key.value.source == source ==>
      Aligned(wire[i].key.value.periodStart, periodMs)
  }

  /** When periods divide the day, the units of a day are those of its periods. */
  lemma {:induction false} DayIsItsPeriods(wire: seq<Departure>, n: nat, source: Source, periodMs: nat, perDay: nat, day: int)
    requires n <= |wire| && periodMs >= 1 && perDay * periodMs == DAY_MS && AlignedKeys(wire, source, periodMs)
    ensures day * perDay <= (day + 1) * perDay
    ensures SpentIn(wire, n, source, day) == LeftOver(wire, n, source, periodMs, day * perDay, (day + 1) * perDay)
    decreases n
  {
    DayBounds(day, perDay, periodMs);
    if n == 0 {
      NothingLeft(wire, source, periodMs, day * perDay, (day + 1) * perDay);
    } else {
      DayIsItsPeriods(wire, n - 1, source, periodMs, perDay, day);
      var key := wire[n - 1].key;
      if key.Some? && key.value.source == source {
        var k := key.value.periodStart / periodMs;
        assert Aligned(key.value.periodStart, periodMs);
        OneMoreCountsOnce(wire, n, source, periodMs, day * perDay, (day + 1) * perDay, k);
        MultiplesDiffer(day * perDay, k, periodMs);
        MultiplesDiffer((day + 1) * perDay, k, periodMs);
      } else {
        OthersDoNotCount(wire, n, source, periodMs, day * perDay, (day + 1) * perDay);
      }
    }
  }

  lemma DayBounds(day: int, perDay: nat, periodMs: nat)
    requires perDay * periodMs == DAY_MS
    ensures day * perDay <= (day + 1) * perDay
    ensures (day * perDay) * periodMs == day * DAY_MS && ((day + 1) * perDay) * periodMs == (day + 1) * DAY_MS
  {
    assert (day * perDay) * periodMs == day * (perDay * periodMs);
    assert ((day + 1) * perDay) * periodMs == (day + 1) * (perDay * periodMs);
  }

  lemma {:induction false} NothingLeft(wire: seq<Departure>, source: Source, periodMs: nat, from: int, upTo: int)
    requires from <= upTo
    ensures LeftOver(wire, 0, source, periodMs, from, upTo) == 0
    decreases upTo - from
  {
    if from < upTo {
      NothingLeft(wire, source, periodMs, from, upTo - 1);
    }
  }

  lemma {:induction false} PeriodsAddUp(wire: seq<Departure>, source: Source, periodMs: nat, limit: nat, from: int, upTo: int)
    requires from <= upTo && forall k :: CountLeft(wire, |wire|, Stores.Key(source, k)) <= limit
    ensures LeftOver(wire, |wire|, source, periodMs, from, upTo) <= (upTo - from) * limit
    decreases upTo - from
  {
    if from < upTo {
      PeriodsAddUp(wire, source, periodMs, limit, from, upTo - 1);
      assert (upTo - from) * limit == (upTo - 1 - from) * limit + limit;
    }
  }

  /** PER DAY: when the period divides the day, no day of any run spends more units than the vendor publishes. */
  lemma PublishedDayIsKept(c: Config, states: seq<State>, events: seq<Event>, i: nat, source: Source, entry: SourceEntry, n: real, day: int)
    requires c.Valid() && IsRun(c, states, events) && i < |states|
    requires Compliant(c, source, entry) && entry.terms.Some? && entry.terms.value.perDay == Some(n)
    requires DAY_MS % c.Allowance(source).periodMs == 0
    ensures SpentIn(states[i].wire, |states[i].wire|, source, day) as real <= n
  {
    var a, s := c.Allowance(source), states[i];
    var perDay := DAY_MS / a.periodMs;
    InvAlways(c, states, events, i);
    forall j | 0 <= j < |s.wire| && s.wire[j].key.Some? && s.wire[j].key.value.source == source
      ensures Aligned(s.wire[j].key.value.periodStart, a.periodMs)
    {
      assert DepartureOk(c, s, j);
      assert GrantOk(c, s, s.wire[j].unit.value);
    }
    forall k ensures CountLeft(s.wire, |s.wire|, Stores.Key(source, k)) <= a.limit {
      assert TotalOk(c, s, Stores.Key(source, k));
    }
    DayIsItsPeriods(s.wire, |s.wire|, source, a.periodMs, perDay, day);
    PeriodsAddUp(s.wire, source, a.periodMs, a.limit, day * perDay, (day + 1) * perDay);
    DayOfPeriods(a, perDay, n);
  }

  lemma DayOfPeriods(a: AllowanceSettings, perDay: nat, n: real)
    requires a.periodMs >= 1 && perDay * a.periodMs == DAY_MS && DayRate(a) <= n
    ensures (perDay * a.limit) as real <= n
  {
    var p := a.periodMs as real;
    assert a.limit * DAY_MS == (perDay * a.limit) * a.periodMs;
    assert (a.limit * DAY_MS) as real == (perDay * a.limit) as real * p;
    assert DayRate(a) == (perDay * a.limit) as real;
  }

  // ---------------------------------------------------------------------------
  // Exactly which periods the daily check is sound for.
  // ---------------------------------------------------------------------------

  /** A configuration that passes, for a source that publishes `n` calls a day and has that allowance period. */
  ghost predicate Passes(c: Config, source: Source, entry: SourceEntry, n: real, periodMs: nat) {
    && c.Valid() && Compliant(c, source, entry) && entry.terms.Some? && entry.terms.value.perDay == Some(n)
    && c.Metered(source) && c.Allowance(source).periodMs == periodMs
  }

  ghost predicate Reaches(c: Config, states: seq<State>, events: seq<Event>, i: nat) {
    IsRun(c, states, events) && i < |states|
  }

  /** Whatever passes with this period keeps the published figure on every day of every run. */
  ghost predicate CheckIsSound(periodMs: nat) {
    forall c: Config, source: Source, entry: SourceEntry, n: real, states: seq<State>, events: seq<Event>, i: nat, day: int ::
      Passes(c, source, entry, n, periodMs) && Reaches(c, states, events, i) ==>
      SpentIn(states[i].wire, |states[i].wire|, source, day) as real <= n
  }

  /** The departures of a source in a day, each by the instant it left. */
  predicate LeavesIn(d: Departure, source: Source, day: int) {
    d.source == source && day * DAY_MS <= d.at < (day + 1) * DAY_MS
  }

  function LeftIn(wire: seq<Departure>, n: nat, source: Source, day: int): nat
    requires n <= |wire|
  {
    if n == 0 then 0 else LeftIn(wire, n - 1, source, day) + if LeavesIn(wire[n - 1], source, day) then 1 else 0
  }

  lemma {:induction false} CountsAlike(a: seq<Departure>, b: seq<Departure>, n: nat, source: Source, day: int)
    requires n <= |a| && n <= |b| && a[..n] == b[..n]
    ensures SpentIn(a, n, source, day) == SpentIn(b, n, source, day) && LeftIn(a, n, source, day) == LeftIn(b, n, source, day)
  {
    if n > 0 {
      assert a[..n][n - 1] == b[..n][n - 1] && a[..n][..n - 1] == a[..n - 1] && b[..n][..n - 1] == b[..n - 1];
      CountsAlike(a, b, n - 1, source, day);
    }
  }

  /** One source on one host, with so many units a period. */
  function Meter(source: Source, h: Host, limit: nat, periodMs: nat): Config {
    Config(map[h := Witness.PACE], map[source := SourceSettings(Some(AllowanceSettings(limit, periodMs, 1.0)), None)],
           BreakerSettings(1000, 1, 1.0, 1000), 10, [])
  }

  lemma MeterStartsIdle(source: Source, h: Host, limit: nat, periodMs: nat)
    requires limit >= 1 && periodMs >= 1
    ensures Witness.Idle(Meter(source, h, limit, periodMs), Witness.START, source, h)
  {
    Witness.StartIsReachable(Meter(source, h, limit, periodMs), source);
  }

  /** One more unit spent, and sent, on the first day. */
  lemma SpendsOnDayZero(source: Source, h: Host, limit: nat, periodMs: nat, s: State, ms: nat, wait: nat) returns (s': State)
    requires limit >= 1 && periodMs >= 1
    requires Witness.Idle(Meter(source, h, limit, periodMs), s, source, h) && (HostOf(s, h) == FRESH_HOST ==> wait >= 1) && ms + wait >= 1
    requires var c := Meter(source, h, limit, periodMs);
             && Stores.View(s.rows, Witness.KeyNow(c, source, s.now + ms)).consumed < limit
             && Stores.View(s.rows, Witness.KeyNow(c, source, s.now + ms + wait)).consumed < limit
    requires s.now + ms + wait < DAY_MS
    ensures Witness.Idle(Meter(source, h, limit, periodMs), s', source, h) && HostOf(s', h) != FRESH_HOST && s'.now == s.now + ms + wait
    ensures Witness.OneMore(s.rows, s'.rows, Witness.KeyNow(Meter(source, h, limit, periodMs), source, s'.now))
    ensures SpentIn(s'.wire, |s'.wire|, source, 0) == SpentIn(s.wire, |s.wire|, source, 0) + 1
    ensures LeftIn(s'.wire, |s'.wire|, source, 0) == LeftIn(s.wire, |s.wire|, source, 0) + 1
  {
    var c := Meter(source, h, limit, periodMs);
    s' := Witness.SpendsOne(c, s, source, h, ms, wait);
    CountsAlike(s'.wire, s.wire, |s.wire|, source, 0);
    PeriodIsTheOnlyOne(s'.now, periodMs, PeriodStart(s'.now, periodMs));
    PeriodNotBefore(s'.now, periodMs);
  }

  lemma PeriodNotBefore(now: int, periodMs: nat)
    requires periodMs >= 1 && now >= 0
    ensures 0 <= PeriodStart(now, periodMs)
  {
    var q := now / periodMs;
    TimesIsFar(q, periodMs);
  }

  /** The instant the unit of the `k`th period is spent at: as it begins, but for the first, a millisecond later. */
  function SpentAt(k: nat, periodMs: nat): nat { if k == 0 then 1 else k * periodMs }

  ghost predicate NoneSpentFrom(s: State, source: Source, start: int) {
    forall key: Stores.Key :: key.source == source && key.periodStart >= start ==> Stores.View(s.rows, key).consumed == 0
  }

  lemma InstantOfPeriod(k: nat, periodMs: nat)
    requires periodMs >= 2
    ensures PeriodStart(SpentAt(k, periodMs), periodMs) == k * periodMs && PeriodStart(0, periodMs) == 0
    ensures k > 0 ==> SpentAt(k, periodMs) > SpentAt(k - 1, periodMs)
  {
    MultipleDivides(k, periodMs);
    MultipleDivides(0, periodMs);
    PeriodIsTheOnlyOne(SpentAt(k, periodMs), periodMs, k * periodMs);
    if k > 0 {
      assert k * periodMs == (k - 1) * periodMs + periodMs;
    }
  }

  /** With one unit a period, the unit of every period that begins on the first day can be spent, and sent, on it. */
  lemma {:induction false} EveryPeriodIsSpent(source: Source, h: Host, periodMs: nat, k: nat) returns (s: State)
    requires periodMs >= 2 && k * periodMs < DAY_MS
    ensures Witness.Idle(Meter(source, h, 1, periodMs), s, source, h) && HostOf(s, h) != FRESH_HOST && s.now == SpentAt(k, periodMs)
    ensures SpentIn(s.wire, |s.wire|, source, 0) == k + 1 && LeftIn(s.wire, |s.wire|, source, 0) == k + 1
    ensures NoneSpentFrom(s, source, (k + 1) * periodMs)
    decreases k
  {
    InstantOfPeriod(k, periodMs);
    if k == 0 {
      MeterStartsIdle(source, h, 1, periodMs);
      s := SpendsOnDayZero(source, h, 1, periodMs, Witness.START, 0, 1);
    } else {
      assert (k - 1) * periodMs + periodMs == k * periodMs && (k + 1) * periodMs == k * periodMs + periodMs;
      var s0 := EveryPeriodIsSpent(source, h, periodMs, k - 1);
      s := SpendsOnDayZero(source, h, 1, periodMs, s0, SpentAt(k, periodMs) - SpentAt(k - 1, periodMs), 0);
    }
  }

  /** A period that does not divide the day: one unit in each passes a figure that the periods of the first day exceed. */
  lemma RaggedPeriodOverspends(source: Source, h: Host, periodMs: nat) returns (entry: SourceEntry, n: real, s: State)
    requires periodMs >= 1 && DAY_MS % periodMs != 0
    ensures Passes(Meter(source, h, 1, periodMs), source, entry, n, periodMs)
    ensures Witness.Reachable(Meter(source, h, 1, periodMs), s, source)
    ensures SpentIn(s.wire, |s.wire|, source, 0) as real > n && LeftIn(s.wire, |s.wire|, source, 0) as real > n
  {
    n := DAY_MS as real / periodMs as real;
    entry := SourceEntry(h, Some(Terms(None, Some(n))));
    var q := DAY_MS / periodMs;
    QuotientOfDay(q, periodMs);
    s := EveryPeriodIsSpent(source, h, periodMs, q);
  }

  lemma QuotientOfDay(q: nat, periodMs: nat)
    requires periodMs >= 1 && q == DAY_MS / periodMs && DAY_MS % periodMs != 0
    ensures periodMs >= 2 && q * periodMs < DAY_MS && (q + 1) as real > DAY_MS as real / periodMs as real
  {
    assert DAY_MS == q * periodMs + DAY_MS % periodMs;
    var p, x := periodMs as real, DAY_MS as real / periodMs as real;
    assert x * p == DAY_MS as real && (q + 1) as real * p == ((q + 1) * periodMs) as real;
    assert ((q + 1) as real - x) * p > 0.0;
    PositiveFactor((q + 1) as real - x, p);
  }

  /** THE DAILY CHECK bounds every day of every run if and only if the period divides the day. */
  lemma CheckIsSoundIffPeriodDividesDay(periodMs: nat)
    requires periodMs >= 1
    ensures CheckIsSound(periodMs) <==> DAY_MS % periodMs == 0
  {
    if DAY_MS % periodMs == 0 {
      forall c: Config, source: Source, entry: SourceEntry, n: real, states: seq<State>, events: seq<Event>, i: nat, day: int |
        Passes(c, source, entry, n, periodMs) && Reaches(c, states, events, i)
        ensures SpentIn(states[i].wire, |states[i].wire|, source, day) as real <= n
      {
        PublishedDayIsKept(c, states, events, i, source, entry, n, day);
      }
    } else {
      var source, h := Source("a"), Host("one");
      var entry, n, s := RaggedPeriodOverspends(source, h, periodMs);
      var states: seq<State>, events: seq<Event> :|
        Witness.RunTo(Meter(source, h, 1, periodMs), states, events, s) && Witness.NeverPaused(states, source);
      assert Reaches(Meter(source, h, 1, periodMs), states, events, |states| - 1);
    }
  }

  /** In whole figures: two units every two days pass for one call a day, and can both leave on the first. */
  lemma TwoDayPeriodDoublesTheDay(source: Source, h: Host) returns (entry: SourceEntry, s: State)
    ensures Passes(Meter(source, h, 2, 2 * DAY_MS), source, entry, 1.0, 2 * DAY_MS)
    ensures Witness.Reachable(Meter(source, h, 2, 2 * DAY_MS), s, source)
    ensures SpentIn(s.wire, |s.wire|, source, 0) == 2 && LeftIn(s.wire, |s.wire|, source, 0) == 2
  {
    entry := SourceEntry(h, Some(Terms(None, Some(1.0))));
    MeterStartsIdle(source, h, 2, 2 * DAY_MS);
    var s1 := SpendsOnDayZero(source, h, 2, 2 * DAY_MS, Witness.START, 0, 1);
    s := SpendsOnDayZero(source, h, 2, 2 * DAY_MS, s1, 1, 0);
  }
}
