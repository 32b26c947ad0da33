/** The per-source circuit breaker. */
module CircuitBreaker {
  // The per-source circuit breaker (packages/governor/src/breaker.ts).
  //
  // The code drops outcomes as they leave the window. The reference beside it keeps
  // every outcome since the last reset and looks at the window only when it counts.

  import opened Prelude

  datatype OutcomeClass = Success | Failure
  datatype Outcome = Outcome(at: int, result: OutcomeClass)

  datatype BreakerSettings = BreakerSettings(windowMs: nat, minimumOutcomes: nat, failureRateThreshold: real, pauseMs: nat)
  {
    predicate Valid() {
      windowMs >= 1 && minimumOutcomes >= 1 && pauseMs >= 1 && 0.0 < failureRateThreshold <= 1.0
    }
  }

  datatype SourceState = SourceState(outcomes: seq<Outcome>, pausedUntil: int)

  const FRESH_SOURCE := SourceState([], 0)

  /** The outcomes among the first `n` later than `bound`, in order. */
  function Since(es: seq<Outcome>, n: nat, bound: int): seq<Outcome>
    requires n <= |es|
  {
    if n == 0 then []
    else if es[n - 1].at > bound then Since(es, n - 1, bound) + [es[n - 1]]
    else Since(es, n - 1, bound)
  }

  function Failures(es: seq<Outcome>, n: nat): nat
    requires n <= |es|
  {
    if n == 0 then 0 else Failures(es, n - 1) + if es[n - 1].result.Failure? then 1 else 0
  }

  predicate Paused(st: SourceState, now: int) { st.pausedUntil > now }

  /** `status`: an expired pause is cleared here, and only here, together with the outcomes that caused it. */
  function AfterStatus(st: SourceState, now: int): SourceState {
    if st.pausedUntil > now then st
    else if st.pausedUntil != 0 then FRESH_SOURCE
    else st
  }

  /** Both thresholds, over a list of outcomes already cut to the window. */
  predicate Trips(window: seq<Outcome>, s: BreakerSettings) {
    && |window| >= s.minimumOutcomes
    && |window| > 0
    && Failures(window, |window|) as real / |window| as real >= s.failureRateThreshold
  }

  /** `record`: nothing while paused; otherwise the outcome is added, the list pruned and the rate consulted. */
  function AfterRecord(st: SourceState, s: BreakerSettings, now: int, result: OutcomeClass): SourceState {
    if st.pausedUntil > now then st
    else
      var added := st.outcomes + [Outcome(now, result)];
      var window := Since(added, |added|, now - s.windowMs);
      SourceState(window, if Trips(window, s) then now + s.pauseMs else st.pausedUntil)
  }

  predicate Announces(st: SourceState, s: BreakerSettings, now: int, result: OutcomeClass) {
    && st.pausedUntil <= now
    && var added := st.outcomes + [Outcome(now, result)];
       Trips(Since(added, |added|, now - s.windowMs), s)
  }

  // ---------------------------------------------------------------------------
  // The unpruned reference.
  // ---------------------------------------------------------------------------

  /** Every outcome recorded since the last reset, never pruned. */
  datatype Ledger = Ledger(history: seq<Outcome>, pausedUntil: int)

  const FRESH_LEDGER := Ledger([], 0)

  function CountSince(h: seq<Outcome>, n: nat, bound: int): nat
    requires n <= |h|
  {
    if n == 0 then 0 else CountSince(h, n - 1, bound) + if h[n - 1].at > bound then 1 else 0
  }

  function CountFailedSince(h: seq<Outcome>, n: nat, bound: int): nat
    requires n <= |h|
  {
    if n == 0 then 0
    else CountFailedSince(h, n - 1, bound) + if h[n - 1].at > bound && h[n - 1].result.Failure? then 1 else 0
  }

  /** These count what they say: the outcomes later than an instant, and the failures among them. */
  lemma {:induction false} OutcomesAreCounted(h: seq<Outcome>, n: nat, bound: int)
    requires n <= |h|
    ensures CountSince(h, n, bound) == |set i: nat | i < n && h[i].at > bound|
  {
    var later := (i: nat) => i < |h| && h[i].at > bound;
    CountIsCardinality((k: nat) => if k <= |h| then CountSince(h, k, bound) else 0, later, n);
    assert (set i: nat | i < n && later(i)) == set i: nat | i < n && h[i].at > bound;
  }

  lemma {:induction false} FailuresAreCounted(h: seq<Outcome>, n: nat, bound: int)
    requires n <= |h|
    ensures CountFailedSince(h, n, bound) == |set i: nat | i < n && h[i].at > bound && h[i].result == Failure|
  {
    var failed := (i: nat) => i < |h| && h[i].at > bound && h[i].result == Failure;
    CountIsCardinality((k: nat) => if k <= |h| then CountFailedSince(h, k, bound) else 0, failed, n);
    assert (set i: nat | i < n && failed(i)) == set i: nat | i < n && h[i].at > bound && h[i].result == Failure;
  }

  /** Enough outcomes later than `now - windowMs`, and enough of those failures. */
  predicate CrossesThreshold(h: seq<Outcome>, s: BreakerSettings, now: int) {
    var total := CountSince(h, |h|, now - s.windowMs);
    && total >= s.minimumOutcomes
    && total > 0
    && CountFailedSince(h, |h|, now - s.windowMs) as real / total as real >= s.failureRateThreshold
  }

  function LedgerAfterStatus(l: Ledger, now: int): Ledger {
    if l.pausedUntil <= now && l.pausedUntil != 0 then FRESH_LEDGER else l
  }

  function LedgerAfterRecord(l: Ledger, s: BreakerSettings, now: int, result: OutcomeClass): Ledger {
    if l.pausedUntil > now then l
    else
      var history := l.history + [Outcome(now, result)];
      Ledger(history, if CrossesThreshold(history, s, now) then now + s.pauseMs else l.pausedUntil)
  }

  /** The pruned list is the ledger cut at a bound no later than any window still to be asked about. */
  ghost predicate Agrees(st: SourceState, l: Ledger, s: BreakerSettings, now: int) {
    && st.pausedUntil == l.pausedUntil
    && exists bound: int {:trigger Since(l.history, |l.history|, bound)} ::
         bound <= now - s.windowMs && st.outcomes == Since(l.history, |l.history|, bound)
  }

  lemma {:induction false} SinceCounts(h: seq<Outcome>, n: nat, bound: int)
    requires n <= |h|
    ensures |Since(h, n, bound)| == CountSince(h, n, bound)
    ensures Failures(Since(h, n, bound), |Since(h, n, bound)|) == CountFailedSince(h, n, bound)
  {
    if n > 0 {
      SinceCounts(h, n - 1, bound);
      var w := Since(h, n - 1, bound);
      FailuresPush(w, h[n - 1], |w|);
    }
  }

  lemma {:induction false} FailuresPush(w: seq<Outcome>, e: Outcome, n: nat)
    requires n <= |w|
    ensures Failures(w + [e], n) == Failures(w, n)
  {
    if n > 0 {
      FailuresPush(w, e, n - 1);
    }
  }

  lemma {:induction false} SincePush(h: seq<Outcome>, e: Outcome, n: nat, bound: int)
    requires n <= |h|
    ensures Since(h + [e], n, bound) == Since(h, n, bound)
  {
    if n > 0 {
      SincePush(h, e, n - 1, bound);
    }
  }

  /** Pruning earlier loses nothing that a later window still contains. */
  lemma {:induction false} PruningIsInvisible(h: seq<Outcome>, n: nat, early: int, late: int)
    requires n <= |h| && early <= late
    ensures var w := Since(h, n, early); Since(w, |w|, late) == Since(h, n, late)
  {
    if n > 0 {
      PruningIsInvisible(h, n - 1, early, late);
      var w := Since(h, n - 1, early);
      if h[n - 1].at > early {
        SincePush(w, h[n - 1], |w|, late);
      }
    }
  }

  lemma AgreesLater(st: SourceState, l: Ledger, s: BreakerSettings, now: int, later: int)
    requires Agrees(st, l, s, now) && now <= later
    ensures Agrees(st, l, s, later)
  {
  }

  lemma FreshAgrees(s: BreakerSettings, now: int)
    ensures Agrees(FRESH_SOURCE, FRESH_LEDGER, s, now)
  {
    assert Since(FRESH_LEDGER.history, 0, now - s.windowMs) == [];
  }

  lemma StatusAgrees(st: SourceState, l: Ledger, s: BreakerSettings, now: int)
    requires Agrees(st, l, s, now)
    ensures Agrees(AfterStatus(st, now), LedgerAfterStatus(l, now), s, now)
  {
    FreshAgrees(s, now);
  }

  /** REFINEMENT, one call: the pruned code announces exactly when the unpruned ledger crosses the threshold. */
  lemma RecordAgrees(st: SourceState, l: Ledger, s: BreakerSettings, now: int, result: OutcomeClass)
    requires Agrees(st, l, s, now)
    ensures Announces(st, s, now, result) <==>
            l.pausedUntil <= now && CrossesThreshold(l.history + [Outcome(now, result)], s, now)
    ensures Agrees(AfterRecord(st, s, now, result), LedgerAfterRecord(l, s, now, result), s, now)
  {
    var bound :| bound <= now - s.windowMs && st.outcomes == Since(l.history, |l.history|, bound);
    var e := Outcome(now, result);
    var history := l.history + [e];
    SincePush(l.history, e, |l.history|, bound);
    SincePush(l.history, e, |l.history|, now - s.windowMs);
    SincePush(st.outcomes, e, |st.outcomes|, now - s.windowMs);
    PruningIsInvisible(l.history, |l.history|, bound, now - s.windowMs);
    var added := st.outcomes + [e];
    assert Since(added, |added|, now - s.windowMs) == Since(history, |history|, now - s.windowMs);
    SinceCounts(history, |history|, now - s.windowMs);
  }

  // ---------------------------------------------------------------------------
  // Whole runs: any number of sources, any sequence of calls on a monotone clock.
  // ---------------------------------------------------------------------------

  datatype Call =
    | Status(source: Source, at: int)
    | Record(source: Source, at: int, result: OutcomeClass)

  ghost predicate Monotone(calls: seq<Call>) {
    && (forall i {:trigger calls[i]} :: 0 <= i < |calls| ==> calls[i].at >= 0)
    && (forall i: nat, j: nat :: NotLater(calls, i, j))
  }

  ghost predicate NotLater(calls: seq<Call>, i: nat, j: nat) {
    i <= j < |calls| ==> calls[i].at <= calls[j].at
  }

  function StateAfter(settings: Source -> BreakerSettings, calls: seq<Call>, n: nat, source: Source): SourceState
    requires n <= |calls|
  {
    if n == 0 then FRESH_SOURCE
    else
      var before := StateAfter(settings, calls, n - 1, source);
      if calls[n - 1].source != source then before
      else match calls[n - 1]
        case Status(_, at) => AfterStatus(before, at)
        case Record(_, at, result) => AfterRecord(before, settings(source), at, result)
  }

  function LedgerAfter(settings: Source -> BreakerSettings, calls: seq<Call>, n: nat, source: Source): Ledger
    requires n <= |calls|
  {
    if n == 0 then FRESH_LEDGER
    else
      var before := LedgerAfter(settings, calls, n - 1, source);
      if calls[n - 1].source != source then before
      else match calls[n - 1]
        case Status(_, at) => LedgerAfterStatus(before, at)
        case Record(_, at, result) => LedgerAfterRecord(before, settings(source), at, result)
  }

  /** Does the `i`th call announce a pause? */
  predicate AnnouncedAt(settings: Source -> BreakerSettings, calls: seq<Call>, i: nat)
    requires i < |calls|
  {
    && calls[i].Record?
    && Announces(StateAfter(settings, calls, i, calls[i].source), settings(calls[i].source), calls[i].at, calls[i].result)
  }

  lemma {:induction false} RunAgrees(settings: Source -> BreakerSettings, calls: seq<Call>, n: nat, source: Source, now: int)
    requires Monotone(calls) && n <= |calls|
    requires n > 0 ==> calls[n - 1].at <= now
    ensures Agrees(StateAfter(settings, calls, n, source), LedgerAfter(settings, calls, n, source), settings(source), now)
  {
    var s := settings(source);
    if n == 0 {
      FreshAgrees(s, now);
    } else {
      var at := calls[n - 1].at;
      assert n > 1 ==> NotLater(calls, n - 2, n - 1);
      RunAgrees(settings, calls, n - 1, source, at);
      var st := StateAfter(settings, calls, n - 1, source);
      var l := LedgerAfter(settings, calls, n - 1, source);
      if calls[n - 1].source == source {
        if calls[n - 1].Status? {
          StatusAgrees(st, l, s, at);
        } else {
          RecordAgrees(st, l, s, at, calls[n - 1].result);
        }
      }
      AgreesLater(StateAfter(settings, calls, n, source), LedgerAfter(settings, calls, n, source), s, at, now);
    }
  }

  /**
   REFINEMENT, whole runs: a `record` announces a pause if and only if the source
   is not paused and every outcome since its last reset, this one included and
   cut to the window ending now, crosses both thresholds.
   */
  lemma AnnouncesIffUnprunedHistoryCrosses(settings: Source -> BreakerSettings, calls: seq<Call>, i: nat)
    requires Monotone(calls) && i < |calls| && calls[i].Record?
    ensures var l := LedgerAfter(settings, calls, i, calls[i].source);
            AnnouncedAt(settings, calls, i) <==>
            && l.pausedUntil <= calls[i].at
            && CrossesThreshold(l.history + [Outcome(calls[i].at, calls[i].result)], settings(calls[i].source), calls[i].at)
  {
    assert i > 0 ==> NotLater(calls, i - 1, i);
    RunAgrees(settings, calls, i, calls[i].source, calls[i].at);
    RecordAgrees(StateAfter(settings, calls, i, calls[i].source), LedgerAfter(settings, calls, i, calls[i].source),
                 settings(calls[i].source), calls[i].at, calls[i].result);
  }

  /** From an announcement on, the pause stands until its end is reached. */
  lemma {:induction false} PauseStands(settings: Source -> BreakerSettings, calls: seq<Call>, i: nat, n: nat)
    requires Monotone(calls) && i < n <= |calls| && AnnouncedAt(settings, calls, i)
    ensures var end := calls[i].at + settings(calls[i].source).pauseMs;
            calls[n - 1].at < end ==> StateAfter(settings, calls, n, calls[i].source).pausedUntil == end
    decreases n
  {
    if n > i + 1 {
      PauseStands(settings, calls, i, n - 1);
      assert NotLater(calls, n - 2, n - 1);
    }
  }

  /** NOTIFY ONCE PER PAUSE: two announcements for one source are at least its `pauseMs` apart. */
  lemma AnnouncementsAreApart(settings: Source -> BreakerSettings, calls: seq<Call>, i: nat, j: nat)
    requires Monotone(calls) && i < j < |calls| && calls[i].source == calls[j].source
    requires AnnouncedAt(settings, calls, i) && AnnouncedAt(settings, calls, j)
    ensures calls[j].at - calls[i].at >= settings(calls[i].source).pauseMs
  {
    PauseStands(settings, calls, i, j);
    assert NotLater(calls, j - 1, j);
  }

  /** ISOLATION: whatever is called for other sources, a source's state is the one its own calls produce. */
  lemma {:induction false} OnlyOwnCallsMatter(settings: Source -> BreakerSettings, calls: seq<Call>, n: nat, others: seq<Call>, m: nat, source: Source)
    requires n <= |calls| && m <= |others|
    requires Own(calls, n, source) == Own(others, m, source)
    ensures StateAfter(settings, calls, n, source) == StateAfter(settings, others, m, source)
    decreases n + m
  {
    if n > 0 && calls[n - 1].source != source {
      OnlyOwnCallsMatter(settings, calls, n - 1, others, m, source);
    } else if m > 0 && others[m - 1].source != source {
      OnlyOwnCallsMatter(settings, calls, n, others, m - 1, source);
    } else if n > 0 && m > 0 {
      var a, b := Own(calls, n, source), Own(others, m, source);
      assert a[|a| - 1] == calls[n - 1] && b[|b| - 1] == others[m - 1];
      assert a[..|a| - 1] == Own(calls, n - 1, source) && b[..|b| - 1] == Own(others, m - 1, source);
      OnlyOwnCallsMatter(settings, calls, n - 1, others, m - 1, source);
    }
  }

  function Own(calls: seq<Call>, n: nat, source: Source): seq<Call>
    requires n <= |calls|
  {
    if n == 0 then []
    else if calls[n - 1].source == source then Own(calls, n - 1, source) + [calls[n - 1]]
    else Own(calls, n - 1, source)
  }

  // ---------------------------------------------------------------------------
  // The class.
  // ---------------------------------------------------------------------------

  class Breaker {
    var now: int
    var sources: map<Source, SourceState>
    const settingsFor: Source -> BreakerSettings
    ghost var ledgers: map<Source, Ledger>

    ghost predicate Valid()
      reads this
    {
      && sources.Keys == ledgers.Keys
      && forall s :: s in sources ==> Agrees(sources[s], ledgers[s], settingsFor(s), now)
    }

    function StateFor(source: Source): SourceState
      reads this
    {
      if source in sources then sources[source] else FRESH_SOURCE
    }

    ghost function LedgerFor(source: Source): Ledger
      reads this
    {
      if source in ledgers then ledgers[source] else FRESH_LEDGER
    }

    constructor (now: int, settingsFor: Source -> BreakerSettings)
      ensures Valid() && this.now == now && this.settingsFor == settingsFor && sources == map[] && ledgers == map[]
    {
      this.now, this.settingsFor, this.sources, this.ledgers := now, settingsFor, map[], map[];
    }

    method Tick(ms: nat)
      requires Valid()
      modifies this`now
      ensures Valid() && now == old(now) + ms
    {
      forall s | s in sources ensures Agrees(sources[s], ledgers[s], settingsFor(s), now + ms) {
        AgreesLater(sources[s], ledgers[s], settingsFor(s), now, now + ms);
      }
      now := now + ms;
    }

    method Status(source: Source) returns (paused: bool)
      requires Valid()
      modifies this`sources, this`ledgers
      ensures Valid()
      ensures paused == (old(LedgerFor(source)).pausedUntil > now)
      ensures sources == old(sources)[source := AfterStatus(old(StateFor(source)), now)]
      ensures ledgers == old(ledgers)[source := LedgerAfterStatus(old(LedgerFor(source)), now)]
    {
      FreshAgrees(settingsFor(source), now);
      StatusAgrees(StateFor(source), LedgerFor(source), settingsFor(source), now);
      var state := StateFor(source);
      ledgers := ledgers[source := LedgerAfterStatus(LedgerFor(source), now)];
      if state.pausedUntil > now {
        paused := true;
        sources := sources[source := state];
        return;
      }
      if state.pausedUntil != 0 {
        state := FRESH_SOURCE;
      }
      sources := sources[source := state];
      paused := false;
    }

    method Record(source: Source, result: OutcomeClass) returns (announced: bool)
      requires Valid()
      modifies this`sources, this`ledgers
      ensures Valid()
      ensures announced <==>
              && old(LedgerFor(source)).pausedUntil <= now
              && CrossesThreshold(old(LedgerFor(source)).history + [Outcome(now, result)], settingsFor(source), now)
      ensures sources == old(sources)[source := AfterRecord(old(StateFor(source)), settingsFor(source), now, result)]
      ensures ledgers == old(ledgers)[source := LedgerAfterRecord(old(LedgerFor(source)), settingsFor(source), now, result)]
    {
      var settings := settingsFor(source);
      FreshAgrees(settings, now);
      RecordAgrees(StateFor(source), LedgerFor(source), settings, now, result);
      var state := StateFor(source);
      ledgers := ledgers[source := LedgerAfterRecord(LedgerFor(source), settings, now, result)];
      if state.pausedUntil > now {
        sources := sources[source := state];
        return false;
      }
      var added := state.outcomes + [Outcome(now, result)];
      var window := Since(added, |added|, now - settings.windowMs);
      announced := Trips(window, settings);
      sources := sources[source := SourceState(window, if announced then now + settings.pauseMs else state.pausedUntil)];
    }
  }
}
