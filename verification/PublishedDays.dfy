/** The published calls a day, by the instant each call leaves. */
module PublishedDays {
  import opened Prelude
  import opened Governor
  import opened GovernorMoves
  import GovernorTables
  import opened GovernorLedger
  import GovernorHistory
  import opened GovernorRuns
  import opened GovernorOutcomes
  import GovernorReasons
  import opened GovernorGates
  import opened Registry
  import opened PublishedLimits
  import GovernorSafety
  import Stores = AllowanceStores

  // ---------------------------------------------------------------------------
  // A unit is never of a period that has not begun.
  // ---------------------------------------------------------------------------

  predicate KeyBegun(key: Stores.Key, now: int) { key.periodStart <= now }

  ghost predicate Begun(s: State) {
    && (forall u :: 0 <= u < |s.grants| ==> KeyBegun(s.grants[u].key, s.now))
    && (forall k :: 0 <= k < |s.wire| && s.wire[k].key.Some? ==> KeyBegun(s.wire[k].key.value, s.wire[k].at))
  }

  lemma GrantsBegun(c: Config, s: State, t: TaskId, m: Move)
    requires t < |s.tasks| && Begun(s) && GovernorReasons.BegunPeriod(c, s, s.tasks[t]) && LocalUnit(c, s, s.tasks[t], m)
    ensures Begun(Apply(c, s, t, m))
  {
    GrantsAfter(c, s, t, m);
    GovernorTables.TasksAfter(c, s, t, m);
  }

  lemma {:induction false} AlwaysBegun(c: Config, states: seq<State>, events: seq<Event>, i: nat)
    requires c.Valid() && IsRun(c, states, events) && i < |states|
    ensures Begun(states[i])
  {
    if i > 0 {
      AlwaysBegun(c, states, events, i - 1);
      NextBegun(c, states, events, i - 1);
    }
  }

  lemma NextBegun(c: Config, states: seq<State>, events: seq<Event>, i: nat)
    requires c.Valid() && IsRun(c, states, events) && i < |events| && Begun(states[i])
    ensures Begun(states[i + 1])
  {
    if events[i].Act? {
      var m := JobOf(c, states, events, i);
      GovernorReasons.EveryReasonIsBacked(c, states, events, i);
      assert GovernorReasons.Backed(c, states, i, events[i].t);
      GrantsBegun(c, states[i], events[i].t, m);
    } else {
      PauseOf(c, states, events, i);
    }
  }

  // ---------------------------------------------------------------------------
  // Whoever leaves on a unit of a period that is over was on its way before.
  // ---------------------------------------------------------------------------

  /** Reserving a unit, or holding one, for a request that may yet leave. */
  predicate OnItsWay(p: Point) { p.Reserving? || p.Holding? }

  /** The period whose unit the task is reserving or holds. */
  function PeriodHeld(s: State, task: Task): Option<int> {
    match task.at
    case Reserving(period) => Some(period)
    case Holding(unit) => if unit.Some? && unit.value < |s.grants| then Some(s.grants[unit.value].key.periodStart) else None
    case _ => None
  }

  predicate WasOnItsWay(s0: State, t: TaskId, source: Source) {
    t < |s0.tasks| && s0.tasks[t].source == source && OnItsWay(s0.tasks[t].at)
  }

  /** Since state `s0`, in which instant `P` had come, nobody new has come by a unit of an earlier period of the source. */
  ghost predicate OnlyOldUnits(s0: State, s: State, source: Source, P: int) {
    && (forall t :: 0 <= t < |s.tasks| && s.tasks[t].source == source && HeldBefore(s, s.tasks[t], P) ==> WasOnItsWay(s0, t, source))
    && (forall k :: |s0.wire| <= k < |s.wire| && s.wire[k].source == source && LeftBefore(s.wire[k], P) ==> WasOnItsWay(s0, s.wire[k].task, source))
    && (forall k :: |s0.wire| <= k < |s.wire| ==> s.wire[k].at >= s0.now)
  }

  predicate HeldBefore(s: State, task: Task, P: int) { PeriodHeld(s, task).Some? && PeriodHeld(s, task).value < P }

  predicate LeftBefore(d: Departure, P: int) { d.key.Some? && d.key.value.periodStart < P }

  lemma PeriodsOnlyAdvance(a: int, b: int, periodMs: nat)
    requires periodMs >= 1 && a <= b
    ensures PeriodStart(a, periodMs) <= PeriodStart(b, periodMs)
  {
    var p, q := a / periodMs, b / periodMs;
    Differs(p, q, periodMs);
    TimesIsFar(p - q, periodMs);
  }

  /** A move takes up no earlier period: a reservation is for the period that holds the instant it starts at. */
  lemma TakesUpNoEarlier(c: Config, s: State, t: TaskId, m: Move, P: int)
    requires t < |s.tasks| && SameCall(s.tasks[t], m.next) && LocalUnit(c, s, s.tasks[t], m) && PeriodsBegin(c, s, s.tasks[t], m)
    requires c.Metered(s.tasks[t].source) ==> P <= PeriodStart(s.now, c.Allowance(s.tasks[t].source).periodMs)
    requires OwnUnit(s, s.tasks[t])
    ensures HeldBefore(Apply(c, s, t, m), m.next, P) ==> HeldBefore(s, s.tasks[t], P)
  {
    GrantsAfter(c, s, t, m);
  }

  /** What other tasks hold keeps its period. */
  lemma KeysStay(c: Config, s: State, t: TaskId, m: Move, task: Task, P: int)
    requires Units(c, s) && t < |s.tasks| && LocalUnit(c, s, s.tasks[t], m)
    requires UnitAt(task.at).Some? ==> UnitAt(task.at).value < |s.grants|
    ensures HeldBefore(Apply(c, s, t, m), task, P) ==> HeldBefore(s, task, P)
  {
    if task.at.Holding? && task.at.unit.Some? {
      GovernorSafety.UnitMovesOn(c, s, t, m, task.at.unit.value);
    }
  }

  /** A request that leaves does so on the unit it held. */
  lemma LeavesOnItsUnit(c: Config, s: State, t: TaskId, m: Move, P: int)
    requires t < |s.tasks| && SameCall(s.tasks[t], m.next) && LocalUnit(c, s, s.tasks[t], m)
    ensures forall k :: |s.wire| <= k < |Apply(c, s, t, m).wire| ==>
              var d := Apply(c, s, t, m).wire[k];
              && d.task == t && d.source == s.tasks[t].source && d.at == s.now
              && (LeftBefore(d, P) ==> HeldBefore(s, s.tasks[t], P))
  {
    GrantsAfter(c, s, t, m);
  }

  lemma OnlyOldUnitsHeld(c: Config, s0: State, s: State, t: TaskId, m: Move, source: Source, P: int, u: TaskId)
    requires Units(c, s) && t < |s.tasks| && SameCall(s.tasks[t], m.next)
    requires LocalUnit(c, s, s.tasks[t], m) && PeriodsBegin(c, s, s.tasks[t], m)
    requires c.Metered(source) ==> P <= PeriodStart(s.now, c.Allowance(source).periodMs)
    requires OnlyOldUnits(s0, s, source, P) && u < |Apply(c, s, t, m).tasks|
    ensures Apply(c, s, t, m).tasks[u].source == source && HeldBefore(Apply(c, s, t, m), Apply(c, s, t, m).tasks[u], P) ==> WasOnItsWay(s0, u, source)
  {
    GovernorTables.TasksAfter(c, s, t, m);
    if u == t {
      UnitsOwn(c, s, t);
      if s.tasks[t].source == source {
        TakesUpNoEarlier(c, s, t, m, P);
      }
    } else if u < |s.tasks| {
      UnitsOwn(c, s, u);
      KeysStay(c, s, t, m, s.tasks[u], P);
    }
  }

  lemma OnlyOldUnitsKept(c: Config, s0: State, s: State, t: TaskId, m: Move, source: Source, P: int)
    requires Units(c, s) && t < |s.tasks| && SameCall(s.tasks[t], m.next)
    requires LocalUnit(c, s, s.tasks[t], m) && PeriodsBegin(c, s, s.tasks[t], m)
    requires c.Metered(source) ==> P <= PeriodStart(s.now, c.Allowance(source).periodMs)
    requires OnlyOldUnits(s0, s, source, P) && |s0.wire| <= |s.wire| && s0.now <= s.now
    ensures OnlyOldUnits(s0, Apply(c, s, t, m), source, P)
  {
    var s' := Apply(c, s, t, m);
    JobGrows(c, s, t, m);
    LeavesOnItsUnit(c, s, t, m, P);
    forall u | 0 <= u < |s'.tasks| && s'.tasks[u].source == source && HeldBefore(s', s'.tasks[u], P) ensures WasOnItsWay(s0, u, source) {
      OnlyOldUnitsHeld(c, s0, s, t, m, source, P, u);
    }
    forall k | |s0.wire| <= k < |s'.wire|
      ensures s'.wire[k].at >= s0.now
      ensures s'.wire[k].source == source && LeftBefore(s'.wire[k], P) ==> WasOnItsWay(s0, s'.wire[k].task, source)
    {
      assert k < |s.wire| ==> SameDeparture(s.wire[k], s'.wire[k]);
    }
  }

  /**
   FROM ONE PERIOD INTO THE NEXT: whoever leaves on a unit of an earlier period than that of state
   `i` was reserving or holding it then.
   */
  lemma {:induction false} LateUnitsWereOnTheirWay(c: Config, states: seq<State>, events: seq<Event>, i: nat, j: nat, source: Source, P: int)
    requires c.Valid() && IsRun(c, states, events) && i <= j < |states|
    requires c.Metered(source) ==> P <= PeriodStart(states[i].now, c.Allowance(source).periodMs)
    ensures OnlyOldUnits(states[i], states[j], source, P)
    decreases j
  {
    if i < j {
      LateUnitsWereOnTheirWay(c, states, events, i, j - 1, source, P);
      HistoryGrows(c, states, events, i, j - 1);
      if c.Metered(source) {
        PeriodsOnlyAdvance(states[i].now, states[j - 1].now, c.Allowance(source).periodMs);
      }
      NextOnlyOldUnits(c, states, events, states[i], j - 1, source, P);
    }
  }

  lemma NextOnlyOldUnits(c: Config, states: seq<State>, events: seq<Event>, s0: State, j: nat, source: Source, P: int)
    requires c.Valid() && IsRun(c, states, events) && j < |events| && OnlyOldUnits(s0, states[j], source, P)
    requires c.Metered(source) ==> P <= PeriodStart(states[j].now, c.Allowance(source).periodMs)
    requires |s0.wire| <= |states[j].wire| && s0.now <= states[j].now
    ensures OnlyOldUnits(s0, states[j + 1], source, P)
  {
    if events[j].Act? {
      OutcomesAlways(c, states, events, j);
      var m := HonestJobOf(c, states, events, j);
      OnlyOldUnitsKept(c, s0, states[j], events[j].t, m, source, P);
    } else {
      PauseOf(c, states, events, j);
      OldUnitsOutside(c, s0, states[j], states[j + 1], source, P);
    }
  }

  lemma OldUnitsOutside(c: Config, s0: State, s: State, s': State, source: Source, P: int)
    requires Outside(c, s, s') && OnlyOldUnits(s0, s, source, P)
    ensures OnlyOldUnits(s0, s', source, P)
  {
    forall u | 0 <= u < |s'.tasks| && s'.tasks[u].source == source && HeldBefore(s', s'.tasks[u], P) ensures WasOnItsWay(s0, u, source) {
      if u < |s.tasks| {
        assert HeldBefore(s, s.tasks[u], P);
      }
    }
  }

  // ---------------------------------------------------------------------------
  // Counted by the day.
  // ---------------------------------------------------------------------------

  /** The source's tasks that may yet leave on a unit in state `s`. */
  ghost function OnTheirWay(s: State, source: Source): set<TaskId> { set t: TaskId | t < |s.tasks| && WasOnItsWay(s, t, source) }

  /** It left in the day on a unit of an earlier one. */
  predicate LateIn(d: Departure, source: Source, day: int) {
    LeavesIn(d, source, day) && LeftBefore(d, day * DAY_MS)
  }

  function LateCount(wire: seq<Departure>, n: nat, source: Source, day: int): nat
    requires n <= |wire|
  {
    if n == 0 then 0 else LateCount(wire, n - 1, source, day) + if LateIn(wire[n - 1], source, day) then 1 else 0
  }

  ghost function LateTasks(wire: seq<Departure>, n: nat, source: Source, day: int): set<TaskId>
    requires n <= |wire|
  {
    set k | 0 <= k < n && LateIn(wire[k], source, day) :: wire[k].task
  }

  ghost predicate EachLeavesOnce(wire: seq<Departure>) {
    forall k, l :: 0 <= k < l < |wire| ==> wire[k].task != wire[l].task
  }

  lemma {:induction false} LateCountIsTasks(wire: seq<Departure>, n: nat, source: Source, day: int)
    requires n <= |wire| && EachLeavesOnce(wire)
    ensures LateCount(wire, n, source, day) == |LateTasks(wire, n, source, day)|
  {
    if n > 0 {
      LateCountIsTasks(wire, n - 1, source, day);
      var before, all, d := LateTasks(wire, n - 1, source, day), LateTasks(wire, n, source, day), wire[n - 1];
      if LateIn(d, source, day) {
        assert all == before + {d.task};
        assert d.task !in before;
      } else {
        assert all == before;
      }
    }
  }

  lemma SubsetIsNoLarger<T>(a: set<T>, b: set<T>)
    requires a <= b
    ensures |a| <= |b|
  {
    if a != {} {
      var x :| x in a;
      SubsetIsNoLarger(a - {x}, b - {x});
    }
  }

  /** A call of the day is on a unit of the day, or a late one. */
  lemma {:induction false} LeftIsSpentOrLate(wire: seq<Departure>, n: nat, source: Source, day: int)
    requires n <= |wire|
    requires forall k :: 0 <= k < n && wire[k].source == source ==>
               wire[k].key.Some? && wire[k].key.value.source == source && KeyBegun(wire[k].key.value, wire[k].at)
    ensures LeftIn(wire, n, source, day) <= SpentIn(wire, n, source, day) + LateCount(wire, n, source, day)
  {
    if n > 0 {
      LeftIsSpentOrLate(wire, n - 1, source, day);
    }
  }

  /** Nothing has left in the day yet, though it has begun. */
  ghost predicate DayBegins(s: State, day: int) {
    day * DAY_MS <= s.now && forall k :: 0 <= k < |s.wire| ==> s.wire[k].at < day * DAY_MS
  }

  lemma DayStartsAPeriod(day: int, now: int, periodMs: nat)
    requires periodMs >= 1 && DAY_MS % periodMs == 0 && day * DAY_MS <= now
    ensures day * DAY_MS <= PeriodStart(now, periodMs)
  {
    var perDay := DAY_MS / periodMs;
    assert day * DAY_MS == (day * perDay) * periodMs by {
      DayBounds(day, perDay, periodMs);
    }
    MultipleDivides(day * perDay, periodMs);
    PeriodsOnlyAdvance(day * DAY_MS, now, periodMs);
  }

  lemma LateTasksWereOnTheirWay(s0: State, s: State, source: Source, day: int)
    requires DayBegins(s0, day) && Grows(s0, s) && OnlyOldUnits(s0, s, source, day * DAY_MS)
    ensures LateTasks(s.wire, |s.wire|, source, day) <= OnTheirWay(s0, source)
  {
    forall k | 0 <= k < |s.wire| && LateIn(s.wire[k], source, day) ensures s.wire[k].task in OnTheirWay(s0, source) {
      if k < |s0.wire| {
        assert SameDeparture(s0.wire[k], s.wire[k]);
      }
    }
  }

  lemma DeparturesAreClean(c: Config, states: seq<State>, events: seq<Event>, j: nat, source: Source)
    requires c.Valid() && IsRun(c, states, events) && j < |states| && c.Metered(source)
    ensures EachLeavesOnce(states[j].wire)
    ensures forall k :: 0 <= k < |states[j].wire| && states[j].wire[k].source == source ==>
              var d := states[j].wire[k]; d.key.Some? && d.key.value.source == source && KeyBegun(d.key.value, d.at)
  {
    var s := states[j];
    InvAlways(c, states, events, j);
    AlwaysBegun(c, states, events, j);
    forall k, l | 0 <= k < l < |s.wire| ensures s.wire[k].task != s.wire[l].task {
      assert GovernorHistory.OwnerOk(s, k) && GovernorHistory.OwnerOk(s, l);
    }
    forall k | 0 <= k < |s.wire| && s.wire[k].source == source
      ensures s.wire[k].key.Some? && s.wire[k].key.value.source == source && KeyBegun(s.wire[k].key.value, s.wire[k].at)
    {
      assert DepartureOk(c, s, k);
    }
  }

  /**
   PER DAY, BY THE INSTANT OF THE CALL: when the period divides the day, the calls that
   leave in a day of any run are at most what the vendor publishes and those that were
   reserving or holding a unit as the day began.
   */
  lemma CallsOfTheDayAreKept(c: Config, states: seq<State>, events: seq<Event>, i: nat, j: nat, source: Source, entry: SourceEntry, n: real, day: int)
    requires c.Valid() && IsRun(c, states, events) && i <= j < |states| && DayBegins(states[i], day)
    requires Compliant(c, source, entry) && entry.terms.Some? && entry.terms.value.perDay == Some(n)
    requires DAY_MS % c.Allowance(source).periodMs == 0
    ensures LeftIn(states[j].wire, |states[j].wire|, source, day) as real <= n + |OnTheirWay(states[i], source)| as real
  {
    var wire := states[j].wire;
    DayStartsAPeriod(day, states[i].now, c.Allowance(source).periodMs);
    LateUnitsWereOnTheirWay(c, states, events, i, j, source, day * DAY_MS);
    HistoryGrows(c, states, events, i, j);
    LateTasksWereOnTheirWay(states[i], states[j], source, day);
    DeparturesAreClean(c, states, events, j, source);
    LateCountIsTasks(wire, |wire|, source, day);
    SubsetIsNoLarger(LateTasks(wire, |wire|, source, day), OnTheirWay(states[i], source));
    LeftIsSpentOrLate(wire, |wire|, source, day);
    PublishedDayIsKept(c, states, events, j, source, entry, n, day);
  }
}
