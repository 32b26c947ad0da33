/** What the gates let through, over whole runs. */
module GovernorGates {
  import opened Prelude
  import opened CircuitBreaker
  import RobotsMatch
  import RobotsText
  import opened Governor
  import opened GovernorMoves
  import GovernorTables
  import opened GovernorLedger
  import GovernorPacing
  import opened GovernorRuns
  import opened GovernorSafety
  import Stores = AllowanceStores

  // ---------------------------------------------------------------------------
  // History only grows.
  // ---------------------------------------------------------------------------

  predicate SameDeparture(a: Departure, b: Departure) {
    a.task == b.task && a.source == b.source && a.origin == b.origin && a.robots == b.robots && a.at == b.at && a.key == b.key
  }

  ghost predicate Grows(s: State, s': State) {
    && s.now <= s'.now && s.pauses <= s'.pauses && |s.wire| <= |s'.wire|
    && forall k :: 0 <= k < |s.wire| ==> SameDeparture(s.wire[k], s'.wire[k])
  }

  lemma JobGrows(c: Config, s: State, t: TaskId, m: Move)
    requires t < |s.tasks|
    ensures Grows(s, Apply(c, s, t, m))
  {
    GovernorTables.TasksAfter(c, s, t, m);
    GovernorPacing.HostsAfter(c, s, t, m);
    GrantsAfter(c, s, t, m);
  }

  lemma StepGrows(c: Config, states: seq<State>, events: seq<Event>, i: nat)
    requires c.Valid() && IsRun(c, states, events) && i < |events|
    ensures Grows(states[i], states[i + 1])
  {
    if events[i].Act? {
      var m := JobOf(c, states, events, i);
      JobGrows(c, states[i], events[i].t, m);
    } else {
      PauseOf(c, states, events, i);
    }
  }

  lemma GrowsOn(a: State, b: State, d: State)
    requires Grows(a, b) && Grows(b, d)
    ensures Grows(a, d)
  {
    forall k | 0 <= k < |a.wire| ensures SameDeparture(a.wire[k], d.wire[k]) {
      assert SameDeparture(a.wire[k], b.wire[k]) && SameDeparture(b.wire[k], d.wire[k]);
    }
  }

  lemma {:induction false} HistoryGrows(c: Config, states: seq<State>, events: seq<Event>, i: nat, j: nat)
    requires c.Valid() && IsRun(c, states, events) && i <= j < |states|
    ensures Grows(states[i], states[j])
    decreases j
  {
    if i < j {
      HistoryGrows(c, states, events, i, j - 1);
      StepGrows(c, states, events, j - 1);
      GrowsOn(states[i], states[j - 1], states[j]);
    }
  }

  ghost predicate AllLeftAs(s: State, s': State, source: Source) {
    forall k :: |s.wire| <= k < |s'.wire| ==> s'.wire[k].source == source
  }

  /** A request that leaves in a step is of the acting task's source. */
  lemma LeavesAs(c: Config, s: State, t: TaskId, m: Move)
    requires t < |s.tasks| && SameCall(s.tasks[t], m.next)
    ensures AllLeftAs(s, Apply(c, s, t, m), s.tasks[t].source)
  {
    GrantsAfter(c, s, t, m);
  }

  // ---------------------------------------------------------------------------
  // Gate 3: a paused source.
  // ---------------------------------------------------------------------------

  ghost predicate SilentSince(s: State, s': State, source: Source) {
    forall k :: |s.wire| <= k < |s'.wire| ==> s'.wire[k].source != source
  }

  /** While a recorded pause runs, the step that ends at state `i + 1` sends nothing of its source. */
  lemma PausedStepIsSilent(c: Config, states: seq<State>, events: seq<Event>, i: nat, pause: Pause)
    requires c.Valid() && IsRun(c, states, events) && i < |events| && pause in states[i].pauses && states[i].now < pause.until
    ensures SilentSince(states[i], states[i + 1], pause.source)
  {
    if events[i].Act? && |states[i + 1].wire| > |states[i].wire| {
      NothingLeavesUnsafely(c, states, events, i);
      LeaverIsTheActor(c, states, events, i);
      var p :| 0 <= p < |states[i].pauses| && states[i].pauses[p] == pause;
      assert states[i].pauses[p].source != states[i].tasks[events[i].t].source;
    } else if !events[i].Act? {
      PauseOf(c, states, events, i);
    }
  }

  lemma LeaverIsTheActor(c: Config, states: seq<State>, events: seq<Event>, i: nat)
    requires c.Valid() && IsRun(c, states, events) && i < |events| && events[i].Act? && events[i].t < |states[i].tasks|
    ensures AllLeftAs(states[i], states[i + 1], states[i].tasks[events[i].t].source)
  {
    var m := JobOf(c, states, events, i);
    LeavesAs(c, states[i], events[i].t, m);
  }

  /**
   A PAUSED SOURCE IS SILENT: from the moment a pause is recorded until it ends, no request of its
   source leaves the process.
   */
  lemma {:induction false} PausedSourceIsSilent(c: Config, states: seq<State>, events: seq<Event>, i: nat, j: nat, pause: Pause)
    requires c.Valid() && IsRun(c, states, events) && i <= j < |states|
    requires pause in states[i].pauses && states[j].now < pause.until
    ensures SilentSince(states[i], states[j], pause.source)
    decreases j
  {
    if i < j {
      StepGrows(c, states, events, j - 1);
      HistoryGrows(c, states, events, i, j - 1);
      PausedSourceIsSilent(c, states, events, i, j - 1, pause);
      PausedStepIsSilent(c, states, events, j - 1, pause);
      SilentOn(states[i], states[j - 1], states[j], pause.source);
    }
  }

  lemma SilentOn(a: State, b: State, d: State, source: Source)
    requires SilentSince(a, b, source) && SilentSince(b, d, source) && Grows(b, d)
    ensures SilentSince(a, d, source)
  {
    forall k | |a.wire| <= k < |d.wire| ensures d.wire[k].source != source {
      if k < |b.wire| {
        assert SameDeparture(b.wire[k], d.wire[k]);
      }
    }
  }

  /** Refused in its first job: it never queued, waited or started a retrieval. */
  predicate TurnedAway(task: Task) {
    task.at.Done? && task.at.outcome.Refused? && task.round == 0 && !task.asked
  }

  lemma ArrivesPaused(c: Config, states: seq<State>, events: seq<Event>, i: nat, pause: Pause)
    requires c.Valid() && IsRun(c, states, events) && i < |events| && pause in states[i].pauses && states[i].now < pause.until
    requires events[i].Arrive? && events[i].source == pause.source
    ensures |states[i + 1].tasks| == |states[i].tasks| + 1 && TurnedAway(states[i + 1].tasks[|states[i].tasks|])
  {
    PauseInForce(c, states, events, i, pause);
    ArrivalIsItsEntering(c, states, events, i);
    EntersPaused(c, states[i], events[i].source, events[i].origin, events[i].path);
  }

  lemma PauseInForce(c: Config, states: seq<State>, events: seq<Event>, i: nat, pause: Pause)
    requires c.Valid() && IsRun(c, states, events) && i < |states| && pause in states[i].pauses && states[i].now < pause.until
    ensures Paused(BreakerOf(states[i], pause.source), states[i].now)
  {
    InvAlways(c, states, events, i);
    var p :| 0 <= p < |states[i].pauses| && states[i].pauses[p] == pause;
    assert GovernorPacing.PauseKnown(states[i], p);
  }

  lemma EntersPaused(c: Config, s: State, source: Source, origin: Origin, path: string)
    requires Paused(BreakerOf(s, source), s.now)
    ensures TurnedAway(Entering(c, s, source, origin, path).next)
  {
  }

  lemma ArrivalIsItsEntering(c: Config, states: seq<State>, events: seq<Event>, i: nat)
    requires IsRun(c, states, events) && i < |events| && events[i].Arrive?
    ensures states[i + 1].tasks == states[i].tasks + [Entering(c, states[i], events[i].source, events[i].origin, events[i].path).next]
  {
    assert Step(c, states[i], events[i], states[i + 1]);
  }

  /** A source's requests that came after the first `n` tasks were all turned away. */
  ghost predicate AllTurnedAway(s: State, n: nat, source: Source) {
    forall t :: n <= t < |s.tasks| && s.tasks[t].source == source && !s.tasks[t].IsRobots() ==> TurnedAway(s.tasks[t])
  }

  lemma NextTurnedAway(c: Config, states: seq<State>, events: seq<Event>, i: nat, n: nat, pause: Pause)
    requires c.Valid() && IsRun(c, states, events) && i < |events| && pause in states[i].pauses && states[i].now < pause.until
    requires AllTurnedAway(states[i], n, pause.source)
    ensures AllTurnedAway(states[i + 1], n, pause.source)
  {
    if events[i].Act? {
      JobKeepsTurnedAway(c, states, events, i, n, pause.source);
    } else if events[i].Arrive? {
      if events[i].source == pause.source {
        ArrivesPaused(c, states, events, i, pause);
      }
      ArrivalAddsOne(c, states, events, i);
    } else {
      TasksStay(c, states, events, i);
    }
  }

  lemma JobKeepsTurnedAway(c: Config, states: seq<State>, events: seq<Event>, i: nat, n: nat, source: Source)
    requires c.Valid() && IsRun(c, states, events) && i < |events| && events[i].Act? && AllTurnedAway(states[i], n, source)
    ensures AllTurnedAway(states[i + 1], n, source)
  {
    var m := JobOf(c, states, events, i);
    JobLeavesTurnedAway(c, states[i], events[i].t, m, n, source);
  }

  lemma JobLeavesTurnedAway(c: Config, s: State, t: TaskId, m: Move, n: nat, source: Source)
    requires t < |s.tasks| && !s.tasks[t].Finished() && SameCall(s.tasks[t], m.next) && AllTurnedAway(s, n, source)
    ensures AllTurnedAway(Apply(c, s, t, m), n, source)
  {
    GovernorTables.TasksAfter(c, s, t, m);
  }

  lemma ArrivalAddsOne(c: Config, states: seq<State>, events: seq<Event>, i: nat)
    requires c.Valid() && IsRun(c, states, events) && i < |events| && events[i].Arrive?
    ensures |states[i + 1].tasks| == |states[i].tasks| + 1 && states[i].tasks <= states[i + 1].tasks
    ensures states[i + 1].tasks[|states[i].tasks|].source == events[i].source
  {
    assert Step(c, states[i], events[i], states[i + 1]);
  }

  lemma TasksStay(c: Config, states: seq<State>, events: seq<Event>, i: nat)
    requires IsRun(c, states, events) && i < |events| && !events[i].Act? && !events[i].Arrive?
    ensures states[i + 1].tasks == states[i].tasks
  {
    assert Step(c, states[i], events[i], states[i + 1]);
  }

  /**
   A request that comes while its source is paused is refused in its first job, so it starts no
   retrieval and joins no queue.
   */
  lemma {:induction false} NewcomersAreTurnedAway(c: Config, states: seq<State>, events: seq<Event>, i: nat, j: nat, pause: Pause)
    requires c.Valid() && IsRun(c, states, events) && i <= j < |states|
    requires pause in states[i].pauses && states[j].now < pause.until
    ensures AllTurnedAway(states[j], |states[i].tasks|, pause.source)
    decreases j
  {
    if i < j {
      StepGrows(c, states, events, j - 1);
      HistoryGrows(c, states, events, i, j - 1);
      NewcomersAreTurnedAway(c, states, events, i, j - 1, pause);
      NextTurnedAway(c, states, events, j - 1, |states[i].tasks|, pause);
    }
  }

  // ---------------------------------------------------------------------------
  // Gate 4: a spent period.
  // ---------------------------------------------------------------------------

  lemma {:induction false} CountLeftGrows(wire: seq<Departure>, n: nat, k: nat, m: nat, key: Stores.Key)
    requires n <= k < m <= |wire| && wire[k].key == Some(key)
    ensures CountLeft(wire, m, key) >= CountLeft(wire, n, key) + 1
    decreases m
  {
    CountLeftOnlyGrows(wire, n, m - 1, key);
    if k < m - 1 {
      CountLeftGrows(wire, n, k, m - 1, key);
    }
  }

  lemma {:induction false} CountLeftOnlyGrows(wire: seq<Departure>, n: nat, m: nat, key: Stores.Key)
    requires n <= m <= |wire|
    ensures CountLeft(wire, m, key) >= CountLeft(wire, n, key)
    decreases m
  {
    if n < m {
      CountLeftOnlyGrows(wire, n, m - 1, key);
    }
  }

  /**
   A SPENT PERIOD IS SILENT: once as many requests have left on a period as its limit allows, none
   ever leaves on it again.
   */
  lemma SpentPeriodIsSilent(c: Config, states: seq<State>, events: seq<Event>, i: nat, j: nat, key: Stores.Key)
    requires c.Valid() && IsRun(c, states, events) && i <= j < |states| && c.Metered(key.source)
    requires LeftOf(states[i], key) == c.Allowance(key.source).limit
    ensures forall k :: |states[i].wire| <= k < |states[j].wire| ==> states[j].wire[k].key != Some(key)
  {
    var a, b := states[i].wire, states[j].wire;
    HistoryGrows(c, states, events, i, j);
    AllowanceIsConserved(c, states, events, j, key);
    forall k | 0 <= k < |a| ensures a[k].key == b[k].key {
      assert SameDeparture(a[k], b[k]);
    }
    CountLeftAlike(a, b, |a|, key);
    forall k | |a| <= k < |b| ensures b[k].key != Some(key) {
      if b[k].key == Some(key) {
        CountLeftGrows(b, |a|, k, |b|, key);
      }
    }
  }

  // ---------------------------------------------------------------------------
  // Gate 5: what the standard makes of an answer.
  // ---------------------------------------------------------------------------

  /**
   What section 2.3.1 of RFC 9309 lets a crawler do with an answer to its robots.txt
   request: fetch what the rules of a 2xx allow, and anything after a 4xx.
   */
  ghost predicate StandardAllows(c: Config, answer: Answer, path: string) {
    && answer.Response?
    && (|| (200 <= answer.status < 300 && RobotsMatch.PathAllowed(RobotsMatch.SelectGroup(RobotsText.Parsed(answer.body, answer.truncated).groups, c.productToken), path))
        || 400 <= answer.status < 500)
  }

  /**
   EVERY FETCH FOLLOWS THE STANDARD: each product request that ever left, to a host whose
   verdicts can be refreshed, was one the standard allows after the answer an earlier
   robots.txt request to that very origin got, which was read less than the cache bound
   before; and that answer had not counted as a failure against the breaker.
   */
  lemma FetchesFollowTheStandard(c: Config, states: seq<State>, events: seq<Event>, i: nat, k: nat) returns (e: nat)
    requires c.Valid() && IsRun(c, states, events) && i < |states| && k < |states[i].wire|
    requires var d := states[i].wire[k];
             !d.robots && d.origin.host in c.hosts && c.hosts[d.origin.host].minDelayMs < c.cacheBoundMs
    ensures var d := states[i].wire[k];
            && e < k && var r := states[i].wire[e];
               && r.robots && r.path == "/robots.txt" && r.origin == d.origin && r.answer.Some?
               && d.verdict.Some? && r.at <= d.verdict.value.fetchedAt <= d.at < d.verdict.value.fetchedAt + c.cacheBoundMs
               && StandardAllows(c, r.answer.value, d.path) && OutcomeOf(r.answer.value, true).Success?
  {
    EveryFetchWasAllowed(c, states, events, i, k);
    e := states[i].wire[k].verdict.value.evidence;
  }
}
