/** What the breaker is told and the hosts are held for, over whole runs. */
module GovernorRecords {
  // The breaker is called for every gate asked and every answer heard, with the class the
  // status gives it; a pause is announced for what the unpruned outcomes come to; and a host
  // is held for as long as its answers asked, no shorter and no longer.

  import opened Prelude
  import opened HostScheduling
  import opened CircuitBreaker
  import opened Governor
  import opened GovernorMoves
  import GovernorTables
  import opened GovernorHistory
  import opened GovernorPacing
  import opened GovernorRuns
  import opened GovernorOutcomes

  // ---------------------------------------------------------------------------
  // The calls the breaker is made along a run.
  // ---------------------------------------------------------------------------

  /** The settings of a source: its own, or else those of the configuration. */
  function SettingsOf(c: Config): Source -> BreakerSettings {
    x => if x in c.sources && c.sources[x].breaker.Some? then c.sources[x].breaker.value else c.breaker
  }

  /** No answer is a failure. Of a robots.txt only a 2xx or a 4xx is not, of anything else whatever is below 400. */
  function ClassOf(answer: Answer, robots: bool): OutcomeClass {
    if answer.NetworkFailure? then Failure
    else if robots then (if 200 <= answer.status < 300 || 400 <= answer.status < 500 then Success else Failure)
    else if answer.status < 400 then Success
    else Failure
  }

  /**
   The breaker is asked when a send has gate 5 behind it or need not ask it, and again at the wire;
   it is told of every answer.
   */
  ghost function CallOfJob(c: Config, now: int, task: Task): Option<Call> {
    match task.at
    case Granted =>
      if task.IsRobots() || (task.round != 1 && !(task.Host() in c.hosts && c.hosts[task.Host()].minDelayMs < c.cacheBoundMs))
      then Some(Status(task.source, now)) else None
    case Deciding(found) =>
      if task.round > 0 && found.Learned? && Allows(c, found.entry.verdict, task.path) then Some(Status(task.source, now)) else None
    case Holding(_) => Some(Status(task.source, now))
    case Settled(_, answer) => Some(Record(task.source, now, ClassOf(answer, task.IsRobots())))
    case _ => None
  }

  ghost function CallAt(c: Config, s: State, event: Event): Option<Call> {
    match event
    case Arrive(source, origin, _) => if origin.host in c.hosts && source in c.sources then Some(Status(source, s.now)) else None
    case Act(t, _) => if t < |s.tasks| then CallOfJob(c, s.now, s.tasks[t]) else None
    case _ => None
  }

  function Joined(calls: seq<Call>, call: Option<Call>): seq<Call> { if call.Some? then calls + [call.value] else calls }

  /** The calls of the first `n` steps. */
  ghost function CallsOf(c: Config, states: seq<State>, events: seq<Event>, n: nat): seq<Call>
    requires n <= |events| && n <= |states|
  {
    if n == 0 then [] else Joined(CallsOf(c, states, events, n - 1), CallAt(c, states[n - 1], events[n - 1]))
  }

  /** What one call makes of a source's state. */
  function Called(settings: Source -> BreakerSettings, st: SourceState, call: Option<Call>, x: Source): SourceState {
    if call == None || call.value.source != x then st
    else match call.value
      case Status(_, at) => AfterStatus(st, at)
      case Record(_, at, result) => AfterRecord(st, settings(x), at, result)
  }

  predicate Asks(m: Move) { m.effect.AsksBreaker? || m.effect.Departs? }

  /** What a job does to the breaker is the call it makes. */
  lemma JobCalls(c: Config, s: State, t: TaskId, choice: Choice)
    requires Enabled(c, s, t, choice) && Shape(c, s.tasks[t])
    ensures var m, call := Decide(c, s, t, choice), CallOfJob(c, s.now, s.tasks[t]);
            && m.next.source == s.tasks[t].source && m.next.IsRobots() == s.tasks[t].IsRobots() && m.next.origin == s.tasks[t].origin
            && (Asks(m) <==> call == Some(Status(s.tasks[t].source, s.now)))
            && (m.effect.Finishes? <==> s.tasks[t].at.Settled?)
            && (m.effect.Finishes? ==> m.effect.answer == s.tasks[t].at.answer && !Asks(m))
            && (call.Some? <==> Asks(m) || m.effect.Finishes?)
  {
    var task := s.tasks[t];
    match task.at {
      case Granted =>
      case Deciding(_) => DecidingCalls(c, s, t, choice);
      case Holding(_) =>
      case Settled(_, _) =>
      case _ => OthersCallNothing(c, s, t, choice);
    }
  }

  lemma DecidingCalls(c: Config, s: State, t: TaskId, choice: Choice)
    requires Enabled(c, s, t, choice) && s.tasks[t].at.Deciding?
    ensures var m, task := Decide(c, s, t, choice), s.tasks[t];
            && m.next.source == task.source && m.next.parent == task.parent && m.next.origin == task.origin && !m.effect.Finishes? && !m.effect.Departs?
            && (m.effect.AsksBreaker? <==> CallOfJob(c, s.now, task).Some?)
  {
  }

  predicate MayCall(p: Point) { p.Granted? || p.Deciding? || p.Holding? || p.Settled? }

  lemma OthersCallNothing(c: Config, s: State, t: TaskId, choice: Choice)
    requires Enabled(c, s, t, choice) && !MayCall(s.tasks[t].at)
    ensures var m, task := Decide(c, s, t, choice), s.tasks[t];
            && m.next.source == task.source && m.next.parent == task.parent && m.next.origin == task.origin
            && !Asks(m) && !m.effect.Finishes?
  {
    if FromReserving(s.tasks[t].at) {
      LaterCallNothing(c, s, t, choice);
    }
  }

  lemma LaterCallNothing(c: Config, s: State, t: TaskId, choice: Choice)
    requires Enabled(c, s, t, choice) && !MayCall(s.tasks[t].at) && FromReserving(s.tasks[t].at)
    ensures var m, task := Decide(c, s, t, choice), s.tasks[t];
            && m.next.source == task.source && m.next.parent == task.parent && m.next.origin == task.origin
            && !Asks(m) && !m.effect.Finishes?
  {
  }

  lemma ClassIsOutcome(answer: Answer, robots: bool)
    ensures OutcomeOf(answer, robots) == ClassOf(answer, robots)
  {
  }

  lemma BreakersByCall(c: Config, s: State, t: TaskId, choice: Choice, x: Source)
    requires Enabled(c, s, t, choice) && Shape(c, s.tasks[t])
    ensures BreakerOf(Apply(c, s, t, Decide(c, s, t, choice)), x) ==
            Called(SettingsOf(c), BreakerOf(s, x), CallOfJob(c, s.now, s.tasks[t]), x)
  {
    JobCalls(c, s, t, choice);
    var m := Decide(c, s, t, choice);
    if m.effect.Finishes? {
      ClassIsOutcome(m.effect.answer, m.next.IsRobots());
    }
    BreakersNextIs(c, s, t, m, CallOfJob(c, s.now, s.tasks[t]), x);
  }

  lemma BreakersNextIs(c: Config, s: State, t: TaskId, m: Move, call: Option<Call>, x: Source)
    requires t < |s.tasks| && (Asks(m) ==> call == Some(Status(m.next.source, s.now)))
    requires m.effect.Finishes? ==> call == Some(Record(m.next.source, s.now, OutcomeOf(m.effect.answer, m.next.IsRobots())))
    requires call.Some? <==> Asks(m) || m.effect.Finishes?
    ensures BreakerOf(Apply(c, s, t, m), x) == Called(SettingsOf(c), BreakerOf(s, x), call, x)
  {
  }

  lemma BreakersOutside(c: Config, s: State, event: Event, s': State, x: Source)
    requires Step(c, s, event, s') && !event.Act?
    ensures BreakerOf(s', x) == Called(SettingsOf(c), BreakerOf(s, x), CallAt(c, s, event), x)
  {
  }

  lemma BreakersByStep(c: Config, states: seq<State>, events: seq<Event>, i: nat, x: Source)
    requires c.Valid() && IsRun(c, states, events) && i < |events|
    ensures BreakerOf(states[i + 1], x) == Called(SettingsOf(c), BreakerOf(states[i], x), CallAt(c, states[i], events[i]), x)
  {
    assert Step(c, states[i], events[i], states[i + 1]);
    if events[i].Act? {
      InvAlways(c, states, events, i);
      assert Shape(c, states[i].tasks[events[i].t]);
      BreakersByCall(c, states[i], events[i].t, events[i].choice, x);
    } else {
      BreakersOutside(c, states[i], events[i], states[i + 1], x);
    }
  }

  lemma {:induction false} StateAfterAlike(settings: Source -> BreakerSettings, a: seq<Call>, b: seq<Call>, n: nat, x: Source)
    requires n <= |a| && n <= |b| && forall i :: 0 <= i < n ==> a[i] == b[i]
    ensures StateAfter(settings, a, n, x) == StateAfter(settings, b, n, x)
  {
    if n > 0 {
      StateAfterAlike(settings, a, b, n - 1, x);
    }
  }

  lemma {:induction false} StateAfterJoined(settings: Source -> BreakerSettings, calls: seq<Call>, call: Option<Call>, x: Source)
    ensures var more := Joined(calls, call);
            StateAfter(settings, more, |more|, x) == Called(settings, StateAfter(settings, calls, |calls|, x), call, x)
  {
    StateAfterAlike(settings, Joined(calls, call), calls, |calls|, x);
  }

  predicate IsItsCalls(settings: Source -> BreakerSettings, st: SourceState, calls: seq<Call>, x: Source) {
    st == StateAfter(settings, calls, |calls|, x)
  }

  lemma NextIsItsCalls(c: Config, states: seq<State>, events: seq<Event>, i: nat, x: Source)
    requires c.Valid() && IsRun(c, states, events) && i < |events|
    requires IsItsCalls(SettingsOf(c), BreakerOf(states[i], x), CallsOf(c, states, events, i), x)
    ensures IsItsCalls(SettingsOf(c), BreakerOf(states[i + 1], x), Joined(CallsOf(c, states, events, i), CallAt(c, states[i], events[i])), x)
  {
    BreakersByStep(c, states, events, i, x);
    StateAfterJoined(SettingsOf(c), CallsOf(c, states, events, i), CallAt(c, states[i], events[i]), x);
  }

  /**
   THE BREAKER IS ITS CALLS: along every run a source's state is what the calls for gates asked and
   answers heard make of it.
   */
  lemma {:induction false} BreakerIsItsCalls(c: Config, states: seq<State>, events: seq<Event>, n: nat, x: Source)
    requires c.Valid() && IsRun(c, states, events) && n < |states|
    ensures IsItsCalls(SettingsOf(c), BreakerOf(states[n], x), CallsOf(c, states, events, n), x)
  {
    if n == 0 {
      StartsFresh(c, states, events, x);
    } else {
      BreakerIsItsCalls(c, states, events, n - 1, x);
      NextIsItsCalls(c, states, events, n - 1, x);
    }
  }

  lemma StartsFresh(c: Config, states: seq<State>, events: seq<Event>, x: Source)
    requires IsRun(c, states, events)
    ensures BreakerOf(states[0], x) == FRESH_SOURCE && states[0].now >= 0 && states[0].pauses == [] && states[0].holds == []
  {
  }

  // ---------------------------------------------------------------------------
  // Those calls come in the order of the clock.
  // ---------------------------------------------------------------------------

  lemma TimePasses(c: Config, states: seq<State>, events: seq<Event>, i: nat)
    requires c.Valid() && IsRun(c, states, events) && i < |events|
    ensures states[i].now <= states[i + 1].now
  {
    if events[i].Act? {
      var m := JobOf(c, states, events, i);
    } else {
      PauseOf(c, states, events, i);
    }
  }

  lemma CallIsNow(c: Config, s: State, event: Event)
    ensures CallAt(c, s, event).Some? ==> CallAt(c, s, event).value.at == s.now
  {
  }

  /** Calls made one after the other, none before zero or after `now`. */
  ghost predicate InOrder(calls: seq<Call>, now: int) {
    && now >= 0
    && (forall i {:trigger calls[i]} :: 0 <= i < |calls| ==> 0 <= calls[i].at <= now)
    && forall i: nat, j: nat :: NotLater(calls, i, j)
  }

  lemma OneMoreInOrder(calls: seq<Call>, call: Option<Call>, now: int)
    requires InOrder(calls, now) && (call.Some? ==> call.value.at == now)
    ensures InOrder(Joined(calls, call), now)
  {
    var more := Joined(calls, call);
    forall i: nat, j: nat ensures NotLater(more, i, j) {
      assert NotLater(calls, i, j);
    }
  }

  lemma LaterInOrder(calls: seq<Call>, now: int, later: int)
    requires InOrder(calls, now) && now <= later
    ensures InOrder(calls, later)
  {
  }

  lemma {:induction false} CallsAreInOrder(c: Config, states: seq<State>, events: seq<Event>, n: nat)
    requires c.Valid() && IsRun(c, states, events) && n < |states|
    ensures InOrder(CallsOf(c, states, events, n), states[n].now)
  {
    if n == 0 {
      StartsFresh(c, states, events, Source([]));
    } else {
      CallsAreInOrder(c, states, events, n - 1);
      var i := n - 1;
      NextInOrder(c, states, events, i);
    }
  }

  lemma NextInOrder(c: Config, states: seq<State>, events: seq<Event>, i: nat)
    requires c.Valid() && IsRun(c, states, events) && i < |events| && InOrder(CallsOf(c, states, events, i), states[i].now)
    ensures InOrder(CallsOf(c, states, events, i + 1), states[i + 1].now)
  {
    TimePasses(c, states, events, i);
    CallIsNow(c, states[i], events[i]);
    OneMoreInOrder(CallsOf(c, states, events, i), CallAt(c, states[i], events[i]), states[i].now);
    LaterInOrder(Joined(CallsOf(c, states, events, i), CallAt(c, states[i], events[i])), states[i].now, states[i + 1].now);
  }

  // ---------------------------------------------------------------------------
  // Pauses.
  // ---------------------------------------------------------------------------

  /** The `i`th step tells the breaker of an answer. */
  ghost predicate Tells(c: Config, states: seq<State>, events: seq<Event>, i: nat)
    requires i < |events| && i < |states|
  {
    CallAt(c, states[i], events[i]).Some? && CallAt(c, states[i], events[i]).value.Record?
  }

  /** Enough of the outcomes are later than the window's start, and of these at least the threshold's share are failures. */
  predicate Overdue(outcomes: seq<CircuitBreaker.Outcome>, settings: BreakerSettings, now: int) {
    var total := CountSince(outcomes, |outcomes|, now - settings.windowMs);
    && total >= settings.minimumOutcomes && total >= 1
    && CountFailedSince(outcomes, |outcomes|, now - settings.windowMs) as real >= settings.failureRateThreshold * total as real
  }

  lemma OverdueIffCrosses(outcomes: seq<CircuitBreaker.Outcome>, settings: BreakerSettings, now: int)
    ensures Overdue(outcomes, settings, now) <==> CrossesThreshold(outcomes, settings, now)
  {
    var total := CountSince(outcomes, |outcomes|, now - settings.windowMs);
    if total >= 1 {
      RateIff(CountFailedSince(outcomes, |outcomes|, now - settings.windowMs), total, settings.failureRateThreshold);
    }
  }

  lemma RateIff(failed: nat, total: nat, threshold: real)
    requires total >= 1
    ensures failed as real / total as real >= threshold <==> failed as real >= threshold * total as real
  {
    var q, d := failed as real / total as real, total as real;
    assert q * d == failed as real;
    if q >= threshold {
      assert q * d >= threshold * d;
    } else {
      assert q * d < threshold * d;
    }
  }

  /**
   Every outcome of the source since its last reset, this one included and cut to the window,
   crosses both thresholds, and it is not paused.
   */
  ghost predicate MustPause(c: Config, states: seq<State>, events: seq<Event>, i: nat)
    requires i < |events| && i < |states| && Tells(c, states, events, i)
  {
    var call, calls := CallAt(c, states[i], events[i]).value, CallsOf(c, states, events, i);
    var ledger := LedgerAfter(SettingsOf(c), calls, |calls|, call.source);
    && ledger.pausedUntil <= call.at
    && Overdue(ledger.history + [CircuitBreaker.Outcome(call.at, call.result)], SettingsOf(c)(call.source), call.at)
  }

  /** The pause an outcome announces, if it does. */
  function PauseOfOutcome(c: Config, s: State, task: Task): Option<Pause>
    requires task.at.Settled?
  {
    if Announces(BreakerOf(s, task.source), SettingsOf(c)(task.source), s.now, ClassOf(task.at.answer, task.IsRobots()))
    then Some(Pause(task.source, s.now + SettingsOf(c)(task.source).pauseMs)) else None
  }

  lemma SettledPauses(c: Config, s: State, t: TaskId, choice: Choice)
    requires Enabled(c, s, t, choice) && s.tasks[t].at.Settled?
    ensures var s', pause := Apply(c, s, t, Decide(c, s, t, choice)), PauseOfOutcome(c, s, s.tasks[t]);
            && s'.pauses == (if pause.Some? then s.pauses + [pause.value] else s.pauses)
            && t < |s'.tasks| && (s'.tasks[t].at.PauseNoticing? <==> pause.Some?)
  {
    GovernorTables.TasksAfter(c, s, t, Decide(c, s, t, choice));
    ClassIsOutcome(s.tasks[t].at.answer, s.tasks[t].IsRobots());
  }

  lemma OthersPauseNothing(c: Config, s: State, t: TaskId, m: Move)
    requires t < |s.tasks| && !s.tasks[t].at.Settled? && LocalUnit(c, s, s.tasks[t], m) && EndsHonestly(c, s, s.tasks[t], m)
    ensures var s' := Apply(c, s, t, m);
            s'.pauses == s.pauses && s'.holds == s.holds && t < |s'.tasks| && !s'.tasks[t].at.PauseNoticing?
  {
    GovernorTables.TasksAfter(c, s, t, m);
    HostsAfter(c, s, t, m);
  }

  lemma AnnouncesIffMustPause(c: Config, states: seq<State>, events: seq<Event>, i: nat, x: Source, result: OutcomeClass)
    requires c.Valid() && IsRun(c, states, events) && i < |events|
    requires CallAt(c, states[i], events[i]) == Some(Record(x, states[i].now, result))
    ensures Announces(BreakerOf(states[i], x), SettingsOf(c)(x), states[i].now, result) <==> MustPause(c, states, events, i)
  {
    var calls := CallsOf(c, states, events, i);
    CallsAreInOrder(c, states, events, i);
    BreakerIsItsCalls(c, states, events, i, x);
    RunAgrees(SettingsOf(c), calls, |calls|, x, states[i].now);
    var ledger := LedgerAfter(SettingsOf(c), calls, |calls|, x);
    RecordAgrees(BreakerOf(states[i], x), ledger, SettingsOf(c)(x), states[i].now, result);
    OverdueIffCrosses(ledger.history + [CircuitBreaker.Outcome(states[i].now, result)], SettingsOf(c)(x), states[i].now);
  }

  /** A step of a run in which a job acts, with what it does to the pauses and holds when it records no outcome. */
  lemma RecordsOnlyWhenSettled(c: Config, states: seq<State>, events: seq<Event>, i: nat)
    requires c.Valid() && IsRun(c, states, events) && i < |events| && events[i].Act?
    ensures events[i].t < |states[i].tasks| && events[i].t < |states[i + 1].tasks| && Enabled(c, states[i], events[i].t, events[i].choice)
    ensures states[i + 1] == Apply(c, states[i], events[i].t, Decide(c, states[i], events[i].t, events[i].choice))
    ensures !states[i].tasks[events[i].t].at.Settled? ==>
              && states[i + 1].pauses == states[i].pauses && states[i + 1].holds == states[i].holds
              && !states[i + 1].tasks[events[i].t].at.PauseNoticing?
  {
    OutcomesAlways(c, states, events, i);
    var m := HonestJobOf(c, states, events, i);
    GovernorTables.TasksAfter(c, states[i], events[i].t, m);
    if !states[i].tasks[events[i].t].at.Settled? {
      OthersPauseNothing(c, states[i], events[i].t, m);
    }
  }

  /** What is recorded when the breaker is told of an outcome that crosses its thresholds, and what otherwise. */
  ghost predicate PausesBy(c: Config, states: seq<State>, events: seq<Event>, i: nat)
    requires i < |events| && i + 1 < |states|
  {
    var call := CallAt(c, states[i], events[i]);
    if Tells(c, states, events, i) && MustPause(c, states, events, i)
    then states[i + 1].pauses == states[i].pauses + [Pause(call.value.source, states[i].now + SettingsOf(c)(call.value.source).pauseMs)]
    else states[i + 1].pauses == states[i].pauses
  }

  /**
   PAUSES ARE FOR WHAT WAS HEARD: a step records a pause if and only if it tells the breaker of an
   answer with which the source's unpruned outcomes cross both thresholds, and then, and only then,
   the call that heard it goes on to tell of the pause.
   */
  lemma PausesAreForWhatWasHeard(c: Config, states: seq<State>, events: seq<Event>, i: nat)
    requires c.Valid() && IsRun(c, states, events) && i < |events|
    ensures PausesBy(c, states, events, i)
    ensures events[i].Act? && events[i].t < |states[i + 1].tasks| ==>
              (states[i + 1].tasks[events[i].t].at.PauseNoticing? <==> Tells(c, states, events, i) && MustPause(c, states, events, i))
  {
    if !events[i].Act? {
      PauseOf(c, states, events, i);
    } else if events[i].t < |states[i].tasks| && states[i].tasks[events[i].t].at.Settled? {
      SettlingPauses(c, states, events, i);
    } else {
      RecordsOnlyWhenSettled(c, states, events, i);
    }
  }

  lemma SettlingPauses(c: Config, states: seq<State>, events: seq<Event>, i: nat)
    requires c.Valid() && IsRun(c, states, events) && i < |events| && events[i].Act?
    requires events[i].t < |states[i].tasks| && states[i].tasks[events[i].t].at.Settled?
    ensures PausesBy(c, states, events, i) && Tells(c, states, events, i) && events[i].t < |states[i + 1].tasks|
    ensures states[i + 1].tasks[events[i].t].at.PauseNoticing? <==> MustPause(c, states, events, i)
  {
    ShapedJobOf(c, states, events, i);
    var task := states[i].tasks[events[i].t];
    SettledPauses(c, states[i], events[i].t, events[i].choice);
    AnnouncesIffMustPause(c, states, events, i, task.source, ClassOf(task.at.answer, task.IsRobots()));
  }

  ghost predicate PausedByRecord(s: State, x: Source, until: int) {
    exists j :: 0 <= j < |s.pauses| && s.pauses[j] == Pause(x, until)
  }

  /** The breaker's own record of a pause, expired or not, is one in the history. */
  ghost predicate PauseIsRecorded(s: State, x: Source) {
    BreakerOf(s, x).pausedUntil == 0 || PausedByRecord(s, x, BreakerOf(s, x).pausedUntil)
  }

  lemma NextPauseIsRecorded(c: Config, states: seq<State>, events: seq<Event>, i: nat, x: Source)
    requires c.Valid() && IsRun(c, states, events) && i < |events| && PauseIsRecorded(states[i], x)
    ensures PauseIsRecorded(states[i + 1], x)
  {
    var s, s', call := states[i], states[i + 1], CallAt(c, states[i], events[i]);
    BreakersByStep(c, states, events, i, x);
    PausesAreForWhatWasHeard(c, states, events, i);
    assert s.pauses <= s'.pauses;
    if BreakerOf(s, x).pausedUntil != 0 {
      var j :| 0 <= j < |s.pauses| && s.pauses[j] == Pause(x, BreakerOf(s, x).pausedUntil);
      assert s'.pauses[j] == Pause(x, BreakerOf(s, x).pausedUntil);
    }
    if call.Some? && call.value.source == x && call.value.Record? {
      CallIsNow(c, s, events[i]);
      AnnouncesIffMustPause(c, states, events, i, x, call.value.result);
      if MustPause(c, states, events, i) {
        assert s'.pauses[|s.pauses|] == Pause(x, s.now + SettingsOf(c)(x).pauseMs);
      }
    }
  }

  lemma {:induction false} PausesAreRecorded(c: Config, states: seq<State>, events: seq<Event>, i: nat, x: Source)
    requires c.Valid() && IsRun(c, states, events) && i < |states|
    ensures PauseIsRecorded(states[i], x)
  {
    if i == 0 {
      StartsFresh(c, states, events, x);
    } else {
      PausesAreRecorded(c, states, events, i - 1, x);
      NextPauseIsRecorded(c, states, events, i - 1, x);
    }
  }

  lemma {:induction false} TimeIsNotNegative(c: Config, states: seq<State>, events: seq<Event>, i: nat)
    requires c.Valid() && IsRun(c, states, events) && i < |states|
    ensures states[i].now >= 0
  {
    CallsAreInOrder(c, states, events, i);
  }

  /** A source is paused if and only if a recorded pause of it still runs. */
  lemma PausedIffRecorded(c: Config, states: seq<State>, events: seq<Event>, i: nat, x: Source)
    requires c.Valid() && IsRun(c, states, events) && i < |states|
    ensures Paused(BreakerOf(states[i], x), states[i].now) <==>
            exists j :: 0 <= j < |states[i].pauses| && states[i].pauses[j].source == x && states[i].pauses[j].until > states[i].now
  {
    InvAlways(c, states, events, i);
    PausesAreRecorded(c, states, events, i, x);
    TimeIsNotNegative(c, states, events, i);
    var s := states[i];
    forall j | 0 <= j < |s.pauses| && s.pauses[j].source == x && s.pauses[j].until > s.now ensures BreakerOf(s, x).pausedUntil > s.now {
      assert PauseKnown(s, j);
    }
  }

  // ---------------------------------------------------------------------------
  // Every answer is told, once, and the hold it asked for recorded with it.
  // ---------------------------------------------------------------------------

  /** Task `t` records its answer in the `i`th step. */
  predicate Records(states: seq<State>, events: seq<Event>, i: nat, t: TaskId)
    requires i < |events| && i < |states|
  {
    events[i].Act? && events[i].t == t && t < |states[i].tasks| && states[i].tasks[t].at.Settled?
  }

  /** How often it has by state `n`. */
  ghost function TimesRecorded(states: seq<State>, events: seq<Event>, n: nat, t: TaskId): nat
    requires n <= |events| && n <= |states|
  {
    if n == 0 then 0 else TimesRecorded(states, events, n - 1, t) + if Records(states, events, n - 1, t) then 1 else 0
  }

  /** The call has left, been answered and gone past its settlement. */
  predicate IsOver(s: State, t: TaskId) { t < |s.tasks| && s.tasks[t].departure.Some? && Ended(s.tasks[t].at) }

  lemma OverBy(c: Config, s: State, t: TaskId, m: Move, u: TaskId)
    requires t < |s.tasks| && Shape(c, s.tasks[t]) && Shape(c, m.next) && EndsHonestly(c, s, s.tasks[t], m)
    requires SameCall(s.tasks[t], m.next) && LocalTable(c, s, s.tasks[t], m) && LocalUnit(c, s, s.tasks[t], m) && !s.tasks[t].Finished()
    requires s.tasks[t].at.Settled? || s.tasks[t].at.PauseNoticing? ==> Ended(m.next.at)
    ensures IsOver(Apply(c, s, t, m), u) <==> IsOver(s, u) || (u == t && s.tasks[t].at.Settled?)
    ensures u == t && s.tasks[t].at.Settled? ==> !IsOver(s, u)
  {
    GovernorTables.TasksAfter(c, s, t, m);
    if u == t {
      OverStays(c, s, t, m);
    }
  }

  lemma OverStays(c: Config, s: State, t: TaskId, m: Move)
    requires t < |s.tasks| && Shape(c, s.tasks[t]) && Shape(c, m.next) && EndsHonestly(c, s, s.tasks[t], m)
    requires SameCall(s.tasks[t], m.next) && LocalTable(c, s, s.tasks[t], m) && LocalUnit(c, s, s.tasks[t], m) && !s.tasks[t].Finished()
    requires s.tasks[t].at.Settled? || s.tasks[t].at.PauseNoticing? ==> Ended(m.next.at)
    ensures m.next.departure.Some? && Ended(m.next.at) <==> (s.tasks[t].departure.Some? && Ended(s.tasks[t].at)) || s.tasks[t].at.Settled?
  {
  }

  lemma SettlingEnds(c: Config, s: State, t: TaskId, choice: Choice)
    requires Enabled(c, s, t, choice) && (s.tasks[t].at.Settled? || s.tasks[t].at.PauseNoticing?)
    ensures Ended(Decide(c, s, t, choice).next.at)
  {
  }

  lemma NextOver(c: Config, states: seq<State>, events: seq<Event>, i: nat, u: TaskId)
    requires c.Valid() && IsRun(c, states, events) && i < |events|
    ensures IsOver(states[i + 1], u) <==> IsOver(states[i], u) || Records(states, events, i, u)
    ensures Records(states, events, i, u) ==> !IsOver(states[i], u)
  {
    if events[i].Act? {
      JobsOver(c, states, events, i, u);
    } else {
      PauseOf(c, states, events, i);
      OverOutside(c, states[i], states[i + 1], u);
    }
  }

  lemma OverOutside(c: Config, s: State, s': State, u: TaskId)
    requires Outside(c, s, s')
    ensures IsOver(s', u) <==> IsOver(s, u)
  {
    if |s.tasks| <= u < |s'.tasks| {
      assert Entered(c, s'.tasks[u]);
    }
  }

  lemma JobsOver(c: Config, states: seq<State>, events: seq<Event>, i: nat, u: TaskId)
    requires c.Valid() && IsRun(c, states, events) && i < |events| && events[i].Act?
    ensures IsOver(states[i + 1], u) <==> IsOver(states[i], u) || Records(states, events, i, u)
    ensures Records(states, events, i, u) ==> !IsOver(states[i], u)
  {
    OutcomesAlways(c, states, events, i);
    var m := HonestJobOf(c, states, events, i);
    var s, t := states[i], events[i].t;
    assert Shape(c, s.tasks[t]);
    if s.tasks[t].at.Settled? || s.tasks[t].at.PauseNoticing? {
      SettlingEnds(c, s, t, events[i].choice);
    }
    OverBy(c, s, t, m, u);
  }

  function OnceIf(over: bool): nat { if over then 1 else 0 }

  lemma NextTold(c: Config, states: seq<State>, events: seq<Event>, i: nat, u: TaskId)
    requires c.Valid() && IsRun(c, states, events) && i < |events|
    requires TimesRecorded(states, events, i, u) == OnceIf(IsOver(states[i], u))
    ensures TimesRecorded(states, events, i, u) + OnceIf(Records(states, events, i, u)) == OnceIf(IsOver(states[i + 1], u))
  {
    NextOver(c, states, events, i, u);
  }

  /** TOLD ONCE: the breaker is told of each call that left once, when it is over, and not before. */
  lemma {:induction false} ToldOnce(c: Config, states: seq<State>, events: seq<Event>, n: nat, u: TaskId)
    requires c.Valid() && IsRun(c, states, events) && n < |states|
    ensures TimesRecorded(states, events, n, u) == OnceIf(IsOver(states[n], u))
  {
    if n == 0 {
      NobodyIsOverAtFirst(c, states, events, u);
    } else {
      ToldOnce(c, states, events, n - 1, u);
      NextTold(c, states, events, n - 1, u);
    }
  }

  lemma NobodyIsOverAtFirst(c: Config, states: seq<State>, events: seq<Event>, u: TaskId)
    requires IsRun(c, states, events)
    ensures !IsOver(states[0], u)
  {
  }

  /** TOLD WHAT IT HEARD: what the breaker is told is the class of the answer to the one request the call put on the wire. */
  lemma ToldWhatItHeard(c: Config, states: seq<State>, events: seq<Event>, i: nat) returns (k: nat)
    requires c.Valid() && IsRun(c, states, events) && i < |events| && Tells(c, states, events, i)
    ensures var s := states[i];
            && k < |s.wire| && s.wire[k].answer.Some? && events[i].Act? && s.wire[k].task == events[i].t
            && CallAt(c, s, events[i]) == Some(Record(s.wire[k].source, s.now, ClassOf(s.wire[k].answer.value, s.wire[k].robots)))
  {
    InvAlways(c, states, events, i);
    var s, t := states[i], events[i].t;
    assert AnswerOk(s, t) && Shape(c, s.tasks[t]);
    k := HeardBy(c, s, t);
  }

  lemma HeardBy(c: Config, s: State, t: TaskId) returns (k: nat)
    requires t < |s.tasks| && AnswerOk(s, t) && Shape(c, s.tasks[t]) && s.tasks[t].at.Settled?
    ensures var task := s.tasks[t];
            && k < |s.wire| && s.wire[k].answer == Some(task.at.answer) && s.wire[k].task == t
            && s.wire[k].source == task.source && s.wire[k].robots == task.IsRobots()
  {
    k := s.tasks[t].departure.value;
  }

  /** What a host is held for by an answer: a positive time from the instant it is recorded. */
  function HoldOf(s: State, task: Task): Option<PlacedHold>
    requires task.at.Settled?
  {
    if task.at.answer.Response? && task.at.answer.holdMs > 0
    then Some(PlacedHold(task.origin.host, s.now + task.at.answer.holdMs)) else None
  }

  /** What a step records against the hosts. */
  function HoldsBy(states: seq<State>, events: seq<Event>, i: nat): Option<PlacedHold>
    requires i < |events| && i < |states|
  {
    if events[i].Act? && Records(states, events, i, events[i].t) then HoldOf(states[i], states[i].tasks[events[i].t]) else None
  }

  lemma SettledHolds(c: Config, s: State, t: TaskId, choice: Choice, h: Host)
    requires Enabled(c, s, t, choice) && s.tasks[t].at.Settled?
    ensures var s', hold := Apply(c, s, t, Decide(c, s, t, choice)), HoldOf(s, s.tasks[t]);
            && s'.holds == (if hold.Some? then s.holds + [hold.value] else s.holds)
            && HostOf(s', h).holdUntil ==
               if hold.Some? && hold.value.host == h then Max(HostOf(s, h).holdUntil, hold.value.until) else HostOf(s, h).holdUntil
  {
  }

  lemma OthersHoldNothing(c: Config, s: State, t: TaskId, m: Move, h: Host)
    requires t < |s.tasks| && !m.effect.Finishes?
    ensures Apply(c, s, t, m).holds == s.holds && HostOf(Apply(c, s, t, m), h).holdUntil == HostOf(s, h).holdUntil
  {
  }

  /** What a job does, without the local facts of its move. */
  lemma ShapedJobOf(c: Config, states: seq<State>, events: seq<Event>, i: nat)
    requires c.Valid() && IsRun(c, states, events) && i < |events| && events[i].Act?
    ensures events[i].t < |states[i].tasks| && Shape(c, states[i].tasks[events[i].t])
    ensures Enabled(c, states[i], events[i].t, events[i].choice)
    ensures states[i + 1] == Apply(c, states[i], events[i].t, Decide(c, states[i], events[i].t, events[i].choice))
  {
    InvAlways(c, states, events, i);
    assert Step(c, states[i], events[i], states[i + 1]);
  }

  lemma JobHolds(c: Config, s: State, t: TaskId, choice: Choice, h: Host)
    requires Enabled(c, s, t, choice) && Shape(c, s.tasks[t])
    ensures var s', hold := Apply(c, s, t, Decide(c, s, t, choice)), if s.tasks[t].at.Settled? then HoldOf(s, s.tasks[t]) else None;
            && s'.holds == (if hold.Some? then s.holds + [hold.value] else s.holds)
            && HostOf(s', h).holdUntil ==
               if hold.Some? && hold.value.host == h then Max(HostOf(s, h).holdUntil, hold.value.until) else HostOf(s, h).holdUntil
  {
    if s.tasks[t].at.Settled? {
      SettledHolds(c, s, t, choice, h);
    } else {
      JobCalls(c, s, t, choice);
      OthersHoldNothing(c, s, t, Decide(c, s, t, choice), h);
    }
  }

  /** What one step does to the history of holds, and to the end of the hold on a host. */
  lemma HoldsAreForWhatWasAsked(c: Config, states: seq<State>, events: seq<Event>, i: nat, h: Host)
    requires c.Valid() && IsRun(c, states, events) && i < |events|
    ensures var s, s', hold := states[i], states[i + 1], HoldsBy(states, events, i);
            && s'.holds == (if hold.Some? then s.holds + [hold.value] else s.holds)
            && HostOf(s', h).holdUntil ==
               if hold.Some? && hold.value.host == h then Max(HostOf(s, h).holdUntil, hold.value.until) else HostOf(s, h).holdUntil
  {
    if !events[i].Act? {
      PauseOf(c, states, events, i);
    } else {
      ShapedJobOf(c, states, events, i);
      JobHolds(c, states[i], events[i].t, events[i].choice, h);
    }
  }

  ghost predicate HeldByRecord(s: State, h: Host) {
    && (forall j :: 0 <= j < |s.holds| && s.holds[j].host == h ==> s.holds[j].until <= HostOf(s, h).holdUntil)
    && (HostOf(s, h).holdUntil == 0 || exists j :: 0 <= j < |s.holds| && s.holds[j] == PlacedHold(h, HostOf(s, h).holdUntil))
  }

  lemma OneMoreHold(s: State, s': State, hold: Option<PlacedHold>, h: Host)
    requires HeldByRecord(s, h) && s'.holds == (if hold.Some? then s.holds + [hold.value] else s.holds)
    requires HostOf(s', h).holdUntil ==
             if hold.Some? && hold.value.host == h then Max(HostOf(s, h).holdUntil, hold.value.until) else HostOf(s, h).holdUntil
    ensures HeldByRecord(s', h)
  {
    if HostOf(s', h).holdUntil == HostOf(s, h).holdUntil {
      if HostOf(s, h).holdUntil != 0 {
        var j :| 0 <= j < |s.holds| && s.holds[j] == PlacedHold(h, HostOf(s, h).holdUntil);
        assert s'.holds[j] == s.holds[j];
      }
    } else {
      assert s'.holds[|s.holds|] == hold.value;
    }
  }

  /**
   A HOST IS HELD AS LONG AS IT ASKED: the end of its hold is the latest of those recorded, each of
   which a call recorded when it was over.
   */
  lemma {:induction false} HeldAsLongAsAsked(c: Config, states: seq<State>, events: seq<Event>, i: nat, h: Host)
    requires c.Valid() && IsRun(c, states, events) && i < |states|
    ensures HeldByRecord(states[i], h)
  {
    if i == 0 {
      StartsFresh(c, states, events, Source([]));
    } else {
      HeldAsLongAsAsked(c, states, events, i - 1, h);
      NextHeld(c, states, events, i - 1, h);
    }
  }

  lemma NextHeld(c: Config, states: seq<State>, events: seq<Event>, i: nat, h: Host)
    requires c.Valid() && IsRun(c, states, events) && i < |events| && HeldByRecord(states[i], h)
    ensures HeldByRecord(states[i + 1], h)
  {
    HoldsAreForWhatWasAsked(c, states, events, i, h);
    OneMoreHold(states[i], states[i + 1], HoldsBy(states, events, i), h);
  }
}
