/** What a request passes on its way, over whole runs. */
module GovernorPassing {
  // Gate by gate: when a request is turned away at the door, what a period's counter had
  // said when gate 4 let it pass, how gate 5 is answered, which verdict it once had, when
  // its turn comes, and what the boundary blames when it gives up.

  import opened Prelude
  import opened HostScheduling
  import opened CircuitBreaker
  import opened Governor
  import opened GovernorMoves
  import opened GovernorTables
  import opened GovernorHistory
  import GovernorPacing
  import opened GovernorRuns
  import opened GovernorSafety
  import opened GovernorOutcomes
  import Gates = GovernorGates
  import Records = GovernorRecords
  import Reasons = GovernorReasons
  import Stores = AllowanceStores

  // ---------------------------------------------------------------------------
  // Gates 1 and 2.
  // ---------------------------------------------------------------------------

  /** Refused for its host exactly if that is not configured, and for its source exactly if only that is not. */
  predicate TurnedAwayAtTheDoor(c: Config, task: Task) {
    && (task.at == Done(Refused(UnconfiguredHost)) <==> task.origin.host !in c.hosts)
    && (task.at == Done(Refused(UnknownSource)) <==> task.origin.host in c.hosts && task.source !in c.sources)
  }

  lemma JobsAreInside(c: Config, s: State, t: TaskId, m: Move)
    requires t < |s.tasks| && Shape(c, s.tasks[t]) && Shape(c, m.next) && SameCall(s.tasks[t], m.next) && !s.tasks[t].Finished()
    requires EndsHonestly(c, s, s.tasks[t], m)
    ensures TurnedAwayAtTheDoor(c, m.next)
  {
  }

  ghost predicate DoorsKept(c: Config, s: State) { forall t :: 0 <= t < |s.tasks| ==> TurnedAwayAtTheDoor(c, s.tasks[t]) }

  lemma NextDoorsKept(c: Config, states: seq<State>, events: seq<Event>, i: nat)
    requires c.Valid() && IsRun(c, states, events) && i < |events| && DoorsKept(c, states[i])
    ensures DoorsKept(c, states[i + 1])
  {
    if events[i].Act? {
      JobKeepsDoors(c, states, events, i);
    } else if events[i].Arrive? {
      Gates.ArrivalIsItsEntering(c, states, events, i);
    } else {
      Gates.TasksStay(c, states, events, i);
    }
  }

  lemma DoorsAfterJob(c: Config, s: State, t: TaskId, m: Move)
    requires t < |s.tasks| && DoorsKept(c, s) && TurnedAwayAtTheDoor(c, m.next)
    requires m.effect.StartsRetrieval? ==> m.next.Host() in c.hosts && m.next.source in c.sources
    ensures DoorsKept(c, Apply(c, s, t, m))
  {
    TasksAfter(c, s, t, m);
  }

  lemma JobKeepsDoors(c: Config, states: seq<State>, events: seq<Event>, i: nat)
    requires c.Valid() && IsRun(c, states, events) && i < |events| && events[i].Act? && DoorsKept(c, states[i])
    ensures DoorsKept(c, states[i + 1])
  {
    OutcomesAlways(c, states, events, i);
    var m := HonestJobOf(c, states, events, i);
    assert Shape(c, states[i].tasks[events[i].t]);
    JobsAreInside(c, states[i], events[i].t, m);
    DoorsAfterJob(c, states[i], events[i].t, m);
  }

  /** GATES 1 AND 2: in every run a request is refused for its host or its source if and only if it is not configured. */
  lemma {:induction false} DoorRefusalsIff(c: Config, states: seq<State>, events: seq<Event>, i: nat)
    requires c.Valid() && IsRun(c, states, events) && i < |states|
    ensures DoorsKept(c, states[i])
  {
    if i == 0 {
      assert states[0].tasks == [];
    } else {
      DoorRefusalsIff(c, states, events, i - 1);
      NextDoorsKept(c, states, events, i - 1);
    }
  }

  // ---------------------------------------------------------------------------
  // Gate 4.
  // ---------------------------------------------------------------------------

  /** Gate 4 of this round is behind the task. */
  predicate PastGateFour(task: Task) {
    || task.at.AtBoundary? || task.at.Reserving? || task.at.Holding?
    || (task.round == 0 && (task.at.Asking? || task.at.Joined? || task.at.Deciding?))
  }

  /** In state `j` task `t` was reading the counter of its source's period around that instant, and the counter was `n`. */
  predicate ReadAt(c: Config, states: seq<State>, j: nat, t: TaskId, round: nat, n: int) {
    && j < |states| && t < |states[j].tasks|
    && var s, task := states[j], states[j].tasks[t];
       && task.round == round && task.at.Reading? && task.source in c.sources && c.sources[task.source].allowance.Some?
       && Aligned(task.at.period, c.sources[task.source].allowance.value.periodMs)
       && Stores.View(s.rows, Stores.Key(task.source, task.at.period)).consumed == n
  }

  ghost predicate ToldBy(c: Config, states: seq<State>, i: nat, t: TaskId, round: nat, n: int) {
    exists j: nat :: j <= i && ReadAt(c, states, j, t, round, n)
  }

  ghost predicate ToldOfRoom(c: Config, states: seq<State>, i: nat, t: TaskId, round: nat, limit: nat) {
    exists n: int :: n < limit && ToldBy(c, states, i, t, round, n)
  }

  ghost predicate GateFourAsked(c: Config, states: seq<State>, i: nat, t: TaskId)
    requires i < |states| && t < |states[i].tasks|
  {
    var task := states[i].tasks[t];
    task.source in c.sources && c.sources[task.source].allowance.Some? ==>
      var a := c.sources[task.source].allowance.value;
      && (task.at.Reading? ==> Aligned(task.at.period, a.periodMs))
      && (task.at.Checked? ==> ToldBy(c, states, i, t, task.round, task.at.consumed))
      && (PastGateFour(task) ==> ToldOfRoom(c, states, i, t, task.round, a.limit))
  }

  /** What a move may be, for a metered source, as far as gate 4 is concerned. */
  predicate LocalGateFour(c: Config, s: State, task: Task, m: Move)
    requires c.Metered(task.source)
  {
    && (m.next.at.Reading? ==> Aligned(m.next.at.period, c.Allowance(task.source).periodMs))
    && (m.next.at.Checked? ==>
          task.at.Reading? && m.next.round == task.round && m.next.at == Checked(task.at.period, ConsumedAt(s, task, task.at.period)))
    && (PastGateFour(m.next) ==>
          && m.next.round == task.round
          && (PastGateFour(task) || (task.at.Checked? && task.at.consumed < c.Allowance(task.source).limit)))
  }

  lemma EarlyGateFour(c: Config, s: State, t: TaskId, choice: Choice)
    requires Enabled(c, s, t, choice) && Shape(c, s.tasks[t]) && c.Metered(s.tasks[t].source) && BeforeReserving(s.tasks[t].at)
    ensures LocalGateFour(c, s, s.tasks[t], Decide(c, s, t, choice))
  {
    PeriodStartIsAligned(s.now, c.Allowance(s.tasks[t].source).periodMs);
    if s.tasks[t].at.Deciding? {
      DecidingGateFour(c, s, t, choice);
    }
  }

  lemma DecidingGateFour(c: Config, s: State, t: TaskId, choice: Choice)
    requires Enabled(c, s, t, choice) && Shape(c, s.tasks[t]) && c.Metered(s.tasks[t].source) && s.tasks[t].at.Deciding?
    ensures LocalGateFour(c, s, s.tasks[t], Decide(c, s, t, choice))
  {
    PeriodStartIsAligned(s.now, c.Allowance(s.tasks[t].source).periodMs);
  }

  lemma LateGateFour(c: Config, s: State, t: TaskId, choice: Choice)
    requires Enabled(c, s, t, choice) && Shape(c, s.tasks[t]) && c.Metered(s.tasks[t].source) && !BeforeReserving(s.tasks[t].at)
    ensures LocalGateFour(c, s, s.tasks[t], Decide(c, s, t, choice))
  {
  }

  lemma ToldStays(c: Config, states: seq<State>, i: nat, t: TaskId, round: nat, n: int)
    requires ToldBy(c, states, i, t, round, n)
    ensures ToldBy(c, states, i + 1, t, round, n)
  {
    var j: nat :| j <= i && ReadAt(c, states, j, t, round, n);
    assert j <= i + 1 && ReadAt(c, states, j, t, round, n);
  }

  lemma RoomStays(c: Config, states: seq<State>, i: nat, t: TaskId, round: nat, limit: nat)
    requires ToldOfRoom(c, states, i, t, round, limit)
    ensures ToldOfRoom(c, states, i + 1, t, round, limit)
  {
    var n: int :| n < limit && ToldBy(c, states, i, t, round, n);
    ToldStays(c, states, i, t, round, n);
  }

  /** A task that has not changed is as well told as before. */
  lemma AskedStays(c: Config, states: seq<State>, i: nat, t: TaskId)
    requires i + 1 < |states| && t < |states[i].tasks| && t < |states[i + 1].tasks| && states[i + 1].tasks[t] == states[i].tasks[t]
    requires GateFourAsked(c, states, i, t)
    ensures GateFourAsked(c, states, i + 1, t)
  {
    var task := states[i].tasks[t];
    if c.Metered(task.source) {
      if task.at.Checked? {
        ToldStays(c, states, i, t, task.round, task.at.consumed);
      }
      if PastGateFour(task) {
        RoomStays(c, states, i, t, task.round, c.Allowance(task.source).limit);
      }
    }
  }

  lemma ActorIsTold(c: Config, states: seq<State>, i: nat, t: TaskId, m: Move)
    requires i + 1 < |states| && t < |states[i].tasks| && t < |states[i + 1].tasks| && states[i + 1].tasks[t] == m.next
    requires GateFourAsked(c, states, i, t) && SameCall(states[i].tasks[t], m.next)
    requires c.Metered(m.next.source) ==> LocalGateFour(c, states[i], states[i].tasks[t], m)
    ensures GateFourAsked(c, states, i + 1, t)
  {
    var s, task := states[i], states[i].tasks[t];
    if c.Metered(task.source) {
      if m.next.at.Checked? {
        assert ReadAt(c, states, i, t, task.round, m.next.at.consumed);
        assert ToldBy(c, states, i + 1, t, task.round, m.next.at.consumed);
      }
      if PastGateFour(m.next) {
        var limit := c.Allowance(task.source).limit;
        assert task.at.Checked? && task.at.consumed < limit ==> ToldOfRoom(c, states, i, t, task.round, limit);
        RoomStays(c, states, i, t, task.round, limit);
      }
    }
  }

  ghost predicate GatesFourAsked(c: Config, states: seq<State>, i: nat)
    requires i < |states|
  {
    forall t :: 0 <= t < |states[i].tasks| ==> GateFourAsked(c, states, i, t)
  }

  lemma JobIsTold(c: Config, states: seq<State>, events: seq<Event>, i: nat)
    requires c.Valid() && IsRun(c, states, events) && i < |events| && events[i].Act? && GatesFourAsked(c, states, i)
    ensures GatesFourAsked(c, states, i + 1)
  {
    var m := JobOf(c, states, events, i);
    var s, t := states[i], events[i].t;
    assert Shape(c, s.tasks[t]);
    if c.Metered(s.tasks[t].source) {
      if BeforeReserving(s.tasks[t].at) {
        EarlyGateFour(c, s, t, events[i].choice);
      } else {
        LateGateFour(c, s, t, events[i].choice);
      }
    }
    AllAreTold(c, states, i, t, m);
  }

  lemma AllAreTold(c: Config, states: seq<State>, i: nat, t: TaskId, m: Move)
    requires i + 1 < |states| && t < |states[i].tasks| && states[i + 1] == Apply(c, states[i], t, m) && GatesFourAsked(c, states, i)
    requires SameCall(states[i].tasks[t], m.next) && (c.Metered(m.next.source) ==> LocalGateFour(c, states[i], states[i].tasks[t], m))
    ensures GatesFourAsked(c, states, i + 1)
  {
    TasksAfter(c, states[i], t, m);
    var k := i + 1;
    forall u | 0 <= u < |states[k].tasks| ensures GateFourAsked(c, states, k, u) {
      if u == t {
        ActorIsTold(c, states, i, t, m);
      } else if u < |states[i].tasks| {
        AskedStays(c, states, i, u);
      }
    }
  }

  lemma NextIsTold(c: Config, states: seq<State>, events: seq<Event>, i: nat)
    requires c.Valid() && IsRun(c, states, events) && i < |events| && !events[i].Act? && GatesFourAsked(c, states, i)
    ensures GatesFourAsked(c, states, i + 1)
  {
    PauseOf(c, states, events, i);
    var k := i + 1;
    forall u | 0 <= u < |states[k].tasks| ensures GateFourAsked(c, states, k, u) {
      if u < |states[i].tasks| {
        AskedStays(c, states, i, u);
      } else {
        NewcomerIsTold(c, states, events, i, u);
      }
    }
  }

  lemma NewcomerIsTold(c: Config, states: seq<State>, events: seq<Event>, i: nat, u: TaskId)
    requires c.Valid() && IsRun(c, states, events) && i < |events| && !events[i].Act?
    requires |states[i].tasks| <= u < |states[i + 1].tasks|
    ensures GateFourAsked(c, states, i + 1, u)
  {
    assert Step(c, states[i], events[i], states[i + 1]) && events[i].Arrive?;
    if c.Metered(events[i].source) {
      PeriodStartIsAligned(states[i].now, c.Allowance(events[i].source).periodMs);
    }
  }

  lemma StepIsTold(c: Config, states: seq<State>, events: seq<Event>, i: nat)
    requires c.Valid() && IsRun(c, states, events) && i < |events| && GatesFourAsked(c, states, i)
    ensures GatesFourAsked(c, states, i + 1)
  {
    if events[i].Act? {
      JobIsTold(c, states, events, i);
    } else {
      NextIsTold(c, states, events, i);
    }
  }

  /**
   GATE 4: in every run, whoever of a metered source has passed gate 4 had been told, in that very
   round, a total below the limit: before asking gate 5 for the first time, and before every boundary.
   */
  lemma {:induction false} NobodyPassesASpentPeriod(c: Config, states: seq<State>, events: seq<Event>, i: nat)
    requires c.Valid() && IsRun(c, states, events) && i < |states|
    ensures GatesFourAsked(c, states, i)
  {
    if i == 0 {
      assert states[0].tasks == [];
    } else {
      NobodyPassesASpentPeriod(c, states, events, i - 1);
      StepIsTold(c, states, events, i - 1);
    }
  }

  // ---------------------------------------------------------------------------
  // Gate 5.
  // ---------------------------------------------------------------------------

  /** A retrieval as it starts: of the asker's origin and source, and already in its host's queue. */
  predicate IsNewRetrieval(task: Task, asker: Task, t: TaskId) {
    && task.parent == Some(t) && task.source == asker.source && task.origin == asker.origin && task.path == "/robots.txt"
    && task.at.Queued? && task.departure == None
  }

  /** A verdict read less than the bound ago answers at once; or a retrieval on its way is waited for; or one is started. */
  predicate AnswersGateFive(c: Config, s: State, t: TaskId, s': State)
    requires t < |s.tasks| && t < |s'.tasks|
  {
    var task, o := s.tasks[t], s.tasks[t].origin;
    if o in s.cache && s.now - s.cache[o].fetchedAt < c.cacheBoundMs
    then s'.tasks[t].at == Deciding(Learned(s.cache[o])) && |s'.tasks| == |s.tasks|
    else if o in s.inFlight then s'.tasks[t].at == Joined(s.inFlight[o], false) && |s'.tasks| == |s.tasks|
    else && s'.tasks[t].at == Joined(|s.tasks|, true) && |s'.tasks| == |s.tasks| + 1
         && IsNewRetrieval(s'.tasks[|s.tasks|], task, t)
  }

  /**
   GATE 5: how it is answered, in every run, and that on a host that cannot bring a fresher verdict
   it is asked in no round after the first.
   */
  lemma GateFiveIsAnswered(c: Config, states: seq<State>, events: seq<Event>, i: nat)
    requires c.Valid() && IsRun(c, states, events) && i < |events| && events[i].Act?
    requires events[i].t < |states[i].tasks| && states[i].tasks[events[i].t].at.Asking?
    ensures events[i].t < |states[i + 1].tasks| && AnswersGateFive(c, states[i], events[i].t, states[i + 1])
  {
    var m := JobOf(c, states, events, i);
    AskingIsAnswered(c, states[i], events[i].t);
  }

  lemma AskingIsAnswered(c: Config, s: State, t: TaskId)
    requires t < |s.tasks| && s.tasks[t].at.Asking?
    ensures var s' := Apply(c, s, t, AtAsking(c, s, s.tasks[t])); t < |s'.tasks| && AnswersGateFive(c, s, t, s')
  {
    TasksAfter(c, s, t, AtAsking(c, s, s.tasks[t]));
  }

  lemma UnrefreshableIsAskedOnce(c: Config, states: seq<State>, events: seq<Event>, i: nat, t: TaskId)
    requires c.Valid() && IsRun(c, states, events) && i < |states| && t < |states[i].tasks|
    requires var h := states[i].tasks[t].origin.host; h in c.hosts && c.hosts[h].minDelayMs >= c.cacheBoundMs
    ensures var p := states[i].tasks[t].at; p.Asking? || p.Joined? || p.Deciding? ==> states[i].tasks[t].round <= 1
  {
    InvAlways(c, states, events, i);
    assert Shape(c, states[i].tasks[t]);
  }

  // ---------------------------------------------------------------------------
  // The verdict a request once had, on any host.
  // ---------------------------------------------------------------------------

  ghost predicate OnceAllowed(c: Config, s: State, task: Task) {
    exists e: Entry :: Reasons.Known(s, task.origin, e) && Allows(c, e.verdict, task.path)
  }

  ghost predicate QueuedAllowed(c: Config, s: State, task: Task) {
    !task.IsRobots() && task.round >= 1 ==> OnceAllowed(c, s, task)
  }

  /** The first place in the queue is taken with an allowing verdict in hand. */
  lemma FirstCallIsAllowed(c: Config, s: State, t: TaskId, choice: Choice)
    requires Enabled(c, s, t, choice) && Shape(c, s.tasks[t]) && s.tasks[t].round == 0
    requires Decide(c, s, t, choice).effect.CallsScheduler?
    ensures var task := s.tasks[t];
            task.at.Deciding? && task.at.found.Learned? && Allows(c, task.at.found.entry.verdict, task.path)
  {
  }

  lemma OnceStays(c: Config, s: State, t: TaskId, m: Move, task: Task, next: Task)
    requires Reasons.Carries(c, s, t, m) && OnceAllowed(c, s, task) && next.origin == task.origin && next.path == task.path
    ensures OnceAllowed(c, Apply(c, s, t, m), next)
  {
    var e: Entry :| Reasons.Known(s, task.origin, e) && Allows(c, e.verdict, task.path);
    Reasons.KnownStays(c, s, t, m, task.origin, e);
  }

  ghost predicate AllQueuedAllowed(c: Config, s: State) { forall t :: 0 <= t < |s.tasks| ==> QueuedAllowed(c, s, s.tasks[t]) }

  lemma AllowedAfterJob(c: Config, s: State, t: TaskId, m: Move)
    requires Reasons.Carries(c, s, t, m) && AllQueuedAllowed(c, s)
    requires !m.next.IsRobots() && m.next.round >= 1 ==> OnceAllowed(c, s, s.tasks[t])
    ensures AllQueuedAllowed(c, Apply(c, s, t, m))
  {
    var s' := Apply(c, s, t, m);
    TasksAfter(c, s, t, m);
    forall u | 0 <= u < |s'.tasks| ensures QueuedAllowed(c, s', s'.tasks[u]) {
      if u < |s.tasks| && !s'.tasks[u].IsRobots() && s'.tasks[u].round >= 1 {
        assert QueuedAllowed(c, s, s.tasks[u]);
        OnceStays(c, s, t, m, s.tasks[u], s'.tasks[u]);
      }
    }
  }

  lemma JobKeepsAllowed(c: Config, states: seq<State>, events: seq<Event>, i: nat)
    requires c.Valid() && IsRun(c, states, events) && i < |events| && events[i].Act? && AllQueuedAllowed(c, states[i])
    ensures AllQueuedAllowed(c, states[i + 1])
  {
    var m := JobOf(c, states, events, i);
    var s, t := states[i], events[i].t;
    assert AnswerOk(s, t) && Shape(c, s.tasks[t]) && QueuedAllowed(c, s, s.tasks[t]);
    if !m.next.IsRobots() && m.next.round >= 1 && s.tasks[t].round == 0 {
      FirstCallIsAllowed(c, s, t, events[i].choice);
      Reasons.RobotsAlwaysBacked(c, states, events, i);
      assert Reasons.RobotsBacked(c, s, t);
    }
    AllowedAfterJob(c, s, t, m);
  }

  lemma OutsideKeepsAllowed(c: Config, s: State, s': State)
    requires Outside(c, s, s') && AllQueuedAllowed(c, s)
    ensures AllQueuedAllowed(c, s')
  {
    forall u | 0 <= u < |s'.tasks| ensures QueuedAllowed(c, s', s'.tasks[u]) {
      if u < |s.tasks| && !s'.tasks[u].IsRobots() && s'.tasks[u].round >= 1 {
        assert QueuedAllowed(c, s, s.tasks[u]);
        var e: Entry :| Reasons.Known(s, s.tasks[u].origin, e) && Allows(c, e.verdict, s.tasks[u].path);
        assert Reasons.Known(s', s.tasks[u].origin, e);
      }
    }
  }

  lemma {:induction false} QueuedAreAllowed(c: Config, states: seq<State>, events: seq<Event>, i: nat)
    requires c.Valid() && IsRun(c, states, events) && i < |states|
    ensures AllQueuedAllowed(c, states[i])
  {
    if i == 0 {
      assert states[0].tasks == [];
    } else {
      QueuedAreAllowed(c, states, events, i - 1);
      StepKeepsAllowed(c, states, events, i - 1);
    }
  }

  lemma StepKeepsAllowed(c: Config, states: seq<State>, events: seq<Event>, i: nat)
    requires c.Valid() && IsRun(c, states, events) && i < |events| && AllQueuedAllowed(c, states[i])
    ensures AllQueuedAllowed(c, states[i + 1])
  {
    if events[i].Act? {
      JobKeepsAllowed(c, states, events, i);
    } else {
      PauseOf(c, states, events, i);
      OutsideKeepsAllowed(c, states[i], states[i + 1]);
    }
  }

  /**
   ON ANY HOST, even one that cannot bring a fresher verdict, a product request that leaves is one
   the standard allows after what some earlier robots.txt request to its origin was answered with.
   */
  lemma NothingLeavesUnasked(c: Config, states: seq<State>, events: seq<Event>, i: nat) returns (k: nat)
    requires c.Valid() && IsRun(c, states, events) && i < |events| && events[i].Act?
    requires |states[i + 1].wire| > |states[i].wire| && events[i].t < |states[i].tasks| && !states[i].tasks[events[i].t].IsRobots()
    ensures var s, task := states[i], states[i].tasks[events[i].t];
            && k < |s.wire| && s.wire[k].robots && s.wire[k].path == "/robots.txt" && s.wire[k].origin == task.origin
            && s.wire[k].answer.Some? && Gates.StandardAllows(c, s.wire[k].answer.value, task.path)
  {
    NothingLeavesUnsafely(c, states, events, i);
    InvAlways(c, states, events, i);
    QueuedAreAllowed(c, states, events, i);
    var task := states[i].tasks[events[i].t];
    assert Shape(c, task) && QueuedAllowed(c, states[i], task);
    k := AllowedByTheStandard(c, states[i], task);
  }

  lemma AllowedByTheStandard(c: Config, s: State, task: Task) returns (k: nat)
    requires OnceAllowed(c, s, task)
    ensures k < |s.wire| && s.wire[k].robots && s.wire[k].path == "/robots.txt" && s.wire[k].origin == task.origin
    ensures s.wire[k].answer.Some? && Gates.StandardAllows(c, s.wire[k].answer.value, task.path)
  {
    var e: Entry :| Reasons.Known(s, task.origin, e) && Allows(c, e.verdict, task.path);
    k := e.evidence;
  }

  // ---------------------------------------------------------------------------
  // Gate 6: whose turn it is, and what is blamed when none comes.
  // ---------------------------------------------------------------------------

  ghost predicate NoHoldRuns(s: State, h: Host) { forall j :: 0 <= j < |s.holds| && s.holds[j].host == h ==> s.holds[j].until <= s.now }

  lemma HeldIffAHoldRuns(c: Config, states: seq<State>, events: seq<Event>, i: nat, h: Host)
    requires c.Valid() && IsRun(c, states, events) && i < |states|
    ensures HostOf(states[i], h).holdUntil <= states[i].now <==> NoHoldRuns(states[i], h)
  {
    Records.HeldAsLongAsAsked(c, states, events, i, h);
    Records.TimeIsNotNegative(c, states, events, i);
  }

  /** What a release waits for, over everything released to the host and every hold on it. */
  ghost predicate MayBeReleased(s: State, h: Host, ceiling: HostCeiling, delayMs: int, offeredAt: int) {
    var released := ReleasedOf(s, h);
    && s.now >= (if released == [] then offeredAt else released[|released| - 1]) + delayMs
    && CountWithin(released, s.now - ceiling.intervalMs, s.now) < ceiling.maxRequests
    && NoHoldRuns(s, h)
  }

  lemma TurnIffEarliest(c: Config, s: State, t: TaskId, h: Host)
    requires c.Valid() && t < |s.tasks| && s.tasks[t].at.Pacing? && s.tasks[t].Host() == h && h in c.hosts && AtHead(s, t, h)
    requires GovernorPacing.HostOk(c, s, h) && (HostOf(s, h).holdUntil <= s.now <==> NoHoldRuns(s, h))
    ensures CanRelease(c, s, t, s.tasks[t]) <==>
            MayBeReleased(s, h, c.hosts[h], s.tasks[t].at.delayMs, s.tasks[t].at.offeredAt)
  {
    var p := s.tasks[t].at;
    EarliestIsLeastPermitted(HostOf(s, h), ReleasedOf(s, h), c.hosts[h], p.delayMs, p.offeredAt, s.now, s.now);
  }

  lemma PacerIsAtHead(s: State, t: TaskId, h: Host)
    requires Queues(s) && t < |s.tasks| && s.tasks[t].at.Pacing? && s.tasks[t].Host() == h
    ensures AtHead(s, t, h)
  {
    assert QueueOk(s, h);
    var j :| 0 <= j < |QueueOf(s, h)| && QueueOf(s, h)[j] == t;
    assert Waits(s, h, j);
  }

  /**
   GATE 6: whoever is in the wait loop is released exactly when the drawn delay since the last
   release, the ceiling over the full history and every hold recorded permit it; and the delay
   drawn is the least one and at most the jitter more.
   */
  lemma TurnComesIffPermitted(c: Config, states: seq<State>, events: seq<Event>, i: nat, t: TaskId)
    requires c.Valid() && IsRun(c, states, events) && i < |states| && t < |states[i].tasks| && states[i].tasks[t].at.Pacing?
    ensures states[i].tasks[t].origin.host in c.hosts
    ensures var s, h, p := states[i], states[i].tasks[t].origin.host, states[i].tasks[t].at;
            && c.hosts[h].minDelayMs <= p.delayMs <= c.hosts[h].minDelayMs + c.hosts[h].jitterMs
            && (Enabled(c, s, t, Choice.Nothing) <==> MayBeReleased(s, h, c.hosts[h], p.delayMs, p.offeredAt))
  {
    InvAlways(c, states, events, i);
    var s, h := states[i], states[i].tasks[t].Host();
    assert Shape(c, s.tasks[t]) && GovernorPacing.HostOk(c, s, h);
    PacerIsAtHead(s, t, h);
    HeldIffAHoldRuns(c, states, events, i, h);
    TurnIffEarliest(c, s, t, h);
  }

  /** The turn begins with one draw of the jitter, at the instant the head of the queue takes it up. */
  lemma TurnBeginsWithADraw(c: Config, states: seq<State>, events: seq<Event>, i: nat)
    requires c.Valid() && IsRun(c, states, events) && i < |events| && events[i].Act?
    requires events[i].t < |states[i].tasks| && states[i].tasks[events[i].t].at.Queued?
    ensures var s, t, h := states[i], events[i].t, states[i].tasks[events[i].t].origin.host;
            && QueueOf(s, h) != [] && QueueOf(s, h)[0] == t && events[i].choice.Jitter? && h in c.hosts
            && t < |states[i + 1].tasks| && states[i + 1].tasks[t].at == Pacing(c.hosts[h].minDelayMs + events[i].choice.ms, s.now)
  {
    Records.ShapedJobOf(c, states, events, i);
    TasksAfter(c, states[i], events[i].t, Decide(c, states[i], events[i].t, events[i].choice));
  }

  // ---------------------------------------------------------------------------
  // The boundary, asked twice.
  // ---------------------------------------------------------------------------

  lemma BrokenIsNotHolding(c: Config, s: State, task: Task)
    ensures Reasons.Broken(c, s, task) <==> !BoundaryHolds(c, s, task)
  {
  }

  lemma BoundaryDecidesHere(c: Config, s: State, t: TaskId, choice: Choice)
    requires Enabled(c, s, t, choice) && Shape(c, s.tasks[t]) && (s.tasks[t].at.AtBoundary? || s.tasks[t].at.Holding?)
    ensures var task, s' := s.tasks[t], Apply(c, s, t, Decide(c, s, t, choice));
            && t < |s'.tasks|
            && (task.at.AtBoundary? ==> (s'.tasks[t].at.Reserving? || s'.tasks[t].at.Holding? <==> !Reasons.Broken(c, s, task)))
            && (task.at.Holding? ==>
                  (s'.tasks[t].at.OnWire? <==> !Reasons.Broken(c, s, task) && !Paused(BreakerOf(s, task.source), s.now)))
  {
    TasksAfter(c, s, t, Decide(c, s, t, choice));
    BrokenIsNotHolding(c, s, s.tasks[t]);
  }

  ghost predicate NoPauseRuns(s: State, x: Source) {
    forall j :: 0 <= j < |s.pauses| && s.pauses[j].source == x ==> s.pauses[j].until <= s.now
  }

  /**
   THE BOUNDARY IS ASKED TWICE: a unit is reserved if and only if at that moment no retrieval has
   landed since the release, no hold runs and the verdict is in its bound where it can be; and once
   the store has answered, the request leaves if and only if that still is so and no pause runs.
   */
  lemma BoundaryDecides(c: Config, states: seq<State>, events: seq<Event>, i: nat)
    requires c.Valid() && IsRun(c, states, events) && i < |events| && events[i].Act? && events[i].t < |states[i].tasks|
    requires states[i].tasks[events[i].t].at.AtBoundary? || states[i].tasks[events[i].t].at.Holding?
    ensures events[i].t < |states[i + 1].tasks|
    ensures var s, task, p := states[i], states[i].tasks[events[i].t], states[i + 1].tasks[events[i].t].at;
            if task.at.AtBoundary? then p.Reserving? || p.Holding? <==> !Reasons.Broken(c, s, task)
            else p.OnWire? <==> !Reasons.Broken(c, s, task) && NoPauseRuns(s, task.source)
  {
    Records.ShapedJobOf(c, states, events, i);
    Records.PausedIffRecorded(c, states, events, i, states[i].tasks[events[i].t].source);
    BoundaryDecidesHere(c, states[i], events[i].t, events[i].choice);
  }

  /** Task `t` gives up in the `i`th step, after its own last round. */
  ghost predicate GivesUp(c: Config, states: seq<State>, events: seq<Event>, i: nat, t: TaskId, reason: Reason)
    requires i < |events| && i + 1 < |states|
  {
    && events[i].Act? && events[i].t == t && t < |states[i].tasks| && t < |states[i + 1].tasks|
    && !states[i].tasks[t].at.Deciding?
    && Ending(states[i + 1].tasks[t].at) == Some(Stopped(reason))
  }

  /**
   WHAT IS BLAMED: a send that gives up after its third round names a hold if and only if one runs
   on its host at that moment.
   */
  lemma BoundaryNamesTheHold(c: Config, states: seq<State>, events: seq<Event>, i: nat, t: TaskId, reason: Reason)
    requires c.Valid() && IsRun(c, states, events) && i < |events| && GivesUp(c, states, events, i, t, reason)
    requires reason.HostHeld? || reason.RobotsStale?
    ensures states[i].tasks[t].round == 3
    ensures reason.RobotsStale? <==> NoHoldRuns(states[i], states[i].tasks[t].origin.host)
  {
    OutcomesAlways(c, states, events, i);
    var m := HonestJobOf(c, states, events, i);
    TasksAfter(c, states[i], t, m);
    assert Shape(c, states[i].tasks[t]);
    HeldIffAHoldRuns(c, states, events, i, states[i].tasks[t].Host());
    EndsOutOfRounds(c, states[i], states[i].tasks[t], m, reason);
  }

  lemma EndsOutOfRounds(c: Config, s: State, task: Task, m: Move, reason: Reason)
    requires EndsHonestly(c, s, task, m) && Ending(m.next.at) == Some(Stopped(reason)) && !task.at.Deciding?
    requires reason.HostHeld? || reason.RobotsStale?
    ensures task.round == 3 && (reason.RobotsStale? <==> HostOf(s, task.Host()).holdUntil <= s.now)
  {
  }
}
