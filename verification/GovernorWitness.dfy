/**
 Runs that exist: what the promises leave open does happen. Two of them show a request
 refused for a reason that was never true of its own source; the last part builds, for
 any source and host and one unit at a time, runs that spend whatever an allowance
 leaves, for the failing half of the daily check. Each lemma is one job or a few, and
 says what it leaves behind.
 */
module GovernorWitness {
  import opened Prelude
  import opened HostScheduling
  import opened CircuitBreaker
  import opened Governor
  import GovernorTables
  import Stores = AllowanceStores

  /** A run that ends in `last`. */
  ghost predicate RunTo(c: Config, states: seq<State>, events: seq<Event>, last: State) {
    IsRun(c, states, events) && states[|states| - 1] == last
  }

  /** A run that ends in `s`, throughout which source `b` was never paused. */
  ghost predicate Reachable(c: Config, s: State, b: Source) {
    exists states: seq<State>, events: seq<Event> :: RunTo(c, states, events, s) && NeverPaused(states, b)
  }

  ghost predicate NeverPaused(states: seq<State>, b: Source) {
    forall j :: 0 <= j < |states| ==> !Paused(BreakerOf(states[j], b), states[j].now)
  }

  const START := State(0, map[], map[], map[], map[], map[], map[], map[], [],
                       map[], map[], map[], [], [], map[], multiset{}, [], [])

  lemma StartIsReachable(c: Config, b: Source)
    ensures Reachable(c, START, b)
  {
    assert RunTo(c, [START], [], START);
  }

  lemma Goes(c: Config, s: State, e: Event, s': State, b: Source)
    requires Reachable(c, s, b) && Step(c, s, e, s') && !Paused(BreakerOf(s', b), s'.now)
    ensures Reachable(c, s', b)
  {
    var states, events :| RunTo(c, states, events, s) && NeverPaused(states, b);
    var states', events' := states + [s'], events + [e];
    forall i | 0 <= i < |events'| ensures Step(c, states'[i], events'[i], states'[i + 1]) {
      if i < |events| {
        assert Step(c, states[i], events[i], states[i + 1]);
      }
    }
    assert RunTo(c, states', events', s');
  }

  /** Task `t` makes the move its job decides. */
  lemma Does(c: Config, s: State, t: TaskId, choice: Choice, m: Move, b: Source)
    requires Reachable(c, s, b) && Enabled(c, s, t, choice) && Decide(c, s, t, choice) == m
    requires !Paused(BreakerOf(Apply(c, s, t, m), b), s.now)
    ensures Reachable(c, Apply(c, s, t, m), b)
  {
    Goes(c, s, Act(t, choice), Apply(c, s, t, m), b);
  }

  // ---------------------------------------------------------------------------
  // A request refused for another source's pause.
  //
  // Source `a` asks for two origins, on two hosts, and source `b` for the first of
  // them, joining a's retrieval. The second retrieval fails, which pauses `a`; so
  // the first is refused, and `b`'s request with it.
  // ---------------------------------------------------------------------------

  datatype Names = Names(a: Source, b: Source, h1: Host, h2: Host)
  {
    predicate Differ() { a != b && h1 != h2 }
    function O1(): Origin { Origin([], h1) }
    function O2(): Origin { Origin([], h2) }
  }

  const PACE := HostCeiling(1, 1, 1, 1)

  function World(n: Names): Config {
    Config(map[n.h1 := PACE, n.h2 := PACE], map[n.a := SourceSettings(None, None), n.b := SourceSettings(None, None)],
           BreakerSettings(1000, 1, 1.0, 1000), 10, [])
  }

  function Asks(source: Source, origin: Origin, asked: bool, at: Point): Task {
    Task(source, origin, [], None, 0, 0, asked, None, None, at)
  }

  function Fetches(source: Source, origin: Origin, parent: TaskId, departure: Option<nat>, at: Point): Task {
    Task(source, origin, "/robots.txt", Some(parent), 1, 0, false, None, departure, at)
  }

  /** Requests 0 and 2 are a's, for the two origins; request 1 is b's; 3 and 4 are the retrievals of 0 and 2. */
  ghost predicate Cast(n: Names, s: State, waiter: Point, first: Point, second: Point, departure: Option<nat>) {
    && |s.tasks| == 5
    && s.tasks[1] == Asks(n.b, n.O1(), true, waiter)
    && s.tasks[3] == Fetches(n.a, n.O1(), 0, None, first)
    && s.tasks[4] == Fetches(n.a, n.O2(), 2, departure, second)
  }

  ghost predicate Board(n: Names, s: State, now: int, first: bool, second: bool, paused: bool) {
    && s.now == now
    && QueueOf(s, n.h1) == (if first then [3] else []) && QueueOf(s, n.h2) == (if second then [4] else [])
    && (first ==> HostOf(s, n.h1) == FRESH_HOST) && (second ==> HostOf(s, n.h2) == FRESH_HOST)
    && HostOf(s, n.h2).holdUntil == 0 && LandedOf(s, n.O2()) == 0 && LandedOf(s, n.O1()) == 0
    && BreakerOf(s, n.b) == FRESH_SOURCE
    && (if paused then Paused(BreakerOf(s, n.a), now) else BreakerOf(s, n.a) == FRESH_SOURCE)
  }

  ghost predicate Fresh(n: Names, s: State) {
    && s.now == 0 && s.cache == map[] && s.inFlight == map[] && s.hosts == map[] && s.queues == map[] && s.landed == map[]
    && BreakerOf(s, n.a) == FRESH_SOURCE && BreakerOf(s, n.b) == FRESH_SOURCE
  }

  lemma OneArrives(n: Names, s: State, source: Source, origin: Origin) returns (s': State)
    requires n.Differ() && Reachable(World(n), s, n.b) && Fresh(n, s)
    requires (source == n.a || source == n.b) && (origin == n.O1() || origin == n.O2())
    ensures Reachable(World(n), s', n.b) && Fresh(n, s') && s'.tasks == s.tasks + [Asks(source, origin, false, Asking)]
  {
    var m := Entering(World(n), s, source, origin, []);
    s' := Arrived(s, m);
    Goes(World(n), s, Arrive(source, origin, []), s', n.b);
  }

  lemma AllArrive(n: Names) returns (s: State)
    requires n.Differ()
    ensures Reachable(World(n), s, n.b) && Fresh(n, s)
    ensures s.tasks == [Asks(n.a, n.O1(), false, Asking), Asks(n.b, n.O1(), false, Asking), Asks(n.a, n.O2(), false, Asking)]
  {
    StartIsReachable(World(n), n.b);
    var s1 := OneArrives(n, START, n.a, n.O1());
    var s2 := OneArrives(n, s1, n.b, n.O1());
    s := OneArrives(n, s2, n.a, n.O2());
  }

  /** The first request has started its retrieval. */
  ghost predicate FirstAsked(n: Names, s: State, waiter: Task) {
    && s.now == 0 && s.cache == map[] && s.inFlight == map[n.O1() := 3] && s.hosts == map[] && s.landed == map[]
    && QueueOf(s, n.h1) == [3] && QueueOf(s, n.h2) == []
    && BreakerOf(s, n.a) == FRESH_SOURCE && BreakerOf(s, n.b) == FRESH_SOURCE
    && |s.tasks| == 4 && s.tasks[1] == waiter && s.tasks[2] == Asks(n.a, n.O2(), false, Asking)
    && s.tasks[3] == Fetches(n.a, n.O1(), 0, None, Queued)
  }

  lemma FirstAsks(n: Names) returns (s: State)
    requires n.Differ()
    ensures Reachable(World(n), s, n.b) && FirstAsked(n, s, Asks(n.b, n.O1(), false, Asking))
  {
    var c := World(n);
    var s0 := AllArrive(n);
    var m := AtAsking(c, s0, s0.tasks[0]);
    Does(c, s0, 0, Choice.Nothing, m, n.b);
    s := Apply(c, s0, 0, m);
    GovernorTables.TasksAfter(c, s0, 0, m);
  }

  lemma SecondJoins(n: Names) returns (s: State)
    requires n.Differ()
    ensures Reachable(World(n), s, n.b) && FirstAsked(n, s, Asks(n.b, n.O1(), true, Joined(3, false)))
  {
    var c := World(n);
    var s0 := FirstAsks(n);
    var m := AtAsking(c, s0, s0.tasks[1]);
    Does(c, s0, 1, Choice.Nothing, m, n.b);
    s := Apply(c, s0, 1, m);
    GovernorTables.TasksAfter(c, s0, 1, m);
  }

  lemma ThirdAsks(n: Names) returns (s: State)
    requires n.Differ()
    ensures Reachable(World(n), s, n.b)
    ensures Cast(n, s, Joined(3, false), Queued, Queued, None) && Board(n, s, 0, true, true, false)
  {
    var c := World(n);
    var s0 := SecondJoins(n);
    var m := AtAsking(c, s0, s0.tasks[2]);
    Does(c, s0, 2, Choice.Nothing, m, n.b);
    s := Apply(c, s0, 2, m);
    GovernorTables.TasksAfter(c, s0, 2, m);
  }

  /** Both retrievals begin their turns, and a millisecond passes. */
  lemma BothPace(n: Names) returns (s: State)
    requires n.Differ()
    ensures Reachable(World(n), s, n.b)
    ensures Cast(n, s, Joined(3, false), Pacing(1, 0), Pacing(1, 0), None) && Board(n, s, 1, true, true, false)
  {
    var c := World(n);
    var s0 := ThirdAsks(n);
    var m0 := AtQueued(c, s0, s0.tasks[3], 0);
    Does(c, s0, 3, Jitter(0), m0, n.b);
    var s1 := Apply(c, s0, 3, m0);
    GovernorTables.TasksAfter(c, s0, 3, m0);
    var m1 := AtQueued(c, s1, s1.tasks[4], 0);
    Does(c, s1, 4, Jitter(0), m1, n.b);
    var s2 := Apply(c, s1, 4, m1);
    GovernorTables.TasksAfter(c, s1, 4, m1);
    s := s2.(now := 1);
    Goes(c, s2, Tick(1), s, n.b);
  }

  lemma SecondIsReleased(n: Names) returns (s: State)
    requires n.Differ()
    ensures Reachable(World(n), s, n.b)
    ensures Cast(n, s, Joined(3, false), Pacing(1, 0), Point.Granted, None) && Board(n, s, 1, true, false, false)
  {
    var c := World(n);
    var s0 := BothPace(n);
    var m := AtPacing(s0.tasks[4]);
    assert CanRelease(c, s0, 4, s0.tasks[4]);
    Does(c, s0, 4, Choice.Nothing, m, n.b);
    s := Apply(c, s0, 4, m);
    GovernorTables.TasksAfter(c, s0, 4, m);
  }

  lemma SecondPassesItsGates(n: Names) returns (s: State)
    requires n.Differ()
    ensures Reachable(World(n), s, n.b)
    ensures Cast(n, s, Joined(3, false), Pacing(1, 0), AtBoundary, None) && Board(n, s, 1, true, false, false)
  {
    var c := World(n);
    var s0 := SecondIsReleased(n);
    var m := AtGranted(c, s0, s0.tasks[4]);
    Does(c, s0, 4, Choice.Nothing, m, n.b);
    s := Apply(c, s0, 4, m);
    GovernorTables.TasksAfter(c, s0, 4, m);
  }

  lemma SecondIsReady(n: Names) returns (s: State)
    requires n.Differ()
    ensures Reachable(World(n), s, n.b)
    ensures Cast(n, s, Joined(3, false), Pacing(1, 0), Holding(None), None) && Board(n, s, 1, true, false, false)
  {
    var c := World(n);
    var s0 := SecondPassesItsGates(n);
    var m := AtTheBoundary(c, s0, s0.tasks[4]);
    Does(c, s0, 4, Choice.Nothing, m, n.b);
    s := Apply(c, s0, 4, m);
    GovernorTables.TasksAfter(c, s0, 4, m);
  }

  lemma SecondLeaves(n: Names) returns (s: State, departure: Option<nat>)
    requires n.Differ()
    ensures Reachable(World(n), s, n.b)
    ensures Cast(n, s, Joined(3, false), Pacing(1, 0), OnWire(None), departure) && Board(n, s, 1, true, false, false)
  {
    var c := World(n);
    var s0 := SecondIsReady(n);
    var m := AtHolding(c, s0, s0.tasks[4]);
    Does(c, s0, 4, Choice.Nothing, m, n.b);
    s, departure := Apply(c, s0, 4, m), m.next.departure;
    GovernorTables.TasksAfter(c, s0, 4, m);
  }

  lemma SecondFails(n: Names) returns (s: State, departure: Option<nat>)
    requires n.Differ()
    ensures Reachable(World(n), s, n.b)
    ensures Cast(n, s, Joined(3, false), Pacing(1, 0), Point.Settled(None, NetworkFailure), departure) && Board(n, s, 1, true, false, false)
  {
    var c := World(n);
    var s0;
    s0, departure := SecondLeaves(n);
    var m := AtOnWire(c, s0, s0.tasks[4], NetworkFailure);
    Does(c, s0, 4, Answered(NetworkFailure), m, n.b);
    s := Apply(c, s0, 4, m);
    GovernorTables.TasksAfter(c, s0, 4, m);
  }

  /** One failure out of one is enough to pause `a`. */
  lemma FailurePauses(now: int)
    ensures var settings := BreakerSettings(1000, 1, 1.0, 1000);
            Announces(FRESH_SOURCE, settings, now, Failure) == (now >= 0) &&
            (now >= 0 ==> AfterRecord(FRESH_SOURCE, settings, now, Failure).pausedUntil == now + 1000)
  {
    var added := FRESH_SOURCE.outcomes + [CircuitBreaker.Outcome(now, Failure)];
    assert added == [CircuitBreaker.Outcome(now, Failure)];
    assert Since(added, 0, now - 1000) == [] && Since(added, 1, now - 1000) == added;
    assert Failures(added, 0) == 0 && Failures(added, 1) == 1;
  }

  lemma SecondPausesItsSource(n: Names) returns (s: State, departure: Option<nat>, result: SendResult)
    requires n.Differ()
    ensures Reachable(World(n), s, n.b)
    ensures Cast(n, s, Joined(3, false), Pacing(1, 0), PauseNoticing(result), departure) && Board(n, s, 1, true, false, true)
  {
    var c := World(n);
    var s0;
    s0, departure := SecondFails(n);
    FailurePauses(1);
    var m := AtSettled(c, s0, s0.tasks[4]);
    result := Left(NetworkFailure);
    Does(c, s0, 4, Choice.Nothing, m, n.b);
    s := Apply(c, s0, 4, m);
    GovernorTables.TasksAfter(c, s0, 4, m);
  }

  lemma FirstIsReleased(n: Names) returns (s: State, departure: Option<nat>, result: SendResult)
    requires n.Differ()
    ensures Reachable(World(n), s, n.b)
    ensures Cast(n, s, Joined(3, false), Point.Granted, PauseNoticing(result), departure) && Board(n, s, 1, false, false, true)
  {
    var c := World(n);
    var s0;
    s0, departure, result := SecondPausesItsSource(n);
    var m := AtPacing(s0.tasks[3]);
    assert CanRelease(c, s0, 3, s0.tasks[3]);
    Does(c, s0, 3, Choice.Nothing, m, n.b);
    s := Apply(c, s0, 3, m);
    GovernorTables.TasksAfter(c, s0, 3, m);
  }

  lemma FirstIsRefused(n: Names) returns (s: State, departure: Option<nat>, result: SendResult)
    requires n.Differ()
    ensures Reachable(World(n), s, n.b)
    ensures Cast(n, s, Joined(3, false), Landing(Stopped(SourcePaused)), PauseNoticing(result), departure)
    ensures Board(n, s, 1, false, false, true)
  {
    var c := World(n);
    var s0;
    s0, departure, result := FirstIsReleased(n);
    var m := AtGranted(c, s0, s0.tasks[3]);
    Does(c, s0, 3, Choice.Nothing, m, n.b);
    s := Apply(c, s0, 3, m);
    GovernorTables.TasksAfter(c, s0, 3, m);
  }

  lemma FirstLands(n: Names) returns (s: State, departure: Option<nat>, result: SendResult)
    requires n.Differ()
    ensures Reachable(World(n), s, n.b) && BreakerOf(s, n.b) == FRESH_SOURCE
    ensures Cast(n, s, Joined(3, false), Landed(Declined(SourcePaused)), PauseNoticing(result), departure)
  {
    var c := World(n);
    var s0;
    s0, departure, result := FirstIsRefused(n);
    var m := AtLanding(s0, s0.tasks[3]);
    Does(c, s0, 3, Choice.Nothing, m, n.b);
    s := Apply(c, s0, 3, m);
    GovernorTables.TasksAfter(c, s0, 3, m);
  }

  lemma WaiterHears(n: Names) returns (s: State, departure: Option<nat>, result: SendResult)
    requires n.Differ()
    ensures Reachable(World(n), s, n.b) && BreakerOf(s, n.b) == FRESH_SOURCE
    ensures Cast(n, s, Deciding(Declined(SourcePaused)), Landed(Declined(SourcePaused)), PauseNoticing(result), departure)
  {
    var c := World(n);
    var s0;
    s0, departure, result := FirstLands(n);
    var m := AtJoined(s0, s0.tasks[1]);
    Does(c, s0, 1, Choice.Nothing, m, n.b);
    s := Apply(c, s0, 1, m);
    GovernorTables.TasksAfter(c, s0, 1, m);
  }

  /** It does happen: `b`'s request is refused for a pause, in a run in which `b` was never paused. */
  lemma RefusedForAnothersPause(n: Names) returns (s: State)
    requires n.Differ()
    ensures World(n).Valid() && Reachable(World(n), s, n.b)
    ensures |s.tasks| > 1 && s.tasks[1].source == n.b && s.tasks[1].at == Done(Refused(SourcePaused))
  {
    var c := World(n);
    var s0, departure, result := WaiterHears(n);
    var m := AtDeciding(c, s0, s0.tasks[1]);
    Does(c, s0, 1, Choice.Nothing, m, n.b);
    s := Apply(c, s0, 1, m);
    GovernorTables.TasksAfter(c, s0, 1, m);
  }

  // ---------------------------------------------------------------------------
  // A metered request and its retrieval, one part of the way at a time.
  // ---------------------------------------------------------------------------

  /** Everything but the tasks, and what their steps leave to history, stands as it did. */
  ghost predicate SameBoard(s: State, s': State) {
    && s'.cache == s.cache && s'.landed == s.landed && s'.rows == s.rows && s'.wire == s.wire && s'.grants == s.grants
    && forall x :: BreakerOf(s', x) == BreakerOf(s, x)
  }

  ghost predicate SameQueues(s: State, s': State) {
    s'.now == s.now && s'.hosts == s.hosts && s'.queues == s.queues && s'.inFlight == s.inFlight
  }

  ghost predicate SameTasksBut(s: State, s': State, t: TaskId) {
    && |s'.tasks| >= |s.tasks|
    && forall u :: 0 <= u < |s.tasks| && u != t ==> s'.tasks[u] == s.tasks[u]
  }

  function KeyNow(c: Config, source: Source, now: int): Stores.Key
    requires c.Metered(source)
  {
    Stores.Key(source, PeriodStart(now, c.Allowance(source).periodMs))
  }

  /** A move that changes nothing but its task. */
  lemma Stays(c: Config, s: State, t: TaskId, choice: Choice, at: Point, b: Source) returns (s': State)
    requires Reachable(c, s, b) && Enabled(c, s, t, choice) && !Paused(BreakerOf(s, b), s.now)
    requires Decide(c, s, t, choice) == Stay(s.tasks[t], at)
    ensures Reachable(c, s', b) && SameBoard(s, s') && SameQueues(s, s') && SameTasksBut(s, s', t)
    ensures |s'.tasks| == |s.tasks| && s'.tasks[t] == s.tasks[t].(at := at)
  {
    var m := Stay(s.tasks[t], at);
    Does(c, s, t, choice, m, b);
    s' := Apply(c, s, t, m);
    GovernorTables.TasksAfter(c, s, t, m);
  }

  /** A request of a metered source arrives, with something left of its allowance. */
  lemma MeteredArrives(c: Config, s: State, source: Source, origin: Origin, b: Source) returns (s': State)
    requires c.Valid() && c.Metered(source) && origin.host in c.hosts && s.now >= 0
    requires Reachable(c, s, b) && BreakerOf(s, source) == FRESH_SOURCE && !Paused(BreakerOf(s, b), s.now)
    ensures Reachable(c, s', b) && SameBoard(s, s') && SameQueues(s, s')
    ensures s'.tasks == s.tasks + [Asks(source, origin, false, Reading(KeyNow(c, source, s.now).periodStart))]
  {
    var m := Entering(c, s, source, origin, []);
    s' := Arrived(s, m);
    Goes(c, s, Arrive(source, origin, []), s', b);
  }

  /** It passes its check. */
  lemma CheckPasses(c: Config, s: State, t: TaskId, b: Source) returns (s': State)
    requires t < |s.tasks| && s.tasks[t].at.Reading? && c.Metered(s.tasks[t].source)
    requires Stores.View(s.rows, KeyAt(s.tasks[t], s.tasks[t].at.period)).consumed < c.Allowance(s.tasks[t].source).limit
    requires Reachable(c, s, b) && !Paused(BreakerOf(s, b), s.now)
    ensures Reachable(c, s', b) && SameBoard(s, s') && SameQueues(s, s') && SameTasksBut(s, s', t)
    ensures |s'.tasks| == |s.tasks| && s'.tasks[t] == s.tasks[t].(at := AfterCheck(s.tasks[t]))
  {
    var period := s.tasks[t].at.period;
    var s1 := Stays(c, s, t, Choice.Nothing, Checked(period, Stores.View(s.rows, KeyAt(s.tasks[t], period)).consumed), b);
    s' := Stays(c, s1, t, Choice.Nothing, AfterCheck(s.tasks[t]), b);
  }

  /** It starts a retrieval. */
  lemma RetrievalStarts(c: Config, s: State, t: TaskId, b: Source) returns (s': State)
    requires t < |s.tasks| && s.tasks[t].at == Asking && s.tasks[t].origin !in s.cache && s.tasks[t].origin !in s.inFlight
    requires Reachable(c, s, b) && !Paused(BreakerOf(s, b), s.now)
    ensures Reachable(c, s', b) && SameBoard(s, s') && SameTasksBut(s, s', t) && s'.now == s.now && s'.hosts == s.hosts
    ensures s'.inFlight == s.inFlight[s.tasks[t].origin := |s.tasks|]
    ensures forall h :: QueueOf(s', h) == if h == s.tasks[t].Host() then QueueOf(s, h) + [|s.tasks|] else QueueOf(s, h)
    ensures |s'.tasks| == |s.tasks| + 1
    ensures s'.tasks[|s.tasks|] == Fetches(s.tasks[t].source, s.tasks[t].origin, t, None, Queued)
  {
    var m := AtAsking(c, s, s.tasks[t]);
    Does(c, s, t, Choice.Nothing, m, b);
    s' := Apply(c, s, t, m);
    GovernorTables.TasksAfter(c, s, t, m);
  }

  /** A retrieval alone in its host's queue begins its turn, and so long passes. */
  lemma TurnBegins(c: Config, s: State, r: TaskId, ms: nat, b: Source) returns (s': State)
    requires r < |s.tasks| && s.tasks[r].at == Queued && s.tasks[r].Host() in c.hosts && AtHead(s, r, s.tasks[r].Host())
    requires c.hosts[s.tasks[r].Host()] == PACE
    requires Reachable(c, s, b) && BreakerOf(s, b) == FRESH_SOURCE && s.now >= 0
    ensures Reachable(c, s', b) && SameBoard(s, s') && SameTasksBut(s, s', r)
    ensures s'.now == s.now + ms && s'.hosts == s.hosts && s'.queues == s.queues && s'.inFlight == s.inFlight
    ensures |s'.tasks| == |s.tasks| && s'.tasks[r] == s.tasks[r].(at := Pacing(1, s.now))
  {
    var s1 := Stays(c, s, r, Jitter(0), Pacing(1, s.now), b);
    s' := s1.(now := s1.now + ms);
    Goes(c, s1, Tick(ms), s', b);
  }

  /** A host that released nothing, or nothing within the last millisecond, with no hold. */
  predicate Rested(st: HostState, now: int) {
    st == FRESH_HOST || (st.lastRelease.Some? && st.lastRelease.value < now && st == HostState([st.lastRelease.value], st.lastRelease, 0))
  }

  lemma RestedReleases(st: HostState, offeredAt: int, now: int)
    requires Rested(st, now) && now >= 0 && (st == FRESH_HOST ==> offeredAt < now)
    ensures Earliest(st, PACE, 1, offeredAt, now) <= now
    ensures HostScheduling.Granted(st, PACE, now) == HostState([now], Some(now), 0)
  {
    var bound := now - 1;
    if st != FRESH_HOST {
      var last := st.lastRelease.value;
      assert AfterAmong([last], 0, bound) == [] && AfterAmong([last], 1, bound) == [];
      assert [last] + [now] == [last, now];
      assert AfterAmong([last, now], 0, bound) == [] && AfterAmong([last, now], 1, bound) == [];
      assert AfterAmong([last, now], 2, bound) == [now];
    } else {
      assert [] + [now] == [now];
      assert AfterAmong([now], 0, bound) == [] && AfterAmong([now], 1, bound) == [now];
    }
  }

  /** It is released, and the host has then released at this instant. */
  lemma TurnEnds(c: Config, s: State, r: TaskId, b: Source) returns (s': State)
    requires r < |s.tasks| && s.tasks[r].at.Pacing? && s.tasks[r].at.delayMs == 1 && QueueOf(s, s.tasks[r].Host()) == [r]
    requires s.tasks[r].Host() in c.hosts && c.hosts[s.tasks[r].Host()] == PACE && s.now >= 0
    requires Rested(HostOf(s, s.tasks[r].Host()), s.now)
    requires HostOf(s, s.tasks[r].Host()) == FRESH_HOST ==> s.tasks[r].at.offeredAt < s.now
    requires Reachable(c, s, b) && !Paused(BreakerOf(s, b), s.now)
    ensures Reachable(c, s', b) && SameBoard(s, s') && SameTasksBut(s, s', r) && s'.now == s.now && s'.inFlight == s.inFlight
    ensures forall h :: QueueOf(s', h) == if h == s.tasks[r].Host() then [] else QueueOf(s, h)
    ensures forall h :: HostOf(s', h) == if h == s.tasks[r].Host() then HostState([s.now], Some(s.now), 0) else HostOf(s, h)
    ensures |s'.tasks| == |s.tasks| && s'.tasks[r] == s.tasks[r].(at := Point.Granted)
  {
    RestedReleases(HostOf(s, s.tasks[r].Host()), s.tasks[r].at.offeredAt, s.now);
    assert CanRelease(c, s, r, s.tasks[r]);
    var m := AtPacing(s.tasks[r]);
    Does(c, s, r, Choice.Nothing, m, b);
    s' := Apply(c, s, r, m);
    GovernorTables.TasksAfter(c, s, r, m);
  }

  /** A released retrieval asks gate 3 again, and turns to its check. */
  lemma AsksAgain(c: Config, s: State, r: TaskId, b: Source) returns (s': State)
    requires c.Valid() && r < |s.tasks| && s.tasks[r].at == Point.Granted && s.tasks[r].IsRobots() && c.Metered(s.tasks[r].source)
    requires BreakerOf(s, s.tasks[r].source) == FRESH_SOURCE && LandedOf(s, s.tasks[r].origin) == 0 && s.now >= 0
    requires Reachable(c, s, b) && !Paused(BreakerOf(s, b), s.now)
    ensures Reachable(c, s', b) && SameBoard(s, s') && SameQueues(s, s') && SameTasksBut(s, s', r) && |s'.tasks| == |s.tasks|
    ensures s'.tasks[r] == s.tasks[r].(landedBefore := 0, at := Reading(KeyNow(c, s.tasks[r].source, s.now).periodStart))
  {
    var m := AtGranted(c, s, s.tasks[r]);
    Does(c, s, r, Choice.Nothing, m, b);
    s' := Apply(c, s, r, m);
    GovernorTables.TasksAfter(c, s, r, m);
  }

  /** With nothing landed and no hold, the boundary holds, and it turns to the reservation. */
  lemma BoundaryPasses(c: Config, s: State, r: TaskId, b: Source) returns (s': State)
    requires c.Valid() && r < |s.tasks| && s.tasks[r].at == AtBoundary && s.tasks[r].IsRobots() && c.Metered(s.tasks[r].source)
    requires LandedOf(s, s.tasks[r].origin) == s.tasks[r].landedBefore && HostOf(s, s.tasks[r].Host()).holdUntil <= s.now
    requires Reachable(c, s, b) && !Paused(BreakerOf(s, b), s.now)
    ensures Reachable(c, s', b) && SameBoard(s, s') && SameQueues(s, s') && SameTasksBut(s, s', r) && |s'.tasks| == |s.tasks|
    ensures s'.tasks[r] == s.tasks[r].(at := Reserving(KeyNow(c, s.tasks[r].source, s.now).periodStart))
  {
    s' := Stays(c, s, r, Choice.Nothing, Reserving(KeyNow(c, s.tasks[r].source, s.now).periodStart), b);
  }

  /** It passes its check too, and turns to the reservation. */
  lemma TurnsToReserve(c: Config, s: State, r: TaskId, b: Source) returns (s': State)
    requires c.Valid() && r < |s.tasks| && s.tasks[r].at == Point.Granted && s.tasks[r].IsRobots() && s.tasks[r].round > 0
    requires c.Metered(s.tasks[r].source) && BreakerOf(s, s.tasks[r].source) == FRESH_SOURCE
    requires Stores.View(s.rows, KeyNow(c, s.tasks[r].source, s.now)).consumed < c.Allowance(s.tasks[r].source).limit
    requires LandedOf(s, s.tasks[r].origin) == 0 && HostOf(s, s.tasks[r].Host()).holdUntil <= s.now && s.now >= 0
    requires Reachable(c, s, b) && !Paused(BreakerOf(s, b), s.now)
    ensures Reachable(c, s', b) && SameBoard(s, s') && SameQueues(s, s') && SameTasksBut(s, s', r) && |s'.tasks| == |s.tasks|
    ensures s'.tasks[r] == s.tasks[r].(landedBefore := 0, at := Reserving(KeyNow(c, s.tasks[r].source, s.now).periodStart))
  {
    var s1 := AsksAgain(c, s, r, b);
    var s2 := CheckPasses(c, s1, r, b);
    s' := BoundaryPasses(c, s2, r, b);
  }

  /** What taking a unit of `key`, and no other statement, does to the totals. */
  ghost predicate OneMore(before: Stores.Rows, after: Stores.Rows, key: Stores.Key) {
    forall k :: Stores.View(after, k).consumed == Stores.View(before, k).consumed + if k == key then 1 else 0
  }

  /** It takes a unit. */
  lemma TakesUnit(c: Config, s: State, r: TaskId, b: Source) returns (s': State)
    requires c.Valid() && r < |s.tasks| && s.tasks[r].at.Reserving? && c.Metered(s.tasks[r].source)
    requires Stores.View(s.rows, KeyAt(s.tasks[r], s.tasks[r].at.period)).consumed < c.Allowance(s.tasks[r].source).limit
    requires Reachable(c, s, b) && !Paused(BreakerOf(s, b), s.now)
    ensures Reachable(c, s', b) && SameQueues(s, s') && SameTasksBut(s, s', r) && |s'.tasks| == |s.tasks|
    ensures s'.cache == s.cache && s'.landed == s.landed && s'.wire == s.wire && s'.breakers == s.breakers
    ensures OneMore(s.rows, s'.rows, KeyAt(s.tasks[r], s.tasks[r].at.period))
    ensures |s'.grants| == |s.grants| + 1 && s'.grants[|s.grants|].key == KeyAt(s.tasks[r], s.tasks[r].at.period)
    ensures s'.tasks[r] == s.tasks[r].(at := Holding(Some(|s.grants|)))
  {
    var m := AtReserving(c, s, s.tasks[r]);
    Does(c, s, r, Choice.Nothing, m, b);
    s' := Apply(c, s, r, m);
    GovernorTables.TasksAfter(c, s, r, m);
  }

  /** And leaves. */
  lemma Leaves(c: Config, s: State, r: TaskId, unit: nat, b: Source) returns (s': State)
    requires r < |s.tasks| && s.tasks[r].at == Holding(Some(unit)) && unit < |s.grants| && s.tasks[r].IsRobots()
    requires BreakerOf(s, s.tasks[r].source) == FRESH_SOURCE && s.tasks[r].landedBefore == LandedOf(s, s.tasks[r].origin)
    requires HostOf(s, s.tasks[r].Host()).holdUntil <= s.now && s.now >= 0
    requires Reachable(c, s, b) && !Paused(BreakerOf(s, b), s.now)
    ensures Reachable(c, s', b) && SameQueues(s, s') && SameTasksBut(s, s', r) && |s'.tasks| == |s.tasks|
    ensures s'.cache == s.cache && s'.landed == s.landed && s'.rows == s.rows && forall x :: BreakerOf(s', x) == BreakerOf(s, x)
    ensures |s'.wire| == |s.wire| + 1 && s'.wire[..|s.wire|] == s.wire
    ensures s'.wire[|s.wire|].key == Some(s.grants[unit].key) && s'.wire[|s.wire|].at == s.now
    ensures s'.wire[|s.wire|].source == s.tasks[r].source
  {
    var m := AtHolding(c, s, s.tasks[r]);
    Does(c, s, r, Choice.Nothing, m, b);
    s' := Apply(c, s, r, m);
    GovernorTables.TasksAfter(c, s, r, m);
  }

  // ---------------------------------------------------------------------------
  // One unit after another.
  // ---------------------------------------------------------------------------

  /** A host that has released nothing yet, or last released by `now`, with no hold. */
  predicate RestsSince(st: HostState, now: int) { Rested(st, now + 1) }

  /** Nothing is on its way to the wire for that source and host, nothing has landed, and names are left for new origins. */
  ghost predicate Idle(c: Config, s: State, source: Source, h: Host) {
    && c.Valid() && c.Metered(source) && h in c.hosts && c.hosts[h] == PACE && s.now >= 0
    && Reachable(c, s, source) && BreakerOf(s, source) == FRESH_SOURCE
    && QueueOf(s, h) == [] && RestsSince(HostOf(s, h), s.now)
    && s.cache == map[] && s.landed == map[]
    && forall o :: o in s.inFlight ==> |o.scheme| < |s.tasks|
  }

  function Name(n: nat): string { seq(n, _ => 'x') }

  predicate IsRetrieval(task: Task, source: Source, h: Host, at: Point) {
    task.IsRobots() && task.round == 1 && task.source == source && task.Host() == h && task.at == at
  }

  lemma TimePasses(c: Config, s: State, source: Source, h: Host, ms: nat) returns (s': State)
    requires Idle(c, s, source, h)
    ensures Idle(c, s', source, h) && SameBoard(s, s') && s'.hosts == s.hosts && s'.now == s.now + ms
    ensures ms >= 1 ==> Rested(HostOf(s', h), s'.now)
  {
    s' := Ticked(c, s, ms, source);
    assert RestsSince(HostOf(s, h), s.now) ==> RestsSince(HostOf(s', h), s'.now);
  }

  lemma Ticked(c: Config, s: State, ms: nat, b: Source) returns (s': State)
    requires Reachable(c, s, b) && BreakerOf(s, b) == FRESH_SOURCE && s.now >= 0
    ensures Reachable(c, s', b) && SameBoard(s, s') && s'.tasks == s.tasks
    ensures s'.now == s.now + ms && s'.hosts == s.hosts && s'.queues == s.queues && s'.inFlight == s.inFlight
  {
    s' := s.(now := s.now + ms);
    Goes(c, s, Tick(ms), s', b);
  }

  /** A request for an origin never asked for passes its check. */
  lemma RequestArrives(c: Config, s: State, source: Source, h: Host) returns (s': State)
    requires Idle(c, s, source, h)
    requires Stores.View(s.rows, KeyNow(c, source, s.now)).consumed < c.Allowance(source).limit
    ensures Reachable(c, s', source) && SameBoard(s, s') && SameQueues(s, s') && |s'.tasks| == |s.tasks| + 1
    ensures s'.tasks[|s.tasks|] == Asks(source, Origin(Name(|s.tasks|), h), false, Asking)
  {
    var s1 := MeteredArrives(c, s, source, Origin(Name(|s.tasks|), h), source);
    s' := CheckPasses(c, s1, |s.tasks|, source);
  }

  /** And starts its retrieval. */
  lemma RequestQueues(c: Config, s: State, source: Source, h: Host) returns (s': State, r: TaskId)
    requires Idle(c, s, source, h)
    requires Stores.View(s.rows, KeyNow(c, source, s.now)).consumed < c.Allowance(source).limit
    ensures Reachable(c, s', source) && SameBoard(s, s') && s'.now == s.now && s'.hosts == s.hosts
    ensures r < |s'.tasks| && QueueOf(s', h) == [r] && IsRetrieval(s'.tasks[r], source, h, Queued)
    ensures forall o :: o in s'.inFlight ==> |o.scheme| < |s'.tasks|
  {
    var s1 := RequestArrives(c, s, source, h);
    r := |s1.tasks|;
    s' := RetrievalStarts(c, s1, |s.tasks|, source);
  }

  /** It waits its turn, so many milliseconds, and is released. */
  lemma RetrievalIsReleased(c: Config, s: State, source: Source, h: Host, r: TaskId, wait: nat) returns (s': State)
    requires r < |s.tasks| && IsRetrieval(s.tasks[r], source, h, Queued) && QueueOf(s, h) == [r]
    requires h in c.hosts && c.hosts[h] == PACE && s.now >= 0 && Rested(HostOf(s, h), s.now + wait)
    requires HostOf(s, h) == FRESH_HOST ==> wait >= 1
    requires Reachable(c, s, source) && BreakerOf(s, source) == FRESH_SOURCE
    ensures Reachable(c, s', source) && SameBoard(s, s') && s'.now == s.now + wait && s'.inFlight == s.inFlight
    ensures QueueOf(s', h) == [] && HostOf(s', h) == HostState([s'.now], Some(s'.now), 0)
    ensures |s'.tasks| == |s.tasks| && IsRetrieval(s'.tasks[r], source, h, Point.Granted)
  {
    var s1 := TurnBegins(c, s, r, wait, source);
    s' := TurnEnds(c, s1, r, source);
  }

  /** It turns to the reservation, in the period it is released in. */
  lemma RetrievalReserves(c: Config, s: State, source: Source, h: Host, r: TaskId) returns (s': State)
    requires c.Valid() && c.Metered(source) && s.now >= 0 && r < |s.tasks| && IsRetrieval(s.tasks[r], source, h, Point.Granted)
    requires HostOf(s, h).holdUntil == 0 && s.landed == map[]
    requires Reachable(c, s, source) && BreakerOf(s, source) == FRESH_SOURCE
    requires Stores.View(s.rows, KeyNow(c, source, s.now)).consumed < c.Allowance(source).limit
    ensures Reachable(c, s', source) && SameBoard(s, s') && SameQueues(s, s') && |s'.tasks| == |s.tasks|
    ensures IsRetrieval(s'.tasks[r], source, h, Reserving(KeyNow(c, source, s.now).periodStart)) && s'.tasks[r].landedBefore == 0
  {
    s' := TurnsToReserve(c, s, r, source);
  }

  /** It takes a unit and leaves. */
  lemma RetrievalLeaves(c: Config, s: State, source: Source, h: Host, r: TaskId, period: int) returns (s': State)
    requires c.Valid() && c.Metered(source) && h in c.hosts && c.hosts[h] == PACE && s.now >= 0
    requires r < |s.tasks| && IsRetrieval(s.tasks[r], source, h, Reserving(period)) && s.tasks[r].landedBefore == 0
    requires QueueOf(s, h) == [] && HostOf(s, h) == HostState([s.now], Some(s.now), 0)
    requires Reachable(c, s, source) && BreakerOf(s, source) == FRESH_SOURCE && s.cache == map[] && s.landed == map[]
    requires forall o :: o in s.inFlight ==> |o.scheme| < |s.tasks|
    requires Stores.View(s.rows, Stores.Key(source, period)).consumed < c.Allowance(source).limit
    ensures Idle(c, s', source, h) && s'.now == s.now && HostOf(s', h) != FRESH_HOST
    ensures OneMore(s.rows, s'.rows, Stores.Key(source, period))
    ensures |s'.wire| == |s.wire| + 1 && s'.wire[..|s.wire|] == s.wire
    ensures s'.wire[|s.wire|].key == Some(Stores.Key(source, period)) && s'.wire[|s.wire|].at == s.now && s'.wire[|s.wire|].source == source
  {
    var s1 := TakesUnit(c, s, r, source);
    s' := Leaves(c, s1, r, |s.grants|, source);
  }

  /** From its arrival to the retrieval's release. */
  lemma RequestIsReleased(c: Config, s: State, source: Source, h: Host, wait: nat) returns (s': State, r: TaskId)
    requires Idle(c, s, source, h) && Rested(HostOf(s, h), s.now + wait) && (HostOf(s, h) == FRESH_HOST ==> wait >= 1)
    requires Stores.View(s.rows, KeyNow(c, source, s.now)).consumed < c.Allowance(source).limit
    ensures Reachable(c, s', source) && SameBoard(s, s') && s'.now == s.now + wait
    ensures QueueOf(s', h) == [] && HostOf(s', h) == HostState([s'.now], Some(s'.now), 0)
    ensures r < |s'.tasks| && IsRetrieval(s'.tasks[r], source, h, Point.Granted)
    ensures forall o :: o in s'.inFlight ==> |o.scheme| < |s'.tasks|
  {
    var s1;
    s1, r := RequestQueues(c, s, source, h);
    s' := RetrievalIsReleased(c, s1, source, h, r, wait);
  }

  /**
   ONE MORE UNIT: whenever something is left of the period, a request can come that spends it,
   leaving everything idle again.
   */
  lemma SpendsOne(c: Config, s: State, source: Source, h: Host, ms: nat, wait: nat) returns (s': State)
    requires Idle(c, s, source, h) && (HostOf(s, h) == FRESH_HOST ==> wait >= 1) && ms + wait >= 1
    requires Stores.View(s.rows, KeyNow(c, source, s.now + ms)).consumed < c.Allowance(source).limit
    requires Stores.View(s.rows, KeyNow(c, source, s.now + ms + wait)).consumed < c.Allowance(source).limit
    ensures Idle(c, s', source, h) && s'.now == s.now + ms + wait && HostOf(s', h) != FRESH_HOST
    ensures OneMore(s.rows, s'.rows, KeyNow(c, source, s'.now))
    ensures |s'.wire| == |s.wire| + 1 && s'.wire[..|s.wire|] == s.wire
    ensures s'.wire[|s.wire|].key == Some(KeyNow(c, source, s'.now)) && s'.wire[|s.wire|].at == s'.now && s'.wire[|s.wire|].source == source
  {
    var s0 := TimePasses(c, s, source, h, ms);
    var s2, r := RequestIsReleased(c, s0, source, h, wait);
    var s3 := RetrievalReserves(c, s2, source, h, r);
    s' := RetrievalLeaves(c, s3, source, h, r, KeyNow(c, source, s2.now).periodStart);
  }

  // ---------------------------------------------------------------------------
  // A request refused for another source's allowance.
  //
  // Source `a` has one unit. It asks for two origins, and both retrievals pass their
  // checks before either reserves; the second takes the unit, so the first is
  // refused, and the request of `b`, which has no allowance at all, with it.
  // ---------------------------------------------------------------------------

  function OneUnit(n: Names): Config {
    Config(map[n.h1 := PACE, n.h2 := PACE],
           map[n.a := SourceSettings(Some(AllowanceSettings(1, 10, 1.0)), None), n.b := SourceSettings(None, None)],
           BreakerSettings(1000, 1, 1.0, 1000), 10, [])
  }

  /** The tables while nothing has been released yet. */
  ghost predicate Opening(n: Names, s: State) {
    && Reachable(OneUnit(n), s, n.b) && s.now == 0 && s.cache == map[] && s.landed == map[] && s.rows == map[] && s.hosts == map[]
    && BreakerOf(s, n.a) == FRESH_SOURCE && BreakerOf(s, n.b) == FRESH_SOURCE && QueueOf(s, n.h1) == [1]
  }

  lemma FirstQueues(n: Names) returns (s: State)
    requires n.Differ()
    ensures Opening(n, s) && QueueOf(s, n.h2) == [] && s.inFlight == map[n.O1() := 1]
    ensures |s.tasks| == 2 && s.tasks[1] == Fetches(n.a, n.O1(), 0, None, Queued)
  {
    StartIsReachable(OneUnit(n), n.b);
    var s1 := PassesItsCheck(n, START, n.O1());
    s := RetrievalStarts(OneUnit(n), s1, 0, n.b);
  }

  /** A request of `a` comes, with nothing spent, and passes its check. */
  lemma PassesItsCheck(n: Names, s: State, origin: Origin) returns (s': State)
    requires n.Differ() && origin.host in OneUnit(n).hosts && s.now == 0 && s.rows == map[]
    requires Reachable(OneUnit(n), s, n.b) && BreakerOf(s, n.a) == FRESH_SOURCE && BreakerOf(s, n.b) == FRESH_SOURCE
    ensures Reachable(OneUnit(n), s', n.b) && SameBoard(s, s') && SameQueues(s, s')
    ensures |s'.tasks| == |s.tasks| + 1 && s'.tasks[|s.tasks|] == Asks(n.a, origin, false, Asking)
    ensures forall u :: 0 <= u < |s.tasks| ==> s'.tasks[u] == s.tasks[u]
  {
    var s1 := MeteredArrives(OneUnit(n), s, n.a, origin, n.b);
    s' := CheckPasses(OneUnit(n), s1, |s.tasks|, n.b);
  }

  lemma WaiterArrives(n: Names) returns (s: State)
    requires n.Differ()
    ensures Opening(n, s) && QueueOf(s, n.h2) == [] && s.inFlight == map[n.O1() := 1]
    ensures |s.tasks| == 3 && s.tasks[1] == Fetches(n.a, n.O1(), 0, None, Queued) && s.tasks[2] == Asks(n.b, n.O1(), false, Asking)
  {
    var c := OneUnit(n);
    var s0 := FirstQueues(n);
    s := Arrived(s0, Entering(c, s0, n.b, n.O1(), []));
    Goes(c, s0, Arrive(n.b, n.O1(), []), s, n.b);
  }

  lemma WaiterJoins(n: Names) returns (s: State)
    requires n.Differ()
    ensures Opening(n, s) && QueueOf(s, n.h2) == [] && s.inFlight == map[n.O1() := 1] && |s.tasks| == 3
    ensures s.tasks[1] == Fetches(n.a, n.O1(), 0, None, Queued) && s.tasks[2] == Asks(n.b, n.O1(), true, Joined(1, false))
  {
    var c := OneUnit(n);
    var s0 := WaiterArrives(n);
    var m := AtAsking(c, s0, s0.tasks[2]);
    Does(c, s0, 2, Choice.Nothing, m, n.b);
    s := Apply(c, s0, 2, m);
    GovernorTables.TasksAfter(c, s0, 2, m);
  }

  /** Where the waiter and the two retrievals stand. */
  ghost predicate Stand(n: Names, s: State, first: Point, second: Point) {
    && Reachable(OneUnit(n), s, n.b) && |s.tasks| == 5
    && s.tasks[1] == Fetches(n.a, n.O1(), 0, None, first)
    && s.tasks[2] == Asks(n.b, n.O1(), true, Joined(1, false))
    && s.tasks[4] == Fetches(n.a, n.O2(), 3, None, second)
    && BreakerOf(s, n.a) == FRESH_SOURCE && BreakerOf(s, n.b) == FRESH_SOURCE
    && s.cache == map[] && s.landed == map[]
  }

  ghost predicate Unspent(n: Names, s: State, now: int) {
    s.now == now && s.rows == map[] && HostOf(s, n.h1).holdUntil == 0 && HostOf(s, n.h2).holdUntil == 0
  }

  lemma BothQueue(n: Names) returns (s: State)
    requires n.Differ()
    ensures Stand(n, s, Queued, Queued) && Unspent(n, s, 0) && s.hosts == map[]
    ensures QueueOf(s, n.h1) == [1] && QueueOf(s, n.h2) == [4]
  {
    var s0 := WaiterJoins(n);
    var s1 := PassesItsCheck(n, s0, n.O2());
    s := RetrievalStarts(OneUnit(n), s1, 3, n.b);
  }

  lemma BothWait(n: Names) returns (s: State)
    requires n.Differ()
    ensures Stand(n, s, Pacing(1, 0), Pacing(1, 0)) && Unspent(n, s, 1) && s.hosts == map[]
    ensures QueueOf(s, n.h1) == [1] && QueueOf(s, n.h2) == [4]
  {
    var c := OneUnit(n);
    var s0 := BothQueue(n);
    var s1 := TurnBegins(c, s0, 1, 0, n.b);
    s := TurnBegins(c, s1, 4, 1, n.b);
  }

  lemma BothAreReleased(n: Names) returns (s: State)
    requires n.Differ()
    ensures Stand(n, s, Point.Granted, Point.Granted) && Unspent(n, s, 1)
  {
    var c := OneUnit(n);
    var s0 := BothWait(n);
    var s1 := TurnEnds(c, s0, 1, n.b);
    s := TurnEnds(c, s1, 4, n.b);
  }

  lemma BothReserve(n: Names) returns (s: State)
    requires n.Differ()
    ensures Stand(n, s, Reserving(0), Reserving(0)) && Unspent(n, s, 1)
  {
    var c := OneUnit(n);
    var s0 := BothAreReleased(n);
    var s1 := TurnsToReserve(c, s0, 1, n.b);
    s := TurnsToReserve(c, s1, 4, n.b);
  }

  lemma SecondTakesTheUnit(n: Names) returns (s: State, unit: Option<nat>)
    requires n.Differ()
    ensures Stand(n, s, Reserving(0), Holding(unit)) && Stores.View(s.rows, Stores.Key(n.a, 0)).consumed == 1 && s.now == 1
  {
    var c := OneUnit(n);
    var s0 := BothReserve(n);
    s := TakesUnit(c, s0, 4, n.b);
    unit := Some(|s0.grants|);
  }

  lemma FirstFindsNone(n: Names) returns (s: State, unit: Option<nat>)
    requires n.Differ()
    ensures Stand(n, s, Landing(Stopped(AllowanceExhausted)), Holding(unit)) && s.now == 1
  {
    var c := OneUnit(n);
    var s0;
    s0, unit := SecondTakesTheUnit(n);
    var m := AtReserving(c, s0, s0.tasks[1]);
    Does(c, s0, 1, Choice.Nothing, m, n.b);
    s := Apply(c, s0, 1, m);
    GovernorTables.TasksAfter(c, s0, 1, m);
  }

  lemma RefusalLands(n: Names) returns (s: State)
    requires n.Differ()
    ensures Reachable(OneUnit(n), s, n.b) && BreakerOf(s, n.b) == FRESH_SOURCE && s.now == 1 && |s.tasks| == 5
    ensures s.tasks[1] == Fetches(n.a, n.O1(), 0, None, Landed(Declined(AllowanceExhausted)))
    ensures s.tasks[2] == Asks(n.b, n.O1(), true, Joined(1, false))
  {
    var c := OneUnit(n);
    var s0, unit := FirstFindsNone(n);
    var m := AtLanding(s0, s0.tasks[1]);
    Does(c, s0, 1, Choice.Nothing, m, n.b);
    s := Apply(c, s0, 1, m);
    GovernorTables.TasksAfter(c, s0, 1, m);
  }

  /** It does happen: `b`'s request is refused for a spent allowance, though `b` has none to spend. */
  lemma RefusedForAnothersAllowance(n: Names) returns (s: State)
    requires n.Differ()
    ensures OneUnit(n).Valid() && Reachable(OneUnit(n), s, n.b) && !OneUnit(n).Metered(n.b)
    ensures |s.tasks| > 2 && s.tasks[2].source == n.b && s.tasks[2].at == Done(Refused(AllowanceExhausted))
  {
    var c := OneUnit(n);
    var s0 := RefusalLands(n);
    var m := AtJoined(s0, s0.tasks[2]);
    Does(c, s0, 2, Choice.Nothing, m, n.b);
    var s1 := Apply(c, s0, 2, m);
    GovernorTables.TasksAfter(c, s0, 2, m);
    s := RefusalIsPassedOn(n, s1);
  }

  lemma RefusalIsPassedOn(n: Names, s0: State) returns (s: State)
    requires n.Differ() && Reachable(OneUnit(n), s0, n.b) && BreakerOf(s0, n.b) == FRESH_SOURCE && s0.now == 1 && |s0.tasks| == 5
    requires s0.tasks[2] == Asks(n.b, n.O1(), true, Deciding(Declined(AllowanceExhausted)))
    ensures Reachable(OneUnit(n), s, n.b) && |s.tasks| > 2 && s.tasks[2].source == n.b
    ensures s.tasks[2].at == Done(Refused(AllowanceExhausted))
  {
    var c := OneUnit(n);
    var m := AtDeciding(c, s0, s0.tasks[2]);
    Does(c, s0, 2, Choice.Nothing, m, n.b);
    s := Apply(c, s0, 2, m);
    GovernorTables.TasksAfter(c, s0, 2, m);
  }
}
