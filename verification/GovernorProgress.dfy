/** No deadlock and no endless work: every call settles. */
module GovernorProgress {
  import opened Prelude
  import opened HostScheduling
  import opened Governor
  import opened GovernorMoves
  import opened GovernorTables
  import opened GovernorPacing
  import GovernorLedger
  import opened GovernorRuns

  // ---------------------------------------------------------------------------
  // A rank that every job lowers.
  // ---------------------------------------------------------------------------

  /** How far a point is from the end of its round. */
  function Stage(p: Point, firstRound: bool): nat {
    match p
    case Reading(_) => if firstRound then 32 else 24
    case Checked(_, _) => if firstRound then 31 else 23
    case Queued => 30
    case Pacing(_, _) => 29
    case Granted => 28
    case Asking => 27
    case Joined(_, _) => 26
    case Deciding(_) => 25
    case AtBoundary => 22
    case Reserving(_) => 21
    case Holding(_) => 20
    case GivingBack(_, _) => 19
    case GaveBack(_) => 18
    case OnWire(_) => 17
    case Marking(_, next) => if next.ThenSettled? then 14 else 16
    case Noticing(_, next) => if next.ThenSettled? then 13 else 15
    case Settled(_, _) => 12
    case PauseNoticing(_) => 11
    case Landing(_) => 10
    case Landed(_) => 0
    case Done(_) => 0
  }

  /** What a retrieval is worth when it starts: `Rank` of `NewRetrieval`. */
  const RETRIEVAL_RANK: nat := 110

  /** The highest rank a request can enter with. */
  const REQUEST_RANK: nat := 622

  /** Rounds still to come, then the point in this one, with room for the retrieval this round may start. */
  function Rank(task: Task): nat {
    if task.Finished() || task.round > MAX_BOUNDARY_WAITS then 0
    else if task.IsRobots() then (MAX_BOUNDARY_WAITS - task.round) * 40 + Stage(task.at, false)
    else (MAX_BOUNDARY_WAITS - task.round) * 160 + Stage(task.at, task.round == 0) + if task.asked then 0 else RETRIEVAL_RANK
  }

  function RankAfter(m: Move): nat { Rank(m.next) + if m.effect.StartsRetrieval? then RETRIEVAL_RANK else 0 }

  lemma RankFalls(c: Config, s: State, t: TaskId, choice: Choice)
    requires Enabled(c, s, t, choice) && Ready(c, s, s.tasks[t])
    ensures RankAfter(Decide(c, s, t, choice)) < Rank(s.tasks[t])
  {
    var task := s.tasks[t];
    match task.at {
      case Reading(_) => ReadingFalls(c, s, task);
      case Checked(_, _) => CheckedFalls(c, task);
      case Asking => AskingFalls(c, s, task);
      case Joined(_, _) =>
      case Deciding(_) => DecidingFalls(c, s, task);
      case Queued =>
      case Pacing(_, _) =>
      case Granted => GrantedFalls(c, s, task);
      case AtBoundary => BoundaryFalls(c, s, task);
      case _ => ReservedFalls(c, s, t, choice);
    }
  }

  /** The points from the reservation on. */
  predicate Reserved(p: Point) {
    p.Reserving? || p.Holding? || p.GivingBack? || p.GaveBack? || p.OnWire? || p.Marking? || p.Noticing? ||
    p.Settled? || p.PauseNoticing? || p.Landing?
  }

  lemma ReservedFalls(c: Config, s: State, t: TaskId, choice: Choice)
    requires Enabled(c, s, t, choice) && Ready(c, s, s.tasks[t]) && Reserved(s.tasks[t].at)
    ensures RankAfter(Decide(c, s, t, choice)) < Rank(s.tasks[t])
  {
    var task := s.tasks[t];
    match task.at {
      case Reserving(_) => ReservingFalls(c, s, t, choice);
      case Holding(_) => HoldingFalls(c, s, task);
      case GivingBack(_, _) =>
      case GaveBack(_) => GaveBackFalls(c, s, task);
      case OnWire(_) => OnWireFalls(c, s, task, choice.answer);
      case Marking(_, _) => MarkingFalls(c, s, task);
      case Noticing(_, _) => NoticingFalls(c, s, task);
      case Settled(_, _) => SettledFalls(c, s, task);
      case PauseNoticing(_) =>
      case Landing(_) =>
    }
  }

  lemma ReadingFalls(c: Config, s: State, task: Task)
    requires Shape(c, task) && task.at.Reading?
    ensures RankAfter(AtReading(s, task)) < Rank(task)
  {
  }

  lemma CheckedFalls(c: Config, task: Task)
    requires Shape(c, task) && task.at.Checked?
    ensures RankAfter(AtChecked(c, task)) < Rank(task)
  {
  }

  lemma AskingFalls(c: Config, s: State, task: Task)
    requires Shape(c, task) && task.at.Asking?
    ensures RankAfter(AtAsking(c, s, task)) < Rank(task)
  {
  }

  lemma DecidingFalls(c: Config, s: State, task: Task)
    requires Shape(c, task) && task.at.Deciding?
    ensures RankAfter(AtDeciding(c, s, task)) < Rank(task)
  {
  }

  lemma GrantedFalls(c: Config, s: State, task: Task)
    requires Shape(c, task) && task.at.Granted?
    ensures RankAfter(AtGranted(c, s, task)) < Rank(task)
  {
  }

  lemma BoundaryFalls(c: Config, s: State, task: Task)
    requires Shape(c, task) && task.at.AtBoundary?
    ensures RankAfter(AtTheBoundary(c, s, task)) < Rank(task)
  {
  }

  lemma ReservingFalls(c: Config, s: State, t: TaskId, choice: Choice)
    requires Enabled(c, s, t, choice) && Ready(c, s, s.tasks[t]) && s.tasks[t].at.Reserving?
    ensures RankAfter(Decide(c, s, t, choice)) < Rank(s.tasks[t])
  {
  }

  lemma HoldingFalls(c: Config, s: State, task: Task)
    requires Shape(c, task) && task.at.Holding?
    ensures RankAfter(AtHolding(c, s, task)) < Rank(task)
  {
  }

  lemma GaveBackFalls(c: Config, s: State, task: Task)
    requires Shape(c, task) && task.at.GaveBack?
    ensures RankAfter(AtGaveBack(s, task)) < Rank(task)
  {
  }

  lemma OnWireFalls(c: Config, s: State, task: Task, answer: Answer)
    requires Shape(c, task) && task.at.OnWire?
    ensures RankAfter(AtOnWire(c, s, task, answer)) < Rank(task)
  {
  }

  lemma MarkingFalls(c: Config, s: State, task: Task)
    requires Shape(c, task) && task.at.Marking?
    ensures RankAfter(AtMarking(c, s, task)) < Rank(task)
  {
  }

  lemma NoticingFalls(c: Config, s: State, task: Task)
    requires Shape(c, task) && task.at.Noticing?
    ensures RankAfter(AtNoticing(c, s, task)) < Rank(task)
  {
  }

  lemma SettledFalls(c: Config, s: State, task: Task)
    requires Shape(c, task) && task.at.Settled?
    ensures RankAfter(AtSettled(c, s, task)) < Rank(task)
  {
  }

  function TotalRank(tasks: seq<Task>, n: nat): nat
    requires n <= |tasks|
  {
    if n == 0 then 0 else TotalRank(tasks, n - 1) + Rank(tasks[n - 1])
  }

  function RankOf(s: State): nat { TotalRank(s.tasks, |s.tasks|) }

  lemma {:induction false} TotalAfterChange(tasks: seq<Task>, more: seq<Task>, t: TaskId, n: nat)
    requires n <= |tasks| <= |more| && t < |tasks|
    requires forall u :: 0 <= u < |tasks| && u != t ==> more[u] == tasks[u]
    ensures TotalRank(more, n) == TotalRank(tasks, n) + if t < n then Rank(more[t]) - Rank(tasks[t]) else 0
  {
    if n > 0 {
      TotalAfterChange(tasks, more, t, n - 1);
    }
  }

  lemma {:induction false} TotalOfPrefix(tasks: seq<Task>, more: seq<Task>, n: nat)
    requires n <= |tasks| && tasks <= more
    ensures TotalRank(more, n) == TotalRank(tasks, n)
  {
    if n > 0 {
      TotalOfPrefix(tasks, more, n - 1);
    }
  }

  lemma RankAfterJob(c: Config, s: State, t: TaskId, m: Move)
    requires t < |s.tasks| && RankAfter(m) < Rank(s.tasks[t]) && (m.effect.StartsRetrieval? ==> !m.next.IsRobots())
    ensures RankOf(Apply(c, s, t, m)) < RankOf(s)
  {
    TasksAfter(c, s, t, m);
    var s' := Apply(c, s, t, m);
    TotalAfterChange(s.tasks, s'.tasks, t, |s.tasks|);
    if m.effect.StartsRetrieval? {
      assert s'.tasks[|s.tasks|] == NewRetrieval(m.next, t);
      assert RankOf(s') == TotalRank(s'.tasks, |s.tasks|) + Rank(s'.tasks[|s.tasks|]);
    }
  }

  // ---------------------------------------------------------------------------
  // Bounded jobs.
  // ---------------------------------------------------------------------------

  function Jobs(events: seq<Event>, n: nat): nat
    requires n <= |events|
  {
    if n == 0 then 0 else Jobs(events, n - 1) + if events[n - 1].Act? then 1 else 0
  }

  function Arrivals(events: seq<Event>, n: nat): nat
    requires n <= |events|
  {
    if n == 0 then 0 else Arrivals(events, n - 1) + if events[n - 1].Arrive? then 1 else 0
  }

  lemma JobLowersRank(c: Config, states: seq<State>, events: seq<Event>, i: nat)
    requires c.Valid() && IsRun(c, states, events) && i < |events| && events[i].Act?
    ensures RankOf(states[i + 1]) < RankOf(states[i])
  {
    var m := JobOf(c, states, events, i);
    RankFallsHere(c, states[i], events[i].t, events[i].choice);
    NextIsRanked(c, states[i], events[i].t, m);
  }

  lemma EnteringRank(c: Config, s: State, source: Source, origin: Origin, path: string)
    ensures Rank(Entering(c, s, source, origin, path).next) <= REQUEST_RANK
  {
  }

  lemma ArrivalAddsRank(s: State, m: Move)
    ensures RankOf(Arrived(s, m)) == RankOf(s) + Rank(m.next)
  {
    TotalOfPrefix(s.tasks, Arrived(s, m).tasks, |s.tasks|);
  }

  lemma OthersKeepRank(c: Config, s: State, event: Event, s': State)
    requires Step(c, s, event, s') && !event.Act?
    ensures RankOf(s') <= RankOf(s) + if event.Arrive? then REQUEST_RANK else 0
  {
    match event {
      case Tick(_) => assert s'.tasks == s.tasks;
      case Forget(_) => assert s'.tasks == s.tasks;
      case Arrive(source, origin, path) =>
        EnteringRank(c, s, source, origin, path);
        ArrivalAddsRank(s, Entering(c, s, source, origin, path));
    }
  }

  /** NO ENDLESS WORK: in every run, however interleaved, the jobs are at most a fixed number per request that arrived. */
  lemma {:induction false} JobsAreBounded(c: Config, states: seq<State>, events: seq<Event>, n: nat)
    requires c.Valid() && IsRun(c, states, events) && n < |states|
    ensures Jobs(events, n) + RankOf(states[n]) <= REQUEST_RANK * Arrivals(events, n)
  {
    if n > 0 {
      JobsAreBounded(c, states, events, n - 1);
      NextJobIsBounded(c, states, events, n - 1);
    } else {
      NothingRanksAtFirst(c, states, events);
    }
  }

  lemma NothingRanksAtFirst(c: Config, states: seq<State>, events: seq<Event>)
    requires IsRun(c, states, events)
    ensures RankOf(states[0]) == 0
  {
  }

  lemma NextJobIsBounded(c: Config, states: seq<State>, events: seq<Event>, i: nat)
    requires c.Valid() && IsRun(c, states, events) && i < |events|
    ensures RankOf(states[i + 1]) + (if events[i].Act? then 1 else 0) <= RankOf(states[i]) + if events[i].Arrive? then REQUEST_RANK else 0
  {
    if events[i].Act? {
      JobLowersRank(c, states, events, i);
    } else {
      assert Step(c, states[i], events[i], states[i + 1]);
      OthersKeepRank(c, states[i], events[i], states[i + 1]);
    }
  }

  // ---------------------------------------------------------------------------
  // No deadlock: whoever waits, waits for somebody who waits for less.
  // ---------------------------------------------------------------------------

  function Later(s: State, ms: nat): State { s.(now := s.now + ms) }

  /** A product request in a send waits for a retrieval, a retrieval for the head of a queue, and that for the clock. */
  lemma SomeJobCanRun(c: Config, s: State, t: TaskId) returns (ms: nat, u: TaskId, choice: Choice)
    requires c.Valid() && Inv(c, s) && t < |s.tasks| && !s.tasks[t].Finished()
    ensures Enabled(c, Later(s, ms), u, choice)
  {
    var task := s.tasks[t];
    assert Shape(c, task) && JoinedOk(s, t);
    if task.at.Joined? && !s.tasks[task.at.retrieval].at.Landed? {
      assert Shape(c, s.tasks[task.at.retrieval]);
      ms, u, choice := SendCanRun(c, s, task.at.retrieval);
    } else {
      ms, u, choice := SendCanRun(c, s, t);
    }
  }

  lemma SendCanRun(c: Config, s: State, t: TaskId) returns (ms: nat, u: TaskId, choice: Choice)
    requires c.Valid() && Queues(s) && Shapes(c, s) && Paces(c, s) && t < |s.tasks| && !s.tasks[t].Finished()
    requires s.tasks[t].at.Joined? ==> CanJoin(s, s.tasks[t])
    ensures Enabled(c, Later(s, ms), u, choice)
    ensures if InQueue(s.tasks[t].at) then AtHead(s, u, s.tasks[t].Host()) else u == t
  {
    var task := s.tasks[t];
    assert Shape(c, task);
    if InQueue(task.at) {
      ms, u, choice := HeadCanRun(c, s, task.Host());
    } else {
      ms, u, choice := 0, t, Answered(NetworkFailure);
    }
  }

  /** The head of a queue either begins its turn at once or is released when the clock reaches its target. */
  lemma HeadCanRun(c: Config, s: State, h: Host) returns (ms: nat, u: TaskId, choice: Choice)
    requires c.Valid() && QueueOk(s, h) && Shapes(c, s) && Paces(c, s) && QueueOf(s, h) != []
    ensures Enabled(c, Later(s, ms), u, choice) && AtHead(s, u, h)
  {
    u := QueueOf(s, h)[0];
    assert Waits(s, h, 0);
    assert Shape(c, s.tasks[u]);
    if s.tasks[u].at.Queued? {
      ms, choice := 0, Jitter(0);
    } else {
      assert HostOk(c, s, h);
      choice := Nothing;
      ms := PacingCanRun(c, s, u);
    }
  }

  lemma PacingCanRun(c: Config, s: State, u: TaskId) returns (ms: nat)
    requires c.Valid() && u < |s.tasks| && s.tasks[u].at.Pacing? && AtHead(s, u, s.tasks[u].Host())
    requires s.tasks[u].Host() in c.hosts && HostOk(c, s, s.tasks[u].Host())
    ensures Enabled(c, Later(s, ms), u, Nothing)
  {
    var h, p := s.tasks[u].Host(), s.tasks[u].at;
    var target := Earliest(HostOf(s, h), c.hosts[h], p.delayMs, p.offeredAt, s.now);
    ms := if target <= s.now then 0 else target - s.now;
    TargetStaysMet(HostOf(s, h), ReleasedOf(s, h), c.hosts[h], p.delayMs, p.offeredAt, s.now, s.now + ms);
    LaterIsMet(c, s, u, ms);
  }

  lemma LaterIsMet(c: Config, s: State, u: TaskId, ms: nat)
    requires c.Valid() && u < |s.tasks| && s.tasks[u].at.Pacing? && AtHead(s, u, s.tasks[u].Host())
    requires s.tasks[u].Host() in c.hosts
    requires var h, p := s.tasks[u].Host(), s.tasks[u].at;
             Earliest(HostOf(s, h), c.hosts[h], p.delayMs, p.offeredAt, s.now + ms) <= s.now + ms
    ensures Enabled(c, Later(s, ms), u, Nothing)
  {
    var later := Later(s, ms);
    assert later.tasks == s.tasks && later.hosts == s.hosts && later.queues == s.queues && later.now == s.now + ms;
  }

  /** NO DEADLOCK: a reachable state in which no job can run, now or at any later time, has settled every call. */
  lemma StuckMeansSettled(c: Config, states: seq<State>, events: seq<Event>, i: nat)
    requires c.Valid() && IsRun(c, states, events) && i < |states|
    requires forall ms: nat, u: TaskId, choice :: !Enabled(c, Later(states[i], ms), u, choice)
    ensures forall t :: 0 <= t < |states[i].tasks| ==> states[i].tasks[t].Finished()
  {
    InvAlways(c, states, events, i);
    forall t | 0 <= t < |states[i].tasks| ensures states[i].tasks[t].Finished() {
      if !states[i].tasks[t].Finished() {
        var ms, u, choice := SomeJobCanRun(c, states[i], t);
      }
    }
  }

  lemma UnfinishedRanks(c: Config, s: State, t: TaskId)
    requires Shapes(c, s) && t < |s.tasks| && !s.tasks[t].Finished()
    ensures Rank(s.tasks[t]) > 0
  {
    assert Shape(c, s.tasks[t]);
  }

  lemma {:induction false} RankOfOne(tasks: seq<Task>, n: nat, t: TaskId)
    requires t < n <= |tasks|
    ensures TotalRank(tasks, n) >= Rank(tasks[t])
    decreases n
  {
    if t < n - 1 {
      RankOfOne(tasks, n - 1, t);
    }
  }

  /** The jobs run so far, and the rank of what is left to do. */
  function Spent(states: seq<State>, events: seq<Event>, k: nat): nat
    requires k < |states| && k <= |events|
  {
    Jobs(events, k) + RankOf(states[k])
  }

  lemma QuietStepSpendsNothing(c: Config, states: seq<State>, events: seq<Event>, k: nat)
    requires c.Valid() && IsRun(c, states, events) && k < |events| && !events[k].Arrive?
    ensures Spent(states, events, k + 1) <= Spent(states, events, k)
  {
    NextJobIsBounded(c, states, events, k);
  }

  predicate NotRisingAt(f: nat -> nat, k: nat) { f(k + 1) <= f(k) }

  lemma {:induction false} NeverRises(f: nat -> nat, i: nat, n: nat)
    requires i <= n && forall k :: i <= k < n ==> NotRisingAt(f, k)
    ensures f(n) <= f(i)
    decreases n
  {
    if i < n {
      NeverRises(f, i, n - 1);
      assert NotRisingAt(f, n - 1);
    }
  }

  lemma QuietJobsAreBounded(c: Config, states: seq<State>, events: seq<Event>, i: nat, n: nat)
    requires c.Valid() && IsRun(c, states, events) && i <= n <= |events| && Arrivals(events, n) == Arrivals(events, i)
    ensures n < |states| && Spent(states, events, n) <= Spent(states, events, i)
  {
    var spent := (k: nat) => if k < |states| && k <= |events| then Spent(states, events, k) else 0;
    forall k | i <= k < n ensures NotRisingAt(spent, k) {
      QuietBetween(events, i, k, n);
      QuietStepSpendsNothing(c, states, events, k);
    }
    NeverRises(spent, i, n);
  }

  lemma QuietBetween(events: seq<Event>, i: nat, k: nat, n: nat)
    requires i <= k < n <= |events| && Arrivals(events, n) == Arrivals(events, i)
    ensures !events[k].Arrive?
  {
    ArrivalsOnlyGrow(events, i, k);
    ArrivalsOnlyGrow(events, k + 1, n);
  }

  lemma {:induction false} ArrivalsOnlyGrow(events: seq<Event>, i: nat, n: nat)
    requires i <= n <= |events|
    ensures Arrivals(events, i) <= Arrivals(events, n)
    decreases n
  {
    if i < n {
      ArrivalsOnlyGrow(events, i, n - 1);
    }
  }

  /**
   EVERY SCHEDULE SETTLES: from any point of any run on, as long as no further request
   arrives, at most `RankOf` jobs run, whichever run and whatever is answered; and
   once that many have, or none can, every call has settled.
   */
  lemma EveryScheduleSettles(c: Config, states: seq<State>, events: seq<Event>, i: nat, n: nat)
    requires c.Valid() && IsRun(c, states, events) && i <= n <= |events| && Arrivals(events, n) == Arrivals(events, i)
    ensures Jobs(events, n) - Jobs(events, i) <= RankOf(states[i]) <= REQUEST_RANK * Arrivals(events, i)
    ensures || Jobs(events, n) - Jobs(events, i) == RankOf(states[i])
            || (forall ms: nat, u: TaskId, choice :: !Enabled(c, Later(states[n], ms), u, choice))
            ==> forall t :: 0 <= t < |states[n].tasks| ==> states[n].tasks[t].Finished()
  {
    JobsAreBounded(c, states, events, i);
    QuietJobsAreBounded(c, states, events, i, n);
    if Jobs(events, n) - Jobs(events, i) == RankOf(states[i]) {
      InvAlways(c, states, events, n);
      forall t | 0 <= t < |states[n].tasks| ensures states[n].tasks[t].Finished() {
        RankOfOne(states[n].tasks, |states[n].tasks|, t);
        if !states[n].tasks[t].Finished() {
          UnfinishedRanks(c, states[n], t);
        }
      }
    } else if forall ms: nat, u: TaskId, choice :: !Enabled(c, Later(states[n], ms), u, choice) {
      StuckMeansSettled(c, states, events, n);
    }
  }

  /** Jobs and the passing of time, one after another. */
  ghost predicate IsPath(c: Config, states: seq<State>, events: seq<Event>) {
    && |states| == |events| + 1
    && forall i {:trigger events[i]} :: 0 <= i < |events| ==> Step(c, states[i], events[i], states[i + 1]) && (events[i].Act? || events[i].Tick?)
  }

  /** THERE IS ALWAYS A WAY: from every state of every run, letting time pass and jobs run finishes them all. */
  lemma {:induction false} EveryCallSettles(c: Config, s: State) returns (states: seq<State>, events: seq<Event>)
    requires c.Valid() && Inv(c, s)
    ensures IsPath(c, states, events) && states[0] == s
    ensures forall t :: 0 <= t < |states[|events|].tasks| ==> states[|events|].tasks[t].Finished()
    decreases RankOf(s)
  {
    if t: TaskId :| t < |s.tasks| && !s.tasks[t].Finished() {
      var later, next, tick, act := OneMoreJob(c, s, t);
      var rest, more := EveryCallSettles(c, next);
      states, events := [s, later] + rest, [tick, act] + more;
      PathExtends(c, s, later, rest, more, tick, act);
    } else {
      states, events := [s], [];
    }
  }

  /** While a call is unfinished, letting time pass lets a job run, and that lowers the rank. */
  lemma OneMoreJob(c: Config, s: State, t: TaskId) returns (later: State, next: State, tick: Event, act: Event)
    requires c.Valid() && Inv(c, s) && t < |s.tasks| && !s.tasks[t].Finished()
    ensures tick.Tick? && Step(c, s, tick, later) && act.Act? && Step(c, later, act, next)
    ensures Inv(c, next) && RankOf(next) < RankOf(s)
  {
    var ms, u, choice := SomeJobCanRun(c, s, t);
    TickStep(c, s, ms);
    later := Later(s, ms);
    next := JobStep(c, later, u, choice);
    tick, act := Tick(ms), Act(u, choice);
  }

  lemma TickStep(c: Config, s: State, ms: nat)
    requires Inv(c, s)
    ensures Step(c, s, Tick(ms), Later(s, ms)) && Inv(c, Later(s, ms)) && RankOf(Later(s, ms)) == RankOf(s)
  {
    LaterIsOutside(c, s, ms);
    InvOutside(c, s, Later(s, ms));
  }

  lemma LaterIsOutside(c: Config, s: State, ms: nat)
    ensures Outside(c, s, Later(s, ms)) && Later(s, ms).tasks == s.tasks
  {
    TickIsOutside(c, s, ms);
  }

  lemma JobStep(c: Config, s: State, u: TaskId, choice: Choice) returns (next: State)
    requires c.Valid() && Inv(c, s) && Enabled(c, s, u, choice)
    ensures Step(c, s, Act(u, choice), next) && Inv(c, next) && RankOf(next) < RankOf(s)
  {
    InvMakesLocal(c, s, u, choice);
    RankFallsHere(c, s, u, choice);
    next := Apply(c, s, u, Decide(c, s, u, choice));
    NextIsRanked(c, s, u, Decide(c, s, u, choice));
  }

  lemma RankFallsHere(c: Config, s: State, u: TaskId, choice: Choice)
    requires Inv(c, s) && Enabled(c, s, u, choice)
    ensures RankAfter(Decide(c, s, u, choice)) < Rank(s.tasks[u])
  {
    assert Shape(c, s.tasks[u]);
    GovernorLedger.UnitsOwn(c, s, u);
    RankFalls(c, s, u, choice);
  }

  lemma NextIsRanked(c: Config, s: State, u: TaskId, m: Move)
    requires c.Valid() && Inv(c, s) && u < |s.tasks| && Local(c, s, u, s.tasks[u], m) && RankAfter(m) < Rank(s.tasks[u])
    ensures Inv(c, Apply(c, s, u, m)) && RankOf(Apply(c, s, u, m)) < RankOf(s)
  {
    InvAct(c, s, u, m);
    assert Shape(c, s.tasks[u]) && Shape(c, m.next);
    RankAfterJob(c, s, u, m);
  }

  lemma PathExtends(c: Config, s: State, later: State, rest: seq<State>, more: seq<Event>, first: Event, second: Event)
    requires IsPath(c, rest, more) && first.Tick? && second.Act?
    requires Step(c, s, first, later) && Step(c, later, second, rest[0])
    ensures IsPath(c, [s, later] + rest, [first, second] + more)
  {
    var states, events := [s, later] + rest, [first, second] + more;
    Shifted(s, later, rest);
    Shifted(first, second, more);
    forall i | 0 <= i < |events| ensures Step(c, states[i], events[i], states[i + 1]) && (events[i].Act? || events[i].Tick?) {
      if i >= 2 {
        assert Step(c, rest[i - 2], more[i - 2], rest[i - 1]);
      }
    }
  }

  lemma Shifted<T>(a: T, b: T, rest: seq<T>)
    ensures var all := [a, b] + rest;
            |all| == |rest| + 2 && all[0] == a && all[1] == b && forall i :: 2 <= i < |all| ==> all[i] == rest[i - 2]
  {
  }
}
