/** Every invariant together, from the first state on, under every event: what happens between jobs keeps them, and so does every job. */
module GovernorRuns {
  import opened Prelude
  import opened CircuitBreaker
  import opened Governor
  import opened GovernorMoves
  import opened GovernorTables
  import opened GovernorVerdicts
  import opened GovernorLedger
  import opened GovernorNotices
  import opened GovernorPacing
  import opened GovernorHistory
  import opened GovernorWork

  ghost predicate Inv(c: Config, s: State) {
    && Shapes(c, s) && Queues(s) && Table(s) && Verdicts(c, s)
    && Units(c, s) && Totals(c, s)
    && Notices(s) && Causal(c, s) && Duties(c, s)
    && Paces(c, s) && Remembers(s)
    && Answers(s) && Owners(s) && Caches(s) && Departures(c, s)
    && Works(s)
  }

  lemma InitInv(c: Config, s: State)
    requires Init(s)
    ensures Inv(c, s)
  {
  }

  // ---------------------------------------------------------------------------
  // What happens between jobs: time passes, an operator forgets a verdict, a
  // request arrives.
  // ---------------------------------------------------------------------------

  /** A request that has just arrived holds nothing and is waited for by nobody. */
  predicate Entered(c: Config, task: Task) {
    && Shape(c, task) && !task.IsRobots() && task.departure == None && task.decided == None
    && task.round == 0 && task.landedBefore == 0 && !task.asked
    && (task.at.Done? || task.at.Reading? || task.at.Asking?)
    && (task.at.Done? ==> task.at.outcome.Refused? && AtTheDoor(task.at.outcome.reason))
  }

  /** What gates 1 to 3 refuse for in a request's first job. */
  predicate AtTheDoor(reason: Reason) { reason.UnconfiguredHost? || reason.UnknownSource? || reason.SourcePaused? }

  ghost predicate Outside(c: Config, s: State, s': State) {
    && s.now <= s'.now
    && s.tasks <= s'.tasks && (forall u :: |s.tasks| <= u < |s'.tasks| ==> Entered(c, s'.tasks[u]))
    && (forall o :: o in s'.cache ==> o in s.cache && s'.cache[o] == s.cache[o])
    && (forall x :: BreakerOf(s', x) == BreakerOf(s, x) || BreakerOf(s', x) == AfterStatus(BreakerOf(s, x), s.now))
    && SameElsewhere(s, s')
  }

  predicate SameElsewhere(s: State, s': State) {
    && s'.hosts == s.hosts && s'.queues == s.queues && s'.rows == s.rows && s'.inFlight == s.inFlight && s'.landed == s.landed
    && s'.called == s.called && s'.served == s.served && s'.released == s.released
    && s'.grants == s.grants && s'.wire == s.wire && s'.marker == s.marker && s'.notices == s.notices
    && s'.holds == s.holds && s'.pauses == s.pauses
  }

  lemma TickIsOutside(c: Config, s: State, ms: nat)
    ensures Outside(c, s, s.(now := s.now + ms))
  {
  }

  lemma ForgetIsOutside(c: Config, s: State, o: Origin)
    ensures Outside(c, s, s.(cache := s.cache - {o}))
  {
  }

  lemma EnteringIsEntered(c: Config, s: State, source: Source, origin: Origin, path: string)
    ensures var m := Entering(c, s, source, origin, path);
            Entered(c, m.next) && (m.effect.AsksBreaker? || m.effect.NoEffect?)
  {
  }

  lemma ArrivalIsOutside(c: Config, s: State, m: Move)
    requires Entered(c, m.next)
    ensures Outside(c, s, Arrived(s, m))
  {
  }

  lemma StepsOutside(c: Config, s: State, event: Event, s': State)
    requires Step(c, s, event, s') && !event.Act?
    ensures Outside(c, s, s')
  {
    match event {
      case Tick(ms) => TickIsOutside(c, s, ms);
      case Forget(o) => ForgetIsOutside(c, s, o);
      case Arrive(source, origin, path) =>
        EnteringIsEntered(c, s, source, origin, path);
        ArrivalIsOutside(c, s, Entering(c, s, source, origin, path));
    }
  }

  lemma TablesOutside(c: Config, s: State, s': State)
    requires Outside(c, s, s') && Shapes(c, s) && Queues(s) && Table(s)
    ensures Shapes(c, s') && Queues(s') && Table(s')
  {
    forall h ensures QueueOk(s', h) {
      assert QueueOk(s, h);
      forall i | 0 <= i < |QueueOf(s', h)| ensures Waits(s', h, i) {
        assert Waits(s, h, i);
      }
    }
    forall o | o in s'.inFlight ensures Listed(s', o) {
      assert Listed(s, o);
    }
    forall t | 0 <= t < |s'.tasks| ensures OnlyOneInFlight(s', t) && JoinedOk(s', t) {
      if t < |s.tasks| {
        assert OnlyOneInFlight(s, t) && JoinedOk(s, t);
      }
    }
  }

  lemma VerdictsOutside(c: Config, s: State, s': State)
    requires Outside(c, s, s') && Table(s) && Verdicts(c, s)
    ensures Verdicts(c, s')
  {
    forall t | 0 <= t < |s'.tasks| ensures VerdictOk(c, s', t) {
      if t < |s.tasks| {
        assert VerdictOk(c, s, t) && JoinedOk(s, t);
      }
    }
    forall o | o in s'.inFlight ensures s'.inFlight[o] < |s'.tasks| && ListedIsCached(s', o) {
      assert Listed(s, o) && ListedIsCached(s, o);
    }
  }

  lemma LedgerOutside(c: Config, s: State, s': State)
    requires Outside(c, s, s') && Units(c, s) && Totals(c, s)
    ensures Units(c, s') && Totals(c, s')
  {
    forall t | 0 <= t < |s'.tasks| ensures UnitOk(s', t) {
      assert t < |s.tasks| ==> UnitOk(s, t);
    }
    forall u | 0 <= u < |s'.grants| ensures GrantOk(c, s', u) && RecordedOk(c, s', u) {
      assert GrantOk(c, s, u) && RecordedOk(c, s, u);
    }
    forall i | 0 <= i < |s'.wire| ensures DepartureOk(c, s', i) {
      assert DepartureOk(c, s, i);
    }
    forall key ensures TotalOk(c, s', key) {
      assert TotalOk(c, s, key);
    }
  }

  lemma NoticesOutside(c: Config, s: State, s': State)
    requires Outside(c, s, s') && Notices(s) && Causal(c, s) && Duties(c, s)
    ensures Notices(s') && Causal(c, s') && Duties(c, s')
  {
    forall n ensures NoticeOk(s', n) && (Marked(s', n) ==> Caused(c, s', n)) {
      assert NoticeOk(s, n);
      CausedOutside(c, s, s', n);
    }
    forall t | 0 <= t < |s'.tasks| ensures TellsOwn(s', t) && CauseOk(c, s', t) && TaskDuty(c, s', t) {
      if t < |s.tasks| {
        assert TellsOwn(s, t) && CauseOk(c, s, t) && TaskDuty(c, s, t);
        TaskNoticesOutside(c, s, s', t);
      }
    }
    forall u | 0 <= u < |s'.grants| ensures GrantDuty(c, s', u) {
      assert GrantDuty(c, s, u);
    }
  }

  lemma CausedOutside(c: Config, s: State, s': State, n: Notice)
    requires Outside(c, s, s')
    ensures Caused(c, s, n) ==> Caused(c, s', n)
    ensures Marked(s', n) == Marked(s, n)
  {
    if Caused(c, s, n) {
      var u :| Causes(c, s, u, n);
      assert Causes(c, s', u, n);
    }
  }

  lemma TaskNoticesOutside(c: Config, s: State, s': State, t: TaskId)
    requires Outside(c, s, s') && t < |s.tasks| && TellsOwn(s, t) && CauseOk(c, s, t) && TaskDuty(c, s, t)
    ensures TellsOwn(s', t) && CauseOk(c, s', t) && TaskDuty(c, s', t)
  {
    var task := s.tasks[t];
    if task.at.Marking? {
      CausedOutside(c, s, s', task.at.notice);
    }
    if task.at.Checked? {
      CausedOutside(c, s, s', Notice(Stop, KeyAt(task, task.at.period)));
    }
  }

  lemma PacingOutside(c: Config, s: State, s': State)
    requires Outside(c, s, s') && Paces(c, s) && Remembers(s)
    ensures Paces(c, s') && Remembers(s')
  {
    forall h | h in c.hosts ensures HostOk(c, s', h) {
      assert HostOk(c, s, h);
    }
    forall i | 0 <= i < |s'.holds| ensures HoldKnown(s', i) {
      assert HoldKnown(s, i);
    }
    forall i | 0 <= i < |s'.pauses| ensures PauseKnown(s', i) {
      assert PauseKnown(s, i);
    }
  }

  lemma HistoryOutside(c: Config, s: State, s': State)
    requires Outside(c, s, s') && Answers(s) && Owners(s) && Caches(s) && Departures(c, s)
    ensures Answers(s') && Owners(s') && Caches(s') && Departures(c, s')
  {
    forall k | 0 <= k < |s'.wire| ensures OwnerOk(s', k) {
      assert OwnerOk(s, k);
    }
    forall t | 0 <= t < |s'.tasks| ensures AnswerOk(s', t) {
      assert t < |s.tasks| ==> AnswerOk(s, t);
    }
    forall o | o in s'.cache ensures CacheOk(s', o) {
      assert CacheOk(s, o);
    }
    forall i | 0 <= i < |s'.wire| ensures DepartureClean(c, s', i) {
      assert DepartureClean(c, s, i);
    }
  }

  lemma WorksOutside(c: Config, s: State, s': State)
    requires Outside(c, s, s') && Works(s)
    ensures Works(s')
  {
    forall t | 0 <= t < |s'.tasks| ensures CallsOk(s', t) && RetrievalsOk(s', t) {
      if t < |s.tasks| {
        assert CallsOk(s, t) && RetrievalsOk(s, t);
      } else {
        StrangersHaveNotCalled(s, s'.tasks[t].Host(), t);
      }
      RetrievalsOutside(s, s', t);
    }
    forall h ensures CallersKnown(s', h) {
      assert CallersKnown(s, h);
      CallersOutside(s, s', h);
    }
  }

  lemma CallersOutside(s: State, s': State, h: Host)
    requires s.tasks <= s'.tasks && s'.called == s.called && CallersKnown(s, h)
    ensures CallersKnown(s', h)
  {
    assert CalledOf(s', h) == CalledOf(s, h);
  }

  lemma RetrievalsOutside(s: State, s': State, p: TaskId)
    requires s.tasks <= s'.tasks && forall u :: |s.tasks| <= u < |s'.tasks| ==> !s'.tasks[u].IsRobots()
    requires Works(s)
    ensures Retrievals(s'.tasks, |s'.tasks|, p) == Retrievals(s.tasks, |s.tasks|, p)
    ensures p >= |s.tasks| ==> Retrievals(s.tasks, |s.tasks|, p) == 0
  {
    RetrievalsAlike(s.tasks, s'.tasks, |s.tasks|, p);
    RetrievalsStop(s'.tasks, |s.tasks|, |s'.tasks|, p);
    if p >= |s.tasks| {
      NobodysRetrievals(s, |s.tasks|, p);
    }
  }

  lemma InvOutside(c: Config, s: State, s': State)
    requires Outside(c, s, s') && Inv(c, s)
    ensures Inv(c, s')
  {
    TablesOutside(c, s, s');
    VerdictsOutside(c, s, s');
    LedgerOutside(c, s, s');
    NoticesOutside(c, s, s');
    PacingOutside(c, s, s');
    HistoryOutside(c, s, s');
    WorksOutside(c, s, s');
  }

  // ---------------------------------------------------------------------------
  // Jobs, and runs.
  // ---------------------------------------------------------------------------

  lemma InvMakesLocal(c: Config, s: State, t: TaskId, choice: Choice)
    requires Inv(c, s) && Enabled(c, s, t, choice)
    ensures Local(c, s, t, s.tasks[t], Decide(c, s, t, choice))
  {
    UnitsOwn(c, s, t);
    assert Shape(c, s.tasks[t]);
    DecisionsAreLocal(c, s, t, choice);
  }

  lemma InvAct(c: Config, s: State, t: TaskId, m: Move)
    requires c.Valid() && Inv(c, s) && t < |s.tasks| && Local(c, s, t, s.tasks[t], m)
    ensures Inv(c, Apply(c, s, t, m))
  {
    ShapesKept(c, s, t, m);
    assert Shape(c, s.tasks[t]) && Shape(c, m.next);
    QueuesKept(c, s, t, m);
    TableKept(c, s, t, m);
    VerdictsKept(c, s, t, m);
    UnitsKept(c, s, t, m);
    TotalsKept(c, s, t, m);
    NoticesKept(c, s, t, m);
    CausalKept(c, s, t, m);
    DutiesKept(c, s, t, m);
    PacesKept(c, s, t, m);
    RemembersKept(c, s, t, m);
    AnswersKept(c, s, t, m);
    CachesKept(c, s, t, m);
    DeparturesKept(c, s, t, m);
    OwnersKept(c, s, t, m);
    WorksKept(c, s, t, m);
  }

  lemma InvStep(c: Config, s: State, event: Event, s': State)
    requires c.Valid() && Inv(c, s) && Step(c, s, event, s')
    ensures Inv(c, s')
  {
    if event.Act? {
      InvMakesLocal(c, s, event.t, event.choice);
      InvAct(c, s, event.t, Decide(c, s, event.t, event.choice));
    } else {
      StepsOutside(c, s, event, s');
      InvOutside(c, s, s');
    }
  }

  /** Every state of every run satisfies every invariant. */
  lemma {:induction false} InvAlways(c: Config, states: seq<State>, events: seq<Event>, i: nat)
    requires c.Valid() && IsRun(c, states, events) && i < |states|
    ensures Inv(c, states[i])
  {
    if i == 0 {
      InitInv(c, states[0]);
    } else {
      InvAlways(c, states, events, i - 1);
      NextInv(c, states, events, i - 1);
    }
  }

  lemma NextInv(c: Config, states: seq<State>, events: seq<Event>, i: nat)
    requires c.Valid() && IsRun(c, states, events) && i < |events| && Inv(c, states[i])
    ensures Inv(c, states[i + 1])
  {
    assert Step(c, states[i], events[i], states[i + 1]);
    InvStep(c, states[i], events[i], states[i + 1]);
  }

  /** A step of a run in which a job acts, as the move it decided. */
  lemma JobOf(c: Config, states: seq<State>, events: seq<Event>, i: nat) returns (m: Move)
    requires c.Valid() && IsRun(c, states, events) && i < |events| && events[i].Act?
    ensures Inv(c, states[i]) && events[i].t < |states[i].tasks|
    ensures Enabled(c, states[i], events[i].t, events[i].choice) && m == Decide(c, states[i], events[i].t, events[i].choice)
    ensures Local(c, states[i], events[i].t, states[i].tasks[events[i].t], m)
    ensures states[i + 1] == Apply(c, states[i], events[i].t, m)
  {
    InvAlways(c, states, events, i);
    assert Step(c, states[i], events[i], states[i + 1]);
    InvMakesLocal(c, states[i], events[i].t, events[i].choice);
    m := Decide(c, states[i], events[i].t, events[i].choice);
  }

  /** A step of a run in which no job acts. */
  lemma PauseOf(c: Config, states: seq<State>, events: seq<Event>, i: nat)
    requires c.Valid() && IsRun(c, states, events) && i < |events| && !events[i].Act?
    ensures Inv(c, states[i]) && Outside(c, states[i], states[i + 1])
  {
    InvAlways(c, states, events, i);
    assert Step(c, states[i], events[i], states[i + 1]);
    StepsOutside(c, states[i], events[i], states[i + 1]);
  }
}
