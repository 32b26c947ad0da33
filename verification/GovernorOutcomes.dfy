/** What a call settles with is what happened: a refusal sent nothing, and a delivery is the answer to its one request. */
module GovernorOutcomes {
  import opened Prelude
  import opened HostScheduling
  import opened CircuitBreaker
  import opened Governor
  import opened GovernorMoves
  import opened GovernorTables
  import opened GovernorLedger
  import opened GovernorHistory
  import GovernorPacing
  import opened GovernorRuns
  import Stores = AllowanceStores

  /** How a send ended, for a task whose send has ended and whose retrieval has not yet landed. */
  function Ending(p: Point): Option<SendResult> {
    match p
    case Landing(result) => Some(result)
    case Done(outcome) =>
      (match outcome
       case Delivered(answer) => Some(Left(answer))
       case Refused(reason) => Some(if reason.TransportError? then Left(NetworkFailure) else Stopped(reason)))
    case _ => None
  }

  /** The refusals of the governor's own gates at a send: all a robots retrieval can be refused for. */
  predicate Gate(reason: Reason) { reason.SourcePaused? || reason.AllowanceExhausted? || reason.HostHeld? || reason.RobotsStale? }

  /**
   What is true when task `task` ends a send refused for `reason`: the reason holds now, or is one
   it came by in an earlier job.
   */
  ghost predicate Explained(c: Config, s: State, task: Task, reason: Reason) {
    match reason
    case SourcePaused => Paused(BreakerOf(s, task.source), s.now) || task.at == GaveBack(Some(SourcePaused)) || Inherited(task, reason)
    case AllowanceExhausted =>
      || (Announcing(task.at) && task.at.next.ThenRefuse?)
      || (task.at.Reserving? && c.Metered(task.source) &&
          Stores.View(s.rows, KeyAt(task, task.at.period)).consumed >= c.Allowance(task.source).limit)
      || Inherited(task, reason)
    case HostHeld => (OutOfRounds(task) && HostOf(s, task.Host()).holdUntil > s.now) || Inherited(task, reason)
    case RobotsStale =>
      || (OutOfRounds(task) && HostOf(s, task.Host()).holdUntil <= s.now &&
          if task.at.AtBoundary? then !BoundaryHolds(c, s, task) else task.at.why == None)
      || Inherited(task, reason)
    case RobotsUnreachable => task.at.Deciding? && task.at.found.Learned? && task.at.found.entry.verdict.Unreachable?
    case RobotsDisallowed =>
      && task.at.Deciding? && task.at.found.Learned? && task.at.found.entry.verdict.Rules?
      && !Allows(c, task.at.found.entry.verdict, task.path)
    case _ => false
  }

  /** The retrieval a request waited for was refused for that reason. */
  predicate Inherited(task: Task, reason: Reason) { task.at.Deciding? && task.at.found == Declined(reason) }

  predicate OutOfRounds(task: Task) { task.round == MAX_BOUNDARY_WAITS && (task.at.AtBoundary? || task.at.GaveBack?) }

  /** A refusal gives the reason that holds, before anything left; anything else carries the answer. */
  ghost predicate EndsHonestly(c: Config, s: State, task: Task, m: Move) {
    && (Ending(m.next.at).Some? ==>
          match Ending(m.next.at).value
          case Left(answer) => (task.at.Settled? || task.at.PauseNoticing?) && AnswerAt(task.at) == Some(answer) && !m.effect.Departs?
          case Stopped(reason) => BeforeWire(task.at) && !m.effect.Departs? && Explained(c, s, task, reason))
    && (m.next.at.Deciding? ==> task.at.Joined? || m.next.at.found.Learned?)
    && (WhyAt(m.next.at).Some? ==> WhyAt(m.next.at).value.SourcePaused? || WhyAt(m.next.at) == WhyAt(task.at))
    && (m.next.at.PauseNoticing? ==> task.at.Settled? && m.next.at.result.Left?)
    && GivesBackFor(c, s, task, m) && PeriodsBegin(c, s, task, m)
  }

  /** A unit is given back, or a round given up with no unit, because of a pause or a boundary that does not hold. */
  predicate GivesBackFor(c: Config, s: State, task: Task, m: Move) {
    Returning(m.next.at) ==>
      || (Returning(task.at) && WhyAt(m.next.at) == WhyAt(task.at))
      || (task.at.Holding? && WhyAt(m.next.at) == Some(SourcePaused) && Paused(BreakerOf(s, task.source), s.now))
      || (task.at.Holding? && WhyAt(m.next.at) == None && !BoundaryHolds(c, s, task))
  }

  predicate Returning(p: Point) { p.GivingBack? || p.GaveBack? }

  /** A check, and a reservation, is for the period that holds the instant it starts at. */
  predicate PeriodsBegin(c: Config, s: State, task: Task, m: Move) {
    && (m.next.at.Reserving? ==> PeriodAt(task.at) == None)
    && (PeriodAt(m.next.at).Some? ==>
          || PeriodAt(m.next.at) == PeriodAt(task.at)
          || (c.Metered(task.source) && PeriodAt(m.next.at) == Some(PeriodStart(s.now, c.Allowance(task.source).periodMs))))
  }

  function PeriodAt(p: Point): Option<int> {
    match p
    case Reading(period) => Some(period)
    case Checked(period, _) => Some(period)
    case Reserving(period) => Some(period)
    case _ => None
  }

  /** Why a unit is being given back, when it is not for another round. */
  function WhyAt(p: Point): Option<Reason> {
    match p
    case GivingBack(_, why) => why
    case GaveBack(why) => why
    case _ => None
  }

  predicate EndShape(task: Task) {
    && (WhyAt(task.at).Some? ==> WhyAt(task.at).value.SourcePaused?)
    && (task.at.PauseNoticing? ==> task.at.result.Left?)
    && (task.at.Deciding? && task.at.found.Declined? ==> Gate(task.at.found.reason))
    && (task.at.Landed? && task.at.found.Declined? ==> Gate(task.at.found.reason) && task.departure == None)
    && (task.at.Landing? && task.at.result.Stopped? ==> Gate(task.at.result.reason))
  }

  lemma CheckedEnds(c: Config, s: State, task: Task)
    requires Shape(c, task) && task.at.Checked?
    ensures EndsHonestly(c, s, task, AtChecked(c, task))
  {
  }

  lemma AskingEnds(c: Config, s: State, task: Task)
    requires Shape(c, task) && task.at.Asking?
    ensures EndsHonestly(c, s, task, AtAsking(c, s, task))
  {
  }

  lemma LandingEnds(c: Config, s: State, task: Task)
    requires Shape(c, task) && task.at.Landing?
    ensures EndsHonestly(c, s, task, AtLanding(s, task))
  {
  }

  lemma DecidingEnds(c: Config, s: State, task: Task)
    requires Shape(c, task) && EndShape(task) && task.at.Deciding?
    ensures EndsHonestly(c, s, task, AtDeciding(c, s, task))
  {
    if task.at.found.Learned? {
      LearningEnds(c, s, task);
    }
  }

  lemma LearningEnds(c: Config, s: State, task: Task)
    requires Shape(c, task) && EndShape(task) && task.at.Deciding? && task.at.found.Learned?
    ensures EndsHonestly(c, s, task, AtDeciding(c, s, task))
  {
    var entry := task.at.found.entry;
    if entry.verdict.Unreachable? || !Allows(c, entry.verdict, task.path) {
      ForbiddenEnds(c, s, task);
    } else if task.round > 0 {
      AllowedEnds(c, s, task, Some(entry));
    }
  }

  lemma ForbiddenEnds(c: Config, s: State, task: Task)
    requires Shape(c, task) && task.at.Deciding? && task.at.found.Learned?
    requires task.at.found.entry.verdict.Unreachable? || !Allows(c, task.at.found.entry.verdict, task.path)
    ensures EndsHonestly(c, s, task, AtDeciding(c, s, task))
  {
  }

  lemma AllowedEnds(c: Config, s: State, task: Task, decided: Option<Entry>)
    requires Shape(c, task) && task.at.Deciding?
    ensures EndsHonestly(c, s, task, AskGates(c, s, task.(decided := decided)))
  {
  }

  lemma GrantedEnds(c: Config, s: State, task: Task)
    requires Shape(c, task) && task.at.Granted?
    ensures EndsHonestly(c, s, task, AtGranted(c, s, task))
  {
  }

  lemma BoundaryEnds(c: Config, s: State, task: Task)
    requires Shape(c, task) && task.at.AtBoundary?
    ensures EndsHonestly(c, s, task, AtTheBoundary(c, s, task))
  {
  }

  lemma ReservingEnds(c: Config, s: State, task: Task)
    requires c.Valid() && Shape(c, task) && task.at.Reserving?
    ensures EndsHonestly(c, s, task, AtReserving(c, s, task))
  {
  }

  lemma HoldingEnds(c: Config, s: State, task: Task)
    requires Shape(c, task) && task.at.Holding?
    ensures EndsHonestly(c, s, task, AtHolding(c, s, task))
  {
  }

  lemma GaveBackEnds(c: Config, s: State, task: Task)
    requires Shape(c, task) && EndShape(task) && task.at.GaveBack?
    ensures EndsHonestly(c, s, task, AtGaveBack(s, task))
  {
  }

  lemma OnWireEnds(c: Config, s: State, task: Task, answer: Answer)
    requires Shape(c, task) && task.at.OnWire?
    ensures EndsHonestly(c, s, task, AtOnWire(c, s, task, answer))
  {
  }

  lemma MarkingEnds(c: Config, s: State, task: Task)
    requires Shape(c, task) && task.at.Marking?
    ensures EndsHonestly(c, s, task, AtMarking(c, s, task))
  {
  }

  lemma NoticingEnds(c: Config, s: State, task: Task)
    requires Shape(c, task) && task.at.Noticing?
    ensures EndsHonestly(c, s, task, AtNoticing(c, s, task))
  {
  }

  lemma SettledEnds(c: Config, s: State, task: Task)
    requires Shape(c, task) && EndShape(task) && (task.at.Settled? || task.at.PauseNoticing?)
    ensures EndsHonestly(c, s, task, if task.at.Settled? then AtSettled(c, s, task) else AtPauseNoticing(task))
  {
  }

  lemma JobsEndHonestly(c: Config, s: State, t: TaskId, choice: Choice)
    requires c.Valid() && Enabled(c, s, t, choice) && Shape(c, s.tasks[t]) && EndShape(s.tasks[t])
    ensures EndsHonestly(c, s, s.tasks[t], Decide(c, s, t, choice))
  {
    var task := s.tasks[t];
    match task.at {
      case Reading(_) => WaitingEnds(c, s, t, choice);
      case Checked(_, _) => CheckedEnds(c, s, task);
      case Asking => AskingEnds(c, s, task);
      case Joined(_, _) => WaitingEnds(c, s, t, choice);
      case Deciding(_) => DecidingEnds(c, s, task);
      case Queued => WaitingEnds(c, s, t, choice);
      case Pacing(_, _) => WaitingEnds(c, s, t, choice);
      case Granted => GrantedEnds(c, s, task);
      case AtBoundary => BoundaryEnds(c, s, task);
      case _ => LaterJobsEnd(c, s, t, choice);
    }
  }

  lemma WaitingEnds(c: Config, s: State, t: TaskId, choice: Choice)
    requires Enabled(c, s, t, choice) && Shape(c, s.tasks[t])
    requires s.tasks[t].at.Reading? || s.tasks[t].at.Joined? || s.tasks[t].at.Queued? || s.tasks[t].at.Pacing?
    ensures EndsHonestly(c, s, s.tasks[t], Decide(c, s, t, choice))
  {
  }

  /** The points from the reservation on. */
  lemma LaterJobsEnd(c: Config, s: State, t: TaskId, choice: Choice)
    requires c.Valid() && Enabled(c, s, t, choice) && Shape(c, s.tasks[t]) && EndShape(s.tasks[t])
    requires !BeforeReserving(s.tasks[t].at)
    ensures EndsHonestly(c, s, s.tasks[t], Decide(c, s, t, choice))
  {
    var task := s.tasks[t];
    match task.at {
      case Reserving(_) => ReservingEnds(c, s, task);
      case Holding(_) => HoldingEnds(c, s, task);
      case GivingBack(_, _) =>
      case GaveBack(_) => GaveBackEnds(c, s, task);
      case OnWire(_) => OnWireEnds(c, s, task, choice.answer);
      case Marking(_, _) => MarkingEnds(c, s, task);
      case Noticing(_, _) => NoticingEnds(c, s, task);
      case Settled(_, _) => SettledEnds(c, s, task);
      case PauseNoticing(_) => SettledEnds(c, s, task);
      case Landing(_) => LandingEnds(c, s, task);
    }
  }

  predicate BeforeReserving(p: Point) {
    p.Reading? || p.Checked? || p.Asking? || p.Joined? || p.Deciding? || p.Queued? || p.Pacing? || p.Granted? || p.AtBoundary?
  }

  // ---------------------------------------------------------------------------
  // In every reachable state.
  // ---------------------------------------------------------------------------

  predicate OutcomeOk(s: State, t: TaskId)
    requires t < |s.tasks|
  {
    var task := s.tasks[t];
    && EndShape(task)
    && (Ending(task.at).Some? ==>
          match Ending(task.at).value
          case Left(answer) =>
            task.departure.Some? && task.departure.value < |s.wire| && s.wire[task.departure.value].answer == Some(answer)
          case Stopped(_) => task.departure == None)
  }

  ghost predicate Outcomes(s: State) { forall t :: 0 <= t < |s.tasks| ==> OutcomeOk(s, t) }

  lemma OutcomesKept(c: Config, s: State, t: TaskId, m: Move)
    requires t < |s.tasks| && Inv(c, s) && Outcomes(s)
    requires Local(c, s, t, s.tasks[t], m) && EndsHonestly(c, s, s.tasks[t], m)
    ensures Outcomes(Apply(c, s, t, m))
  {
    var s' := Apply(c, s, t, m);
    assert Shape(c, s.tasks[t]);
    forall u | 0 <= u < |s'.tasks| ensures OutcomeOk(s', u) {
      OutcomeKept(c, s, t, m, u);
    }
  }

  lemma OutcomeKept(c: Config, s: State, t: TaskId, m: Move, u: TaskId)
    requires t < |s.tasks| && Shapes(c, s) && Table(s) && Answers(s) && Outcomes(s) && Shape(c, m.next)
    requires SameCall(s.tasks[t], m.next) && LocalTable(c, s, s.tasks[t], m) && LocalUnit(c, s, s.tasks[t], m)
    requires LocalAnswer(s.tasks[t], m) && EndsHonestly(c, s, s.tasks[t], m)
    requires u < |Apply(c, s, t, m).tasks|
    ensures OutcomeOk(Apply(c, s, t, m), u)
  {
    TasksAfter(c, s, t, m);
    assert AnswerOk(s, t);
    if u == t {
      assert Shape(c, s.tasks[t]) && OutcomeOk(s, t) && JoinedOk(s, t);
      assert s.tasks[t].at.Joined? ==> OutcomeOk(s, s.tasks[t].at.retrieval);
      ActorOutcomeKept(c, s, t, m);
    } else if u < |s.tasks| {
      assert OutcomeOk(s, u) && AnswerOk(s, u);
      OtherOutcomeKept(c, s, t, m, u);
    }
  }

  lemma ActorOutcomeKept(c: Config, s: State, t: TaskId, m: Move)
    requires t < |s.tasks| && Shape(c, s.tasks[t]) && Shape(c, m.next) && AnswerOk(s, t) && OutcomeOk(s, t)
    requires s.tasks[t].at.Joined? ==> s.tasks[t].at.retrieval < |s.tasks| && OutcomeOk(s, s.tasks[t].at.retrieval)
    requires SameCall(s.tasks[t], m.next) && LocalTable(c, s, s.tasks[t], m) && LocalUnit(c, s, s.tasks[t], m)
    requires LocalAnswer(s.tasks[t], m) && EndsHonestly(c, s, s.tasks[t], m)
    ensures t < |Apply(c, s, t, m).tasks| && OutcomeOk(Apply(c, s, t, m), t)
  {
    TasksAfter(c, s, t, m);
    GrantsAfter(c, s, t, m);
  }

  lemma OtherOutcomeKept(c: Config, s: State, t: TaskId, m: Move, u: TaskId)
    requires t < |s.tasks| && u < |s.tasks| && u != t && AnswerOk(s, t) && AnswerOk(s, u) && OutcomeOk(s, u)
    requires LocalUnit(c, s, s.tasks[t], m)
    ensures u < |Apply(c, s, t, m).tasks| && OutcomeOk(Apply(c, s, t, m), u)
  {
    TasksAfter(c, s, t, m);
    GrantsAfter(c, s, t, m);
  }

  lemma OutcomesOutside(c: Config, s: State, s': State)
    requires Outside(c, s, s') && Outcomes(s)
    ensures Outcomes(s')
  {
    forall t | 0 <= t < |s'.tasks| ensures OutcomeOk(s', t) {
      if t < |s.tasks| {
        assert OutcomeOk(s, t);
      } else {
        assert Entered(c, s'.tasks[t]);
      }
    }
  }

  lemma {:induction false} OutcomesAlways(c: Config, states: seq<State>, events: seq<Event>, i: nat)
    requires c.Valid() && IsRun(c, states, events) && i < |states|
    ensures Outcomes(states[i])
  {
    if i > 0 {
      OutcomesAlways(c, states, events, i - 1);
      NextOutcomes(c, states, events, i - 1);
    }
  }

  lemma NextOutcomes(c: Config, states: seq<State>, events: seq<Event>, i: nat)
    requires c.Valid() && IsRun(c, states, events) && i < |events| && Outcomes(states[i])
    ensures Outcomes(states[i + 1])
  {
    if events[i].Act? {
      var m := HonestJobOf(c, states, events, i);
      OutcomesKept(c, states[i], events[i].t, m);
    } else {
      PauseOf(c, states, events, i);
      OutcomesOutside(c, states[i], states[i + 1]);
    }
  }

  lemma HonestJobOf(c: Config, states: seq<State>, events: seq<Event>, i: nat) returns (m: Move)
    requires c.Valid() && IsRun(c, states, events) && i < |events| && events[i].Act? && Outcomes(states[i])
    ensures Inv(c, states[i]) && events[i].t < |states[i].tasks| && states[i + 1] == Apply(c, states[i], events[i].t, m)
    ensures Local(c, states[i], events[i].t, states[i].tasks[events[i].t], m)
    ensures EndsHonestly(c, states[i], states[i].tasks[events[i].t], m)
    ensures Enabled(c, states[i], events[i].t, events[i].choice) && m == Decide(c, states[i], events[i].t, events[i].choice)
  {
    m := JobOf(c, states, events, i);
    assert Shape(c, states[i].tasks[events[i].t]) && OutcomeOk(states[i], events[i].t);
    JobsEndHonestly(c, states[i], events[i].t, events[i].choice);
  }

  /**
   AN OUTCOME IS WHAT HAPPENED: a settled request that reports an answer, or the
   lack of one, left the process exactly once and was answered so; one refused for
   any other reason never left.
   */
  lemma OutcomeIsWhatHappened(c: Config, states: seq<State>, events: seq<Event>, i: nat, t: TaskId)
    requires c.Valid() && IsRun(c, states, events) && i < |states| && t < |states[i].tasks| && states[i].tasks[t].at.Done?
    ensures var s := states[i];
            match s.tasks[t].at.outcome
            case Delivered(answer) => exists k: nat :: OnlyDeparture(s, t, k) && s.wire[k].answer == Some(answer)
            case Refused(TransportError) => exists k: nat :: OnlyDeparture(s, t, k) && s.wire[k].answer == Some(NetworkFailure)
            case Refused(_) => forall k :: 0 <= k < |s.wire| ==> s.wire[k].task != t
  {
    var s := states[i];
    OutcomesAlways(c, states, events, i);
    InvAlways(c, states, events, i);
    assert OutcomeOk(s, t) && AnswerOk(s, t);
    var d := s.tasks[t].departure;
    forall k | 0 <= k < |s.wire| && s.wire[k].task == t ensures d == Some(k) {
      assert OwnerOk(s, k);
    }
    assert d.Some? ==> OnlyDeparture(s, t, d.value);
  }

  /** Departure `k` is task `t`'s, and its only one. */
  ghost predicate OnlyDeparture(s: State, t: TaskId, k: nat) {
    k < |s.wire| && forall j :: 0 <= j < |s.wire| ==> (s.wire[j].task == t <==> j == k)
  }

  // ---------------------------------------------------------------------------
  // No call ends before the hold its answer asked for is recorded.
  // ---------------------------------------------------------------------------

  predicate Ended(p: Point) { p.PauseNoticing? || p.Landing? || p.Landed? || p.Done? }

  ghost predicate HeldFor(s: State, h: Host, until: int) { exists j :: 0 <= j < |s.holds| && HoldCovers(s.holds[j], h, until) }

  predicate HoldCovers(hold: PlacedHold, h: Host, until: int) { hold.host == h && hold.until >= until }

  ghost predicate HoldOk(s: State, t: TaskId)
    requires t < |s.tasks|
  {
    var task := s.tasks[t];
    task.departure.Some? && task.departure.value < |s.wire| && Ended(task.at) ==>
      var d := s.wire[task.departure.value];
      d.answer.Some? && d.answer.value.Response? && d.answer.value.holdMs > 0 ==>
        HeldFor(s, task.Host(), d.at + d.answer.value.holdMs)
  }

  lemma HoldsOnlyGrow(c: Config, s: State, t: TaskId, m: Move, h: Host, until: int)
    requires t < |s.tasks| && HeldFor(s, h, until)
    ensures HeldFor(Apply(c, s, t, m), h, until)
  {
    GovernorPacing.HostsAfter(c, s, t, m);
    var s' := Apply(c, s, t, m);
    var j :| 0 <= j < |s.holds| && HoldCovers(s.holds[j], h, until);
    assert s'.holds[j] == s.holds[j];
  }

  lemma OtherHoldKept(c: Config, s: State, t: TaskId, m: Move, u: TaskId)
    requires t < |s.tasks| && u < |s.tasks| && u != t && AnswerOk(s, t) && AnswerOk(s, u) && HoldOk(s, u)
    requires LocalUnit(c, s, s.tasks[t], m)
    ensures u < |Apply(c, s, t, m).tasks| && HoldOk(Apply(c, s, t, m), u)
  {
    TasksAfter(c, s, t, m);
    GrantsAfter(c, s, t, m);
    var task := s.tasks[u];
    if task.departure.Some? && Ended(task.at) {
      var d := s.wire[task.departure.value];
      if d.answer.Some? && EarnsHold(d.answer.value) {
        HoldsOnlyGrow(c, s, t, m, task.Host(), d.at + d.answer.value.holdMs);
      }
    }
  }

  /** The job after the settlement records the hold its answer earned, from that very instant. */
  lemma FinishRecordsHold(c: Config, s: State, t: TaskId, m: Move)
    requires t < |s.tasks| && s.tasks[t].at.Settled? && AnswerOk(s, t) && SameCall(s.tasks[t], m.next)
    requires LocalUnit(c, s, s.tasks[t], m)
    requires s.tasks[t].departure.Some? ==> s.tasks[t].departure.value < |s.wire| && s.wire[s.tasks[t].departure.value].at <= s.now
    ensures t < |Apply(c, s, t, m).tasks| && HoldOk(Apply(c, s, t, m), t)
  {
    TasksAfter(c, s, t, m);
    GrantsAfter(c, s, t, m);
    var s', answer := Apply(c, s, t, m), s.tasks[t].at.answer;
    if EarnsHold(answer) {
      assert s'.holds[|s.holds|] == PlacedHold(m.next.Host(), s.now + answer.holdMs);
    }
  }

  lemma ActorHoldKept(c: Config, s: State, t: TaskId, m: Move)
    requires t < |s.tasks| && Shape(c, s.tasks[t]) && AnswerOk(s, t) && HoldOk(s, t)
    requires SameCall(s.tasks[t], m.next) && LocalUnit(c, s, s.tasks[t], m) && LocalTable(c, s, s.tasks[t], m)
    requires LocalAnswer(s.tasks[t], m) && EndsHonestly(c, s, s.tasks[t], m)
    requires s.tasks[t].departure.Some? ==> s.tasks[t].departure.value < |s.wire| && s.wire[s.tasks[t].departure.value].at <= s.now
    ensures t < |Apply(c, s, t, m).tasks| && HoldOk(Apply(c, s, t, m), t)
  {
    TasksAfter(c, s, t, m);
    var task := s.tasks[t];
    if task.at.Settled? {
      FinishRecordsHold(c, s, t, m);
    } else if Ended(m.next.at) {
      GrantsAfter(c, s, t, m);
      if task.departure.Some? && Ended(task.at) {
        var d := s.wire[task.departure.value];
        if d.answer.Some? && EarnsHold(d.answer.value) {
          HoldsOnlyGrow(c, s, t, m, task.Host(), d.at + d.answer.value.holdMs);
        }
      }
    }
  }

  ghost predicate HoldsRecorded(s: State) { forall t :: 0 <= t < |s.tasks| ==> HoldOk(s, t) }

  lemma HoldsRecordedKept(c: Config, s: State, t: TaskId, m: Move)
    requires t < |s.tasks| && Inv(c, s) && HoldsRecorded(s)
    requires Local(c, s, t, s.tasks[t], m) && EndsHonestly(c, s, s.tasks[t], m)
    ensures HoldsRecorded(Apply(c, s, t, m))
  {
    var s' := Apply(c, s, t, m);
    forall u | 0 <= u < |s'.tasks| ensures HoldOk(s', u) {
      HoldKept(c, s, t, m, u);
    }
  }

  lemma HoldKept(c: Config, s: State, t: TaskId, m: Move, u: TaskId)
    requires t < |s.tasks| && Shapes(c, s) && Answers(s) && Departures(c, s) && HoldsRecorded(s)
    requires SameCall(s.tasks[t], m.next) && LocalTable(c, s, s.tasks[t], m) && LocalUnit(c, s, s.tasks[t], m)
    requires LocalAnswer(s.tasks[t], m) && EndsHonestly(c, s, s.tasks[t], m)
    requires u < |Apply(c, s, t, m).tasks|
    ensures HoldOk(Apply(c, s, t, m), u)
  {
    TasksAfter(c, s, t, m);
    assert AnswerOk(s, t);
    if u == t {
      assert Shape(c, s.tasks[t]) && HoldOk(s, t);
      assert s.tasks[t].departure.Some? ==> DepartureClean(c, s, s.tasks[t].departure.value);
      ActorHoldKept(c, s, t, m);
    } else if u < |s.tasks| {
      assert AnswerOk(s, u) && HoldOk(s, u);
      OtherHoldKept(c, s, t, m, u);
    }
  }

  lemma NextHoldsRecorded(c: Config, states: seq<State>, events: seq<Event>, i: nat)
    requires c.Valid() && IsRun(c, states, events) && i < |events| && Outcomes(states[i]) && HoldsRecorded(states[i])
    ensures HoldsRecorded(states[i + 1])
  {
    if events[i].Act? {
      var m := HonestJobOf(c, states, events, i);
      HoldsRecordedKept(c, states[i], events[i].t, m);
    } else {
      PauseOf(c, states, events, i);
      HoldsOutside(c, states[i], states[i + 1]);
    }
  }

  lemma HoldsOutside(c: Config, s: State, s': State)
    requires Outside(c, s, s') && HoldsRecorded(s)
    ensures HoldsRecorded(s')
  {
    forall t | 0 <= t < |s'.tasks| ensures HoldOk(s', t) {
      if t < |s.tasks| {
        assert HoldOk(s, t);
      }
    }
  }

  /** NO HOLD IS LOST: once a call that left has ended, the silence its answer asked for is recorded against the host. */
  lemma {:induction false} NoHoldIsLost(c: Config, states: seq<State>, events: seq<Event>, i: nat)
    requires c.Valid() && IsRun(c, states, events) && i < |states|
    ensures HoldsRecorded(states[i])
  {
    if i > 0 {
      NoHoldIsLost(c, states, events, i - 1);
      OutcomesAlways(c, states, events, i - 1);
      NextHoldsRecorded(c, states, events, i - 1);
    }
  }
}
