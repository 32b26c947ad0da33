/**
 What the jobs of the governor can decide, point by point: the local half of every
 invariant. Each `Local...` predicate below lists facts about one move, whatever the
 other tasks do; `DecisionsAreLocal` says every enabled job's move has them all; and
 the invariants of the modules beside this one are proved from these facts alone,
 never from the code of a job.
 */
module GovernorMoves {
  import opened Prelude
  import opened HostScheduling
  import opened Governor
  import Stores = AllowanceStores

  /** Points a send can be at before its request has left. */
  predicate BeforeWire(p: Point) {
    match p
    case Marking(_, next) => next.ThenRefuse?
    case Noticing(_, next) => next.ThenRefuse?
    case OnWire(_) => false
    case Settled(_, _) => false
    case PauseNoticing(_) => false
    case Landing(_) => false
    case Landed(_) => false
    case Done(_) => false
    case _ => true
  }

  function UnitOf(next: Then): Option<nat> {
    match next
    case ThenRefuse => None
    case ThenStop(unit, _) => Some(unit)
    case ThenSettled(unit, _) => Some(unit)
  }

  /** The unit a task is responsible for at this point. */
  function UnitAt(p: Point): Option<nat> {
    match p
    case Holding(unit) => unit
    case GivingBack(back, _) => Some(back)
    case OnWire(unit) => unit
    case Marking(_, next) => UnitOf(next)
    case Noticing(_, next) => UnitOf(next)
    case Settled(unit, _) => unit
    case _ => None
  }

  /** The unit is held and the request has not left. */
  predicate PendingAt(p: Point) { p.Holding? || p.GivingBack? }

  predicate InSend(p: Point) {
    match p
    case Queued | Pacing(_, _) | Granted | AtBoundary | Reserving(_) | Holding(_) | GivingBack(_, _) | GaveBack(_) => true
    case OnWire(_) | Settled(_, _) | PauseNoticing(_) => true
    case _ => false
  }

  predicate InQueue(p: Point) { p.Queued? || p.Pacing? }

  /** Points between a round's answer of gate 5 and the wire. */
  predicate Decided(p: Point) { p.Reading? || p.Checked? || p.AtBoundary? || p.Reserving? || p.Holding? }

  // ---------------------------------------------------------------------------
  // The shape of one task, whatever the others do.
  // ---------------------------------------------------------------------------

  predicate Shape(c: Config, task: Task) {
    && task.round <= MAX_BOUNDARY_WAITS
    && (!task.at.Done? ==> task.Host() in c.hosts && task.source in c.sources)
    && (task.IsRobots() ==> task.path == "/robots.txt")
    && ((task.at.Asking? || task.at.Joined? || task.at.Deciding?) && c.hosts[task.Host()].minDelayMs >= c.cacheBoundMs ==>
          task.round <= 1)
    && (task.IsRobots() ==> task.round >= 1 && !task.at.Asking? && !task.at.Joined? && !task.at.Deciding? && !task.at.Done?)
    && (!task.IsRobots() ==> !task.at.Landing? && !task.at.Landed?)
    && (InSend(task.at) ==> task.round >= 1)
    && (BeforeWire(task.at) ==> task.departure == None)
    && (InQueue(task.at) || task.at.Granted? ==> task.decided == None && !task.asked)
    && (task.at.Asking? || (task.round == 0 && !task.at.Joined? && !task.at.Deciding? && !task.at.Done?) ==> !task.asked)
    && (!task.IsRobots() && (task.round == 1 || c.CanRefresh(task.Host())) && task.round >= 1 && Decided(task.at) ==> task.decided.Some?)
    && PointShape(c, task)
  }

  predicate PointShape(c: Config, task: Task) {
    match task.at
    case Reading(_) => c.Metered(task.source)
    case Checked(_, _) => c.Metered(task.source)
    case Reserving(period) => c.Metered(task.source) && Aligned(period, c.Allowance(task.source).periodMs)
    case GivingBack(_, _) => c.Metered(task.source)
    case Pacing(delayMs, _) =>
      task.Host() in c.hosts &&
      c.hosts[task.Host()].minDelayMs <= delayMs <= c.hosts[task.Host()].minDelayMs + c.hosts[task.Host()].jitterMs
    case Holding(unit) => unit.Some? <==> c.Metered(task.source)
    case OnWire(unit) => task.departure.Some? && (unit.Some? <==> c.Metered(task.source))
    case Settled(unit, _) => task.departure.Some? && (unit.Some? <==> c.Metered(task.source))
    case Marking(notice, next) => NoticeShape(c, task, notice, next)
    case Noticing(notice, next) => NoticeShape(c, task, notice, next)
    case PauseNoticing(result) => task.departure.Some? && result.Left?
    case Landing(result) => result.Left? ==> task.departure.Some?
    case Landed(found) => found.Learned? ==> task.departure.Some?
    case _ => true
  }

  predicate NoticeShape(c: Config, task: Task, notice: Notice, next: Then) {
    && c.Metered(task.source) && notice.key.source == task.source
    && (notice.kind.Warn? <==> next.ThenStop?)
    && (!next.ThenRefuse? ==> task.departure.Some? && task.round >= 1)
  }

  /** The unit a task holds was granted for its own source. */
  predicate OwnUnit(s: State, task: Task) {
    UnitAt(task.at).Some? ==> UnitAt(task.at).value < |s.grants| && s.grants[UnitAt(task.at).value].key.source == task.source
  }

  predicate SameCall(a: Task, b: Task) {
    a.source == b.source && a.origin == b.origin && a.path == b.path && a.parent == b.parent
  }

  // ---------------------------------------------------------------------------
  // What a move may be. Each of these is a list of facts about one move; together
  // they are all the invariants need to know about what the jobs decide.
  // ---------------------------------------------------------------------------

  ghost predicate Local(c: Config, s: State, t: TaskId, task: Task, m: Move) {
    && !task.Finished() && SameCall(task, m.next) && Shape(c, m.next)
    && LocalQueue(c, s, t, task, m)
    && LocalTable(c, s, task, m)
    && LocalVerdict(c, s, task, m)
    && LocalUnit(c, s, task, m)
    && LocalNotice(c, s, task, m)
    && LocalAnswer(task, m)
  }

  /** Rounds are counted by calls of the scheduler, and only the head of a queue waits or is released. */
  predicate LocalQueue(c: Config, s: State, t: TaskId, task: Task, m: Move) {
    && (m.next.at.Queued? <==> m.effect.CallsScheduler?)
    && (m.effect.CallsScheduler? ==> !InQueue(task.at))
    && m.next.round == task.round + (if m.effect.CallsScheduler? then 1 else 0)
    && (task.at.Queued? ==> m.next.at.Pacing? && m.effect.NoEffect? && AtHead(s, t, task.Host()))
    && (m.next.at.Pacing? ==> task.at.Queued?)
    && (m.effect.Releases? <==> task.at.Pacing?)
    && (task.at.Pacing? ==> CanRelease(c, s, t, task) && m.next.at.Granted?)
  }

  function FoundBy(now: int, task: Task, result: SendResult): Retrieval {
    match result
    case Stopped(reason) => Declined(reason)
    case Left(answer) => Learned(EntryFrom(now, task, answer))
  }

  /** How requests join, start, land and leave robots retrievals. */
  predicate LocalTable(c: Config, s: State, task: Task, m: Move) {
    && (task.at.Joined? ==>
          && CanJoin(s, task)
          && m.next.at == Deciding(s.tasks[task.at.retrieval].at.found)
          && m.effect == if task.at.starter then Unlists else NoEffect)
    && (m.effect.Unlists? ==> task.at.Joined?)
    && (m.next.at.Joined? ==> task.at.Asking?)
    && (m.next.at.Joined? && !m.effect.StartsRetrieval? ==>
          m.effect.NoEffect? && task.origin in s.inFlight && m.next.at == Joined(s.inFlight[task.origin], false))
    && (m.effect.StartsRetrieval? ==>
          !DecidedWithinBound(c, s, task.origin) && task.origin !in s.inFlight && m.next.at == Joined(|s.tasks|, true))
    && (m.effect.Lands? <==> task.at.Landing?)
    && (m.next.at.Landed? <==> m.effect.Lands?)
    && (task.at.Landing? ==> m.effect == Lands(task.at.result) && m.next.at == Landed(FoundBy(s.now, task, task.at.result)))
    && (m.next.asked == task.asked || (task.at.Asking? && m.next.asked) || (m.effect.CallsScheduler? && !m.next.asked))
    && (task.at.Asking? ==> m.next.asked)
  }

  /** Where a verdict a request relies on comes from. */
  ghost predicate LocalVerdict(c: Config, s: State, task: Task, m: Move) {
    && m.next.landedBefore == (if task.at.Granted? then LandedOf(s, task.origin) else task.landedBefore)
    && (|| m.next.decided == task.decided
        || m.next.decided == None
        || (&& task.at.Deciding? && task.at.found.Learned?
            && m.next.decided == Some(task.at.found.entry) && Allows(c, task.at.found.entry.verdict, task.path)))
    && (m.next.at.Deciding? && !task.at.Joined? ==>
          task.at.Asking? && task.origin in s.cache && m.next.at.found == Learned(s.cache[task.origin]))
  }

  /** What happens to a unit: taken, put on the wire, given back, settled, or carried along. */
  predicate LocalUnit(c: Config, s: State, task: Task, m: Move) {
    && (!m.effect.Departs? ==> m.next.departure == task.departure)
    && (task.at.Reserving? ==> m.effect.Reserves? || m.effect.FailsToReserve?)
    && (task.at.GivingBack? ==> m.effect.Returns?)
    && match m.effect
       case Reserves(key, limit) =>
         && c.Metered(task.source) && limit == c.Allowance(task.source).limit
         && task.at == Reserving(key.periodStart) && key.source == task.source
         && Aligned(key.periodStart, c.Allowance(task.source).periodMs)
         && Stores.PostgresAnswer(s.rows, ReserveCall(key, limit)).granted
         && m.next.at == Holding(Some(|s.grants|))
       case FailsToReserve(key, limit) =>
         && c.Metered(task.source) && limit == c.Allowance(task.source).limit
         && task.at == Reserving(key.periodStart) && key.source == task.source
         && !Stores.PostgresAnswer(s.rows, ReserveCall(key, limit)).granted
         && UnitAt(m.next.at) == None
       case Departs(unit) =>
         && task.at == Holding(unit) && m.next.at == OnWire(unit)
         && MayLeave(c, s, task) && m.next.departure == Some(|s.wire|)
       case Returns(back) => task.at.GivingBack? && task.at.back == back && m.next.at.GaveBack?
       case Finishes(unit, answer) => task.at == Point.Settled(unit, answer) && UnitAt(m.next.at) == None
       case _ =>
         && UnitAt(m.next.at) == UnitAt(task.at) && (UnitAt(task.at).Some? ==> PendingAt(m.next.at) == PendingAt(task.at))
         && !task.at.Settled?
  }

  predicate MarkIsFirst(s: State, n: Notice) { Stores.PostgresAnswer(s.rows, MarkCall(s.now, n)).first }

  /** The total recorded with a unit crosses the warn fraction; it fills the allowance. */
  predicate Crosses(c: Config, g: Grant) { c.Metered(g.key.source) && CrossesWarn(c.Allowance(g.key.source), g.recorded) }
  predicate Fills(c: Config, g: Grant) { c.Metered(g.key.source) && g.recorded >= c.Allowance(g.key.source).limit }

  predicate Announcing(p: Point) { p.Marking? || p.Noticing? }

  /** Which notices a settlement announces, and that it skips none it owes. */
  predicate LocalNotice(c: Config, s: State, task: Task, m: Move) {
    && (m.effect.Marks? <==> task.at.Marking?) && (m.effect.Notifies? <==> task.at.Noticing?)
    && (task.at.Marking? ==> m.effect.notice == task.at.notice)
    && (task.at.Noticing? ==> m.effect.notice == task.at.notice)
    && (m.next.at.Noticing? <==> task.at.Marking? && MarkIsFirst(s, task.at.notice))
    && (m.next.at.Noticing? ==> m.next.at == Noticing(task.at.notice, task.at.next))
    && (m.next.at.Checked? ==> task.at.Reading? && m.next.at == Checked(task.at.period, ConsumedAt(s, task, task.at.period)))
    && (m.next.at.Marking? && m.next.at.next.ThenRefuse? ==> AnnouncesSpent(c, task, m.next))
    && (m.next.at.Marking? && !m.next.at.next.ThenRefuse? ==> AnnouncesOwed(c, s, task, m.next))
    && (m.next.at.Settled? && m.next.at.unit.Some? ==> NothingLeftOwed(c, s, task, m.next.at.unit.value))
  }

  function ConsumedAt(s: State, task: Task, period: int): int { Stores.View(s.rows, KeyAt(task, period)).consumed }

  /** A check that turns to a mark: the counter it read had reached the limit. */
  predicate AnnouncesSpent(c: Config, task: Task, next: Task)
    requires next.at.Marking? && next.at.next.ThenRefuse?
  {
    && task.at.Checked? && next.at.notice == Notice(Stop, KeyAt(task, task.at.period))
    && c.Metered(task.source) && task.at.consumed >= c.Allowance(task.source).limit
  }

  /** A settlement that turns to a mark: of the warning first, of the stop next, each for its own unit's key. */
  predicate AnnouncesOwed(c: Config, s: State, task: Task, next: Task)
    requires next.at.Marking? && !next.at.next.ThenRefuse?
  {
    && UnitAt(next.at).value < |s.grants|
    && var g := s.grants[UnitAt(next.at).value];
       && next.at.notice == Notice(if next.at.next.ThenStop? then Warn else Stop, g.key)
       && (if next.at.next.ThenSettled? then Fills(c, g) else Crosses(c, g))
       && (|| (task.at.OnWire? && (next.at.next.ThenSettled? ==> !Crosses(c, g)))
           || (Announcing(task.at) && task.at.next.ThenStop? && next.at.next.ThenSettled?))
  }

  /** A settlement that ends: what it skipped was not owed. */
  predicate NothingLeftOwed(c: Config, s: State, task: Task, unit: nat) {
    && unit < |s.grants|
    && var g := s.grants[unit];
       || (task.at.OnWire? && !Crosses(c, g) && !Fills(c, g))
       || (Announcing(task.at) && task.at.next.ThenStop? && !Fills(c, g))
       || (Announcing(task.at) && task.at.next.ThenSettled?)
  }

  /** The answer a task carries after the wire. */
  function AnswerAt(p: Point): Option<Answer> {
    match p
    case Marking(_, next) => AnswerOf(next)
    case Noticing(_, next) => AnswerOf(next)
    case Settled(_, answer) => Some(answer)
    case PauseNoticing(result) => if result.Left? then Some(result.answer) else None
    case Landing(result) => if result.Left? then Some(result.answer) else None
    case _ => None
  }

  function AnswerOf(next: Then): Option<Answer> {
    match next
    case ThenRefuse => None
    case ThenStop(_, answer) => Some(answer)
    case ThenSettled(_, answer) => Some(answer)
  }

  predicate LocalAnswer(task: Task, m: Move) {
    && (m.effect.Hears? ==> task.at.OnWire?)
    && (m.next.at.OnWire? ==> m.effect.Departs?)
    && (AnswerAt(m.next.at).Some? ==> AnswerAt(m.next.at) == AnswerAt(task.at) || m.effect == Hears(AnswerAt(m.next.at).value))
  }

  predicate Ready(c: Config, s: State, task: Task) { Shape(c, task) && OwnUnit(s, task) }

  lemma LocalReading(c: Config, s: State, t: TaskId, task: Task)
    requires Ready(c, s, task) && task.at.Reading?
    ensures Local(c, s, t, task, AtReading(s, task))
  {
  }

  lemma LocalChecked(c: Config, s: State, t: TaskId, task: Task)
    requires Ready(c, s, task) && task.at.Checked?
    ensures Local(c, s, t, task, AtChecked(c, task))
  {
  }

  lemma LocalAsking(c: Config, s: State, t: TaskId, task: Task)
    requires Ready(c, s, task) && task.at.Asking?
    ensures Local(c, s, t, task, AtAsking(c, s, task))
  {
  }

  lemma LocalJoined(c: Config, s: State, t: TaskId, task: Task)
    requires Ready(c, s, task) && task.at.Joined? && CanJoin(s, task)
    ensures Local(c, s, t, task, AtJoined(s, task))
  {
  }

  lemma LocalDeciding(c: Config, s: State, t: TaskId, task: Task)
    requires Ready(c, s, task) && task.at.Deciding?
    ensures Local(c, s, t, task, AtDeciding(c, s, task))
  {
    if task.at.found.Declined? {
      LocalRefusal(c, s, t, task, task.at.found.reason);
    } else if task.at.found.entry.verdict.Unreachable? {
      LocalRefusal(c, s, t, task, RobotsUnreachable);
    } else if !Allows(c, task.at.found.entry.verdict, task.path) {
      LocalRefusal(c, s, t, task, RobotsDisallowed);
    } else if task.round > 0 {
      LocalDecided(c, s, t, task);
    }
  }

  lemma LocalRefusal(c: Config, s: State, t: TaskId, task: Task, reason: Reason)
    requires Ready(c, s, task) && task.at.Deciding?
    ensures Local(c, s, t, task, Stay(task, Exit(task, Stopped(reason))))
  {
  }

  lemma LocalDecided(c: Config, s: State, t: TaskId, task: Task)
    requires Ready(c, s, task) && task.at.Deciding? && task.at.found.Learned? && task.round > 0
    requires Allows(c, task.at.found.entry.verdict, task.path)
    ensures Local(c, s, t, task, AskGates(c, s, task.(decided := Some(task.at.found.entry))))
  {
  }

  lemma LocalQueued(c: Config, s: State, t: TaskId, task: Task, ms: nat)
    requires Ready(c, s, task) && task.at.Queued? && task.Host() in c.hosts && AtHead(s, t, task.Host())
    requires ms <= c.hosts[task.Host()].jitterMs
    ensures Local(c, s, t, task, AtQueued(c, s, task, ms))
  {
  }

  lemma LocalPacing(c: Config, s: State, t: TaskId, task: Task)
    requires Ready(c, s, task) && task.at.Pacing? && CanRelease(c, s, t, task)
    ensures Local(c, s, t, task, AtPacing(task))
  {
  }

  lemma LocalGranted(c: Config, s: State, t: TaskId, task: Task)
    requires Ready(c, s, task) && task.at.Granted?
    ensures Local(c, s, t, task, AtGranted(c, s, task))
  {
    if task.IsRobots() || (task.round != 1 && !c.CanRefresh(task.Host())) {
      LocalUnasked(c, s, t, task);
    }
  }

  /** A send that goes on without asking gate 5. */
  lemma LocalUnasked(c: Config, s: State, t: TaskId, task: Task)
    requires Ready(c, s, task) && task.at.Granted? && (task.IsRobots() || (task.round != 1 && !c.CanRefresh(task.Host())))
    ensures Local(c, s, t, task, AtGranted(c, s, task))
  {
  }

  lemma LocalNextRound(c: Config, s: State, t: TaskId, task: Task)
    requires Ready(c, s, task) && (task.at.AtBoundary? || (task.at.GaveBack? && task.at.why == None))
    ensures Local(c, s, t, task, NextRound(s, task))
  {
    if task.round < MAX_BOUNDARY_WAITS {
      LocalAnotherRound(c, s, t, task);
    }
  }

  lemma LocalAnotherRound(c: Config, s: State, t: TaskId, task: Task)
    requires Ready(c, s, task) && (task.at.AtBoundary? || (task.at.GaveBack? && task.at.why == None))
    requires task.round < MAX_BOUNDARY_WAITS
    ensures Local(c, s, t, task, Enqueue(task))
  {
  }

  lemma LocalAtBoundary(c: Config, s: State, t: TaskId, task: Task)
    requires Ready(c, s, task) && task.at.AtBoundary?
    ensures Local(c, s, t, task, AtTheBoundary(c, s, task))
  {
    if !BoundaryHolds(c, s, task) {
      LocalNextRound(c, s, t, task);
    } else if c.Metered(task.source) {
      PeriodStartIsAligned(s.now, c.Allowance(task.source).periodMs);
    }
  }

  lemma LocalReserving(c: Config, s: State, t: TaskId, task: Task)
    requires Ready(c, s, task) && task.at.Reserving? && c.Metered(task.source)
    ensures Local(c, s, t, task, AtReserving(c, s, task))
  {
    if !Stores.PostgresAnswer(s.rows, ReserveCall(KeyAt(task, task.at.period), c.Allowance(task.source).limit)).granted {
      LocalUnreserved(c, s, t, task);
    }
  }

  lemma LocalUnreserved(c: Config, s: State, t: TaskId, task: Task)
    requires Ready(c, s, task) && task.at.Reserving? && c.Metered(task.source)
    requires !Stores.PostgresAnswer(s.rows, ReserveCall(KeyAt(task, task.at.period), c.Allowance(task.source).limit)).granted
    ensures Local(c, s, t, task, AtReserving(c, s, task))
  {
  }

  lemma LocalHolding(c: Config, s: State, t: TaskId, task: Task)
    requires Ready(c, s, task) && task.at.Holding?
    ensures Local(c, s, t, task, AtHolding(c, s, task))
  {
    if MayLeave(c, s, task) {
      LocalLeaving(c, s, t, task);
    }
  }

  lemma LocalLeaving(c: Config, s: State, t: TaskId, task: Task)
    requires Ready(c, s, task) && task.at.Holding? && MayLeave(c, s, task)
    ensures Local(c, s, t, task, AtHolding(c, s, task))
  {
  }

  lemma LocalGivingBack(c: Config, s: State, t: TaskId, task: Task)
    requires Ready(c, s, task) && task.at.GivingBack?
    ensures Local(c, s, t, task, AtGivingBack(task))
  {
  }

  lemma LocalGaveBack(c: Config, s: State, t: TaskId, task: Task)
    requires Ready(c, s, task) && task.at.GaveBack?
    ensures Local(c, s, t, task, AtGaveBack(s, task))
  {
    if task.at.why == None {
      LocalNextRound(c, s, t, task);
    }
  }

  lemma LocalOnWire(c: Config, s: State, t: TaskId, task: Task, answer: Answer)
    requires Ready(c, s, task) && task.at.OnWire?
    ensures Local(c, s, t, task, AtOnWire(c, s, task, answer))
  {
  }

  lemma LocalMarking(c: Config, s: State, t: TaskId, task: Task)
    requires Ready(c, s, task) && task.at.Marking?
    ensures Local(c, s, t, task, AtMarking(c, s, task))
  {
    if !MarkIsFirst(s, task.at.notice) {
      LocalMarkedBefore(c, s, t, task);
    }
  }

  /** A mark somebody else has set: the call goes on without a notice. */
  lemma LocalMarkedBefore(c: Config, s: State, t: TaskId, task: Task)
    requires Ready(c, s, task) && task.at.Marking? && !MarkIsFirst(s, task.at.notice)
    ensures Local(c, s, t, task, AtMarking(c, s, task))
  {
  }

  lemma LocalNoticing(c: Config, s: State, t: TaskId, task: Task)
    requires Ready(c, s, task) && task.at.Noticing?
    ensures Local(c, s, t, task, AtNoticing(c, s, task))
  {
  }

  lemma LocalSettled(c: Config, s: State, t: TaskId, task: Task)
    requires Ready(c, s, task) && task.at.Settled?
    ensures Local(c, s, t, task, AtSettled(c, s, task))
  {
  }

  lemma LocalPauseNoticing(c: Config, s: State, t: TaskId, task: Task)
    requires Ready(c, s, task) && task.at.PauseNoticing?
    ensures Local(c, s, t, task, AtPauseNoticing(task))
  {
  }

  lemma LocalLanding(c: Config, s: State, t: TaskId, task: Task)
    requires Ready(c, s, task) && task.at.Landing?
    ensures Local(c, s, t, task, AtLanding(s, task))
  {
  }

  /** Every job decides a move of the kinds above. */
  lemma DecisionsAreLocal(c: Config, s: State, t: TaskId, choice: Choice)
    requires Enabled(c, s, t, choice) && Ready(c, s, s.tasks[t])
    ensures Local(c, s, t, s.tasks[t], Decide(c, s, t, choice))
  {
    var task := s.tasks[t];
    match task.at {
      case Reading(_) => LocalReading(c, s, t, task);
      case Checked(_, _) => LocalChecked(c, s, t, task);
      case Asking => LocalAsking(c, s, t, task);
      case Joined(_, _) => LocalJoined(c, s, t, task);
      case Deciding(_) => LocalDeciding(c, s, t, task);
      case Queued => LocalQueued(c, s, t, task, choice.ms);
      case Pacing(_, _) => LocalPacing(c, s, t, task);
      case Granted => LocalGranted(c, s, t, task);
      case AtBoundary => LocalAtBoundary(c, s, t, task);
      case _ => LaterDecisionsAreLocal(c, s, t, choice);
    }
  }

  /** The points from the reservation on. */
  predicate FromReserving(p: Point) {
    || p.Reserving? || p.Holding? || p.GivingBack? || p.GaveBack? || p.OnWire?
    || p.Marking? || p.Noticing? || p.Settled? || p.PauseNoticing? || p.Landing?
  }

  lemma LaterDecisionsAreLocal(c: Config, s: State, t: TaskId, choice: Choice)
    requires Enabled(c, s, t, choice) && Ready(c, s, s.tasks[t]) && FromReserving(s.tasks[t].at)
    ensures Local(c, s, t, s.tasks[t], Decide(c, s, t, choice))
  {
    var task := s.tasks[t];
    match task.at {
      case Reserving(_) => LocalReserving(c, s, t, task);
      case Holding(_) => LocalHolding(c, s, t, task);
      case GivingBack(_, _) => LocalGivingBack(c, s, t, task);
      case GaveBack(_) => LocalGaveBack(c, s, t, task);
      case OnWire(_) => LocalOnWire(c, s, t, task, choice.answer);
      case Marking(_, _) => LocalMarking(c, s, t, task);
      case Noticing(_, _) => LocalNoticing(c, s, t, task);
      case Settled(_, _) => LocalSettled(c, s, t, task);
      case PauseNoticing(_) => LocalPauseNoticing(c, s, t, task);
      case Landing(_) => LocalLanding(c, s, t, task);
    }
  }
}
