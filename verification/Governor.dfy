/** The governor as interleaved jobs. */
module Governor {
  // The governor as interleaved jobs (packages/governor/src/governor.ts, with
  // allowance.ts and robots.ts).
  //
  // Every `await` of the code is a point where any other request, the clock, the
  // store or a response may run, so a call is a `Task` with a program counter and
  // everything between two awaits is one step. A robots retrieval is a task of its
  // own, started by the request that found no fresh verdict. Where the code hops
  // between two of its own functions without touching shared state, a step here may
  // end early: that only adds interleavings. The one place that must not be
  // interrupted, from the answer of the allowance reservation to the wire, is one
  // step (`AtHolding`).

  import opened Prelude
  import opened HostScheduling
  import opened CircuitBreaker
  import opened RobotsMatch
  import opened RobotsText
  import Stores = AllowanceStores

  const MAX_BOUNDARY_WAITS: nat := 3

  // ---------------------------------------------------------------------------
  // Configuration.
  // ---------------------------------------------------------------------------

  datatype AllowanceSettings = AllowanceSettings(limit: nat, periodMs: nat, warnFraction: real)

  datatype SourceSettings = SourceSettings(allowance: Option<AllowanceSettings>, breaker: Option<BreakerSettings>)

  datatype Config = Config(hosts: map<Host, HostCeiling>, sources: map<Source, SourceSettings>,
                           breaker: BreakerSettings, cacheBoundMs: int, productToken: string)
  {
    ghost predicate Valid() {
      && (forall h :: h in hosts ==> hosts[h].Valid())
      && (forall s :: s in sources && sources[s].allowance.Some? ==>
            var a := sources[s].allowance.value;
            a.limit >= 1 && a.periodMs >= 1 && 0.0 < a.warnFraction <= 1.0)
    }

    predicate Metered(source: Source) {
      source in sources && sources[source].allowance.Some?
    }

    function Allowance(source: Source): AllowanceSettings
      requires Metered(source)
    {
      sources[source].allowance.value
    }

    function BreakerFor(source: Source): BreakerSettings {
      if source in sources && sources[source].breaker.Some? then sources[source].breaker.value else breaker
    }

    function CeilingFor(host: Host): HostCeiling {
      if host in hosts then hosts[host] else HostCeiling(1, 1, 1, 1)
    }

    /** Whether a further round could end with a fresher robots verdict on this host. */
    predicate CanRefresh(host: Host) {
      host in hosts && hosts[host].minDelayMs < cacheBoundMs
    }
  }

  /** Periods are aligned to the epoch; Dafny's division floors for a positive divisor, as `Math.floor` does. */
  function PeriodStart(now: int, periodMs: nat): int {
    if periodMs == 0 then now else now / periodMs * periodMs
  }

  /** The start of a period is the start of its own period. */
  predicate Aligned(period: int, periodMs: nat) { PeriodStart(period, periodMs) == period }

  lemma AlignedIsMultiple(period: int, periodMs: nat)
    requires periodMs >= 1
    ensures Aligned(period, periodMs) <==> period % periodMs == 0
  {
  }

  lemma PeriodStartIsAligned(now: int, periodMs: nat)
    ensures Aligned(PeriodStart(now, periodMs), periodMs)
  {
    if periodMs > 0 {
      MultipleDivides(now / periodMs, periodMs);
    }
  }

  /** Every instant falls in exactly one period, whoever computes it. */
  lemma PeriodIsTheOnlyOne(now: int, periodMs: nat, start: int)
    requires periodMs >= 1
    ensures start % periodMs == 0 && start <= now < start + periodMs <==> start == PeriodStart(now, periodMs)
  {
    PeriodStartIsAligned(now, periodMs);
    AlignedIsMultiple(start, periodMs);
    AlignedIsMultiple(PeriodStart(now, periodMs), periodMs);
    if Aligned(start, periodMs) && start <= now < start + periodMs {
      AlignedAroundNow(now, periodMs, start);
    }
  }

  lemma AlignedAroundNow(now: int, periodMs: nat, start: int)
    requires periodMs >= 1 && Aligned(start, periodMs) && start <= now < start + periodMs
    ensures start == PeriodStart(now, periodMs)
  {
    var a, b := now / periodMs, start / periodMs;
    Differs(a, b, periodMs);
    TimesIsFar(a - b, periodMs);
  }

  // ---------------------------------------------------------------------------
  // What the outside answers, and what is made of it.
  // ---------------------------------------------------------------------------

  /** Any status, body and back-pressure hold, or no answer at all. A hold, when given, is positive. */
  datatype Answer = Response(status: int, body: string, truncated: bool, holdMs: nat) | NetworkFailure

  datatype Reason =
    | UnconfiguredHost | UnknownSource | SourcePaused | AllowanceExhausted | RobotsUnreachable
    | RobotsDisallowed | HostHeld | RobotsStale | TransportError

  /** How one send ended: with the answer to a request that left, or refused before leaving. */
  datatype SendResult = Left(answer: Answer) | Stopped(reason: Reason)

  datatype Outcome = Delivered(answer: Answer) | Refused(reason: Reason)

  datatype RobotsVerdict = Rules(file: RobotsFile) | Unavailable | Unreachable

  /** A cached verdict. `evidence` is the departure whose answer it is: history, not used by any step. */
  datatype Entry = Entry(fetchedAt: int, verdict: RobotsVerdict, evidence: nat)

  datatype Retrieval = Learned(entry: Entry) | Declined(reason: Reason)

  datatype StatusClass = RulesStatus | UnavailableStatus | UnreachableStatus

  function ClassifyRobotsStatus(status: int): StatusClass {
    if 200 <= status < 300 then RulesStatus
    else if 400 <= status < 500 then UnavailableStatus
    else UnreachableStatus
  }

  function VerdictFrom(answer: Answer): RobotsVerdict {
    match answer
    case NetworkFailure => Unreachable
    case Response(status, body, truncated, _) =>
      match ClassifyRobotsStatus(status)
      case RulesStatus => Rules(Parsed(body, truncated))
      case UnavailableStatus => Unavailable
      case UnreachableStatus => Unreachable
  }

  ghost predicate Allows(c: Config, verdict: RobotsVerdict, path: string) {
    match verdict
    case Rules(file) => PathAllowed(SelectGroup(file.groups, c.productToken), path)
    case Unavailable => true
    case Unreachable => false
  }

  /** The outcome class the breaker counts: a robots fetch fails only on the unreachable half. */
  function OutcomeOf(answer: Answer, robots: bool): OutcomeClass {
    match answer
    case NetworkFailure => Failure
    case Response(status, _, _, _) =>
      if robots then (if ClassifyRobotsStatus(status).UnreachableStatus? then Failure else Success)
      else if status >= 400 then Failure else Success
  }

  // ---------------------------------------------------------------------------
  // Tasks.
  // ---------------------------------------------------------------------------

  type TaskId = nat

  datatype NoticeKind = Warn | Stop
  datatype Notice = Notice(kind: NoticeKind, key: Stores.Key)

  /** What follows once a mark, and the notice it may owe, are done with. */
  datatype Then = ThenRefuse | ThenStop(unit: nat, answer: Answer) | ThenSettled(unit: nat, answer: Answer)

  datatype Point =
    | Reading(period: int)                                   // check: the store is reading the counter
    | Checked(period: int, consumed: int)                    // check: the counter is back
    | Asking                                                 // about to ask gate 5
    | Joined(retrieval: TaskId, starter: bool)               // awaiting a retrieval, its own or another's
    | Deciding(found: Retrieval)                             // gate 5's entry is in hand
    | Queued                                                 // in this host's queue
    | Pacing(delayMs: int, offeredAt: int)                   // at its head, in the wait loop
    | Granted                                                // the release is recorded, the send not resumed
    | AtBoundary                                             // gates 5, 3 and 4 asked; is it all true now?
    | Reserving(period: int)                                 // the store is taking a unit
    | Holding(unit: Option<nat>)                             // the reservation is answered
    | GivingBack(back: nat, why: Option<Reason>)             // the store is taking the unit back
    | GaveBack(why: Option<Reason>)
    | OnWire(unit: Option<nat>)                              // left the process
    | Marking(notice: Notice, next: Then)                    // the store is setting a mark
    | Noticing(notice: Notice, next: Then)                   // the notifier is being told
    | Settled(unit: Option<nat>, answer: Answer)             // settled; hold and outcome not yet recorded
    | PauseNoticing(result: SendResult)                      // the notifier is told of a pause
    | Landing(result: SendResult)                            // a retrieval's send ended
    | Landed(found: Retrieval)                               // a retrieval resolved
    | Done(outcome: Outcome)                                 // a request settled

  /** `parent` is the request that started a robots retrieval; a product request has none. */
  datatype Task = Task(source: Source, origin: Origin, path: string, parent: Option<TaskId>,
                       round: nat, landedBefore: nat, asked: bool, decided: Option<Entry>, departure: Option<nat>,
                       at: Point)
  {
    predicate IsRobots() { parent.Some? }

    function Host(): Host { origin.host }

    predicate Finished() { at.Done? || at.Landed? }
  }

  // ---------------------------------------------------------------------------
  // The shared state, and the histories the properties are about.
  // ---------------------------------------------------------------------------

  datatype GrantStatus = Pending | Sent | Settled | GivenBack

  /** One granted unit: the total the store answered with, who holds it, what became of it and which departure it backs. */
  datatype Grant = Grant(key: Stores.Key, recorded: int, owner: TaskId, status: GrantStatus, sentAs: Option<nat>)

  /** One request that left the process, with what stood at that instant. */
  datatype Departure = Departure(task: TaskId, source: Source, origin: Origin, path: string, robots: bool, at: int,
                                 unit: Option<nat>, key: Option<Stores.Key>, verdict: Option<Entry>, holdsBefore: nat, pausesBefore: nat,
                                 answer: Option<Answer>)

  datatype PlacedHold = PlacedHold(host: Host, until: int)
  datatype Pause = Pause(source: Source, until: int)

  datatype State = State(
    now: int,
    hosts: map<Host, HostState>,
    queues: map<Host, seq<TaskId>>,
    breakers: map<Source, SourceState>,
    rows: Stores.Rows,
    cache: map<Origin, Entry>,
    inFlight: map<Origin, TaskId>,
    landed: map<Origin, nat>,
    tasks: seq<Task>,
    // histories
    called: map<Host, seq<TaskId>>,
    served: map<Host, seq<TaskId>>,
    released: map<Host, seq<int>>,
    grants: seq<Grant>,
    wire: seq<Departure>,
    marker: map<Notice, TaskId>,
    notices: multiset<Notice>,
    holds: seq<PlacedHold>,
    pauses: seq<Pause>)

  function HostOf(s: State, h: Host): HostState { if h in s.hosts then s.hosts[h] else FRESH_HOST }
  function QueueOf(s: State, h: Host): seq<TaskId> { if h in s.queues then s.queues[h] else [] }
  function BreakerOf(s: State, source: Source): SourceState { if source in s.breakers then s.breakers[source] else FRESH_SOURCE }
  function LandedOf(s: State, o: Origin): nat { if o in s.landed then s.landed[o] else 0 }
  function CalledOf(s: State, h: Host): seq<TaskId> { if h in s.called then s.called[h] else [] }
  function ServedOf(s: State, h: Host): seq<TaskId> { if h in s.served then s.served[h] else [] }
  function ReleasedOf(s: State, h: Host): seq<int> { if h in s.released then s.released[h] else [] }

  predicate FreshEntry(c: Config, e: Entry, now: int) { now - e.fetchedAt < c.cacheBoundMs }

  /** `decidedWithinBoundAt`. */
  predicate DecidedWithinBound(c: Config, s: State, o: Origin) {
    o in s.cache && FreshEntry(c, s.cache[o], s.now)
  }

  /** `#boundaryHolds`. */
  predicate BoundaryHolds(c: Config, s: State, task: Task) {
    && LandedOf(s, task.origin) == task.landedBefore
    && HostOf(s, task.Host()).holdUntil <= s.now
    && (task.IsRobots() || DecidedWithinBound(c, s, task.origin) || !c.CanRefresh(task.Host()))
  }

  /** `#boundaryRefusalNow`. */
  function BoundaryRefusal(s: State, task: Task): Reason {
    if HostOf(s, task.Host()).holdUntil > s.now then HostHeld else RobotsStale
  }

  // ---------------------------------------------------------------------------
  // A step is what a job decides for its own task, and what it does to the
  // shared state. `Apply` below says what each effect changes.
  // ---------------------------------------------------------------------------

  datatype Effect =
    | NoEffect
    | AsksBreaker                                            // `status`, which may clear an expired pause
    | CallsScheduler                                         // takes a place in the host's queue
    | StartsRetrieval                                        // a new task, in the in-flight table
    | Unlists                                                // takes a resolved retrieval out of the table
    | Releases                                               // the host's release is recorded
    | Reserves(key: Stores.Key, limit: nat)                  // the reserve statement, granted
    | FailsToReserve(key: Stores.Key, limit: nat)            // the reserve statement, refused
    | Departs(unit: Option<nat>)                             // `status`, and the request is on the wire
    | Returns(back: nat)                                     // the release statement
    | Hears(answer: Answer)                                  // the answer is in
    | Marks(notice: Notice)                                  // the mark statement
    | Notifies(notice: Notice)                               // the notifier is called
    | Finishes(unit: Option<nat>, answer: Answer)            // hold and outcome recorded, the unit settled
    | Lands(result: SendResult)                              // counted, and cached if something was learned

  datatype Move = Move(next: Task, effect: Effect)

  function Stay(task: Task, at: Point): Move { Move(task.(at := at), NoEffect) }

  /** Where a send that ends leaves its task. */
  function Exit(task: Task, result: SendResult): Point {
    if task.IsRobots() then Landing(result)
    else match result
      case Left(answer) => if answer.Response? then Done(Delivered(answer)) else Done(Refused(TransportError))
      case Stopped(reason) => Done(Refused(reason))
  }

  function AfterCheck(task: Task): Point { if task.round == 0 then Asking else AtBoundary }

  /** The start of `check`: an unmetered source has nothing to read. */
  function StartCheck(c: Config, now: int, task: Task): Point {
    if c.Metered(task.source) then Reading(PeriodStart(now, c.Allowance(task.source).periodMs)) else AfterCheck(task)
  }

  /** Gate 3 and then the start of gate 4, in one job. */
  function AskGates(c: Config, s: State, task: Task): Move {
    Move(task.(at := if Paused(BreakerOf(s, task.source), s.now) then Exit(task, Stopped(SourcePaused))
                     else StartCheck(c, s.now, task)),
         AsksBreaker)
  }

  /** The top of a round: the scheduler is called. */
  function Enqueue(task: Task): Move {
    Move(task.(round := task.round + 1, asked := false, decided := None, at := Queued), CallsScheduler)
  }

  /** A round that cannot end in a send: another one, or a refusal after the last. */
  function NextRound(s: State, task: Task): Move {
    if task.round >= MAX_BOUNDARY_WAITS then Stay(task, Exit(task, Stopped(BoundaryRefusal(s, task)))) else Enqueue(task)
  }

  function KeyAt(task: Task, period: int): Stores.Key { Stores.Key(task.source, period) }

  predicate CrossesWarn(a: AllowanceSettings, consumed: int) {
    a.limit > 0 && consumed as real / a.limit as real >= a.warnFraction
  }

  /** The second half of `settle`: the stop notice a full allowance owes. */
  function ToStop(c: Config, g: Grant, unit: nat, answer: Answer): Point {
    if c.Metered(g.key.source) && g.recorded >= c.Allowance(g.key.source).limit
    then Marking(Notice(Stop, g.key), ThenSettled(unit, answer))
    else Point.Settled(Some(unit), answer)
  }

  /** The start of `settle`: the warning the recorded total owes. */
  function ToSettle(c: Config, s: State, unit: Option<nat>, answer: Answer): Point {
    if unit == None || unit.value >= |s.grants| then Point.Settled(unit, answer)
    else
      var g := s.grants[unit.value];
      if c.Metered(g.key.source) && CrossesWarn(c.Allowance(g.key.source), g.recorded)
      then Marking(Notice(Warn, g.key), ThenStop(unit.value, answer))
      else ToStop(c, g, unit.value, answer)
  }

  function Follow(c: Config, s: State, task: Task, next: Then): Point {
    match next
    case ThenRefuse => Exit(task, Stopped(AllowanceExhausted))
    case ThenStop(unit, answer) =>
      if unit < |s.grants| then ToStop(c, s.grants[unit], unit, answer) else Point.Settled(Some(unit), answer)
    case ThenSettled(unit, answer) => Point.Settled(Some(unit), answer)
  }

  function MarkCall(now: int, n: Notice): Stores.StoreCall {
    if n.kind.Warn? then Stores.MarkWarned(n.key, now) else Stores.MarkStopped(n.key, now)
  }

  function ReserveCall(key: Stores.Key, limit: nat): Stores.StoreCall { Stores.Reserve(key, 1, limit) }

  function ToGiveBack(unit: Option<nat>, why: Option<Reason>): Point {
    if unit.Some? then GivingBack(unit.value, why) else GaveBack(why)
  }

  // ---------------------------------------------------------------------------
  // What the job at each point decides.
  // ---------------------------------------------------------------------------

  /** What the environment decides in a step: the jitter drawn, or the answer from the wire. */
  datatype Choice = Nothing | Jitter(ms: nat) | Answered(answer: Answer)

  function AtReading(s: State, task: Task): Move
    requires task.at.Reading?
  {
    Stay(task, Checked(task.at.period, Stores.View(s.rows, KeyAt(task, task.at.period)).consumed))
  }

  function AtChecked(c: Config, task: Task): Move
    requires task.at.Checked?
  {
    if c.Metered(task.source) && task.at.consumed >= c.Allowance(task.source).limit
    then Stay(task, Marking(Notice(Stop, KeyAt(task, task.at.period)), ThenRefuse))
    else Stay(task, AfterCheck(task))
  }

  /** `#entryFor`: a fresh verdict, a retrieval to join, or one to start. */
  function AtAsking(c: Config, s: State, task: Task): Move {
    var o := task.origin;
    if DecidedWithinBound(c, s, o) then Move(task.(asked := true, at := Deciding(Learned(s.cache[o]))), NoEffect)
    else if o in s.inFlight then Move(task.(asked := true, at := Joined(s.inFlight[o], false)), NoEffect)
    else Move(task.(asked := true, at := Joined(|s.tasks|, true)), StartsRetrieval)
  }

  predicate CanJoin(s: State, task: Task)
    requires task.at.Joined?
  {
    task.at.retrieval < |s.tasks| && s.tasks[task.at.retrieval].at.Landed?
  }

  /** The retrieval resolved; the request that started it also takes it out of the table. */
  function AtJoined(s: State, task: Task): Move
    requires task.at.Joined? && CanJoin(s, task)
  {
    Move(task.(at := Deciding(s.tasks[task.at.retrieval].at.found)), if task.at.starter then Unlists else NoEffect)
  }

  ghost function AtDeciding(c: Config, s: State, task: Task): Move
    requires task.at.Deciding?
  {
    match task.at.found
    case Declined(reason) => Stay(task, Exit(task, Stopped(reason)))
    case Learned(entry) =>
      if entry.verdict.Unreachable? then Stay(task, Exit(task, Stopped(RobotsUnreachable)))
      else if !Allows(c, entry.verdict, task.path) then Stay(task, Exit(task, Stopped(RobotsDisallowed)))
      else if task.round == 0 then Enqueue(task)
      else AskGates(c, s, task.(decided := Some(entry)))
  }

  predicate AtHead(s: State, t: TaskId, h: Host) {
    var q := QueueOf(s, h);
    q != [] && q[0] == t
  }

  /** The turn at the head of the queue begins: the jitter is drawn once. */
  function AtQueued(c: Config, s: State, task: Task, jitter: nat): Move
    requires task.Host() in c.hosts
  {
    Stay(task, Pacing(c.hosts[task.Host()].minDelayMs + jitter, s.now))
  }

  predicate CanRelease(c: Config, s: State, t: TaskId, task: Task)
    requires task.at.Pacing?
  {
    var h := task.Host();
    && AtHead(s, t, h)
    && h in c.hosts && c.hosts[h].Valid()
    && Earliest(HostOf(s, h), c.hosts[h], task.at.delayMs, task.at.offeredAt, s.now) <= s.now
  }

  /** The wait is over: the release is recorded, and the next in the queue may begin. */
  function AtPacing(task: Task): Move { Move(task.(at := Point.Granted), Releases) }

  /** The send resumes: where its origin's retrievals stand is read, and gate 5 asked or skipped. */
  function AtGranted(c: Config, s: State, task: Task): Move {
    var resumed := task.(landedBefore := LandedOf(s, task.origin));
    if !task.IsRobots() && (task.round == 1 || c.CanRefresh(task.Host())) then Stay(resumed, Asking)
    else AskGates(c, s, resumed)
  }

  function AtTheBoundary(c: Config, s: State, task: Task): Move {
    if !BoundaryHolds(c, s, task) then NextRound(s, task)
    else if c.Metered(task.source) then Stay(task, Reserving(PeriodStart(s.now, c.Allowance(task.source).periodMs)))
    else Stay(task, Holding(None))
  }

  /** One statement in the store: take a unit if and only if the total stays inside the limit. */
  function AtReserving(c: Config, s: State, task: Task): Move
    requires task.at.Reserving? && c.Metered(task.source)
  {
    var key := KeyAt(task, task.at.period);
    var limit := c.Allowance(task.source).limit;
    if Stores.PostgresAnswer(s.rows, ReserveCall(key, limit)).granted
    then Move(task.(at := Holding(Some(|s.grants|))), Reserves(key, limit))
    else Move(task.(at := Exit(task, Stopped(AllowanceExhausted))), FailsToReserve(key, limit))
  }

  /** May this task leave, in this very job? */
  predicate MayLeave(c: Config, s: State, task: Task) {
    !Paused(BreakerOf(s, task.source), s.now) && BoundaryHolds(c, s, task)
  }

  /** From the reservation's answer to the wire, or to giving the unit back: no await in between. */
  function AtHolding(c: Config, s: State, task: Task): Move
    requires task.at.Holding?
  {
    var unit := task.at.unit;
    if Paused(BreakerOf(s, task.source), s.now) then Move(task.(at := ToGiveBack(unit, Some(SourcePaused))), AsksBreaker)
    else if !BoundaryHolds(c, s, task) then Move(task.(at := ToGiveBack(unit, None)), AsksBreaker)
    else Move(task.(departure := Some(|s.wire|), at := OnWire(unit)), Departs(unit))
  }

  function AtGivingBack(task: Task): Move
    requires task.at.GivingBack?
  {
    Move(task.(at := GaveBack(task.at.why)), Returns(task.at.back))
  }

  function AtGaveBack(s: State, task: Task): Move
    requires task.at.GaveBack?
  {
    if task.at.why.Some? then Stay(task, Exit(task, Stopped(task.at.why.value))) else NextRound(s, task)
  }

  function AtOnWire(c: Config, s: State, task: Task, answer: Answer): Move
    requires task.at.OnWire?
  {
    Move(task.(at := ToSettle(c, s, task.at.unit, answer)), Hears(answer))
  }

  /** One statement in the store: set the mark, and learn whether this call was the one that set it. */
  function AtMarking(c: Config, s: State, task: Task): Move
    requires task.at.Marking?
  {
    var first := Stores.PostgresAnswer(s.rows, MarkCall(s.now, task.at.notice)).first;
    Move(task.(at := if first then Noticing(task.at.notice, task.at.next) else Follow(c, s, task, task.at.next)),
         Marks(task.at.notice))
  }

  function AtNoticing(c: Config, s: State, task: Task): Move
    requires task.at.Noticing?
  {
    Move(task.(at := Follow(c, s, task, task.at.next)), Notifies(task.at.notice))
  }

  /** After the settlement, in one job: the hold the answer earned, then its outcome for the breaker. */
  function AtSettled(c: Config, s: State, task: Task): Move
    requires task.at.Settled?
  {
    var answer := task.at.answer;
    var paused := Announces(BreakerOf(s, task.source), c.BreakerFor(task.source), s.now, OutcomeOf(answer, task.IsRobots()));
    Move(task.(at := if paused then PauseNoticing(Left(answer)) else Exit(task, Left(answer))), Finishes(task.at.unit, answer))
  }

  function AtPauseNoticing(task: Task): Move
    requires task.at.PauseNoticing?
  {
    Stay(task, Exit(task, task.at.result))
  }

  function EntryFrom(now: int, task: Task, answer: Answer): Entry {
    Entry(now, VerdictFrom(answer), if task.departure.Some? then task.departure.value else 0)
  }

  /** The retrieval lands: counted, and cached unless the governor itself declined to go. */
  function AtLanding(s: State, task: Task): Move
    requires task.at.Landing?
  {
    var found := match task.at.result
                 case Stopped(reason) => Declined(reason)
                 case Left(answer) => Learned(EntryFrom(s.now, task, answer));
    Move(task.(at := Landed(found)), Lands(task.at.result))
  }

  /** Can task `t` take its next step, given what the environment decides? */
  predicate Enabled(c: Config, s: State, t: TaskId, choice: Choice) {
    && t < |s.tasks|
    && var task := s.tasks[t];
       match task.at
       case Joined(_, _) => CanJoin(s, task)
       case Queued => AtHead(s, t, task.Host()) && task.Host() in c.hosts && choice.Jitter? && choice.ms <= c.hosts[task.Host()].jitterMs
       case Pacing(_, _) => CanRelease(c, s, t, task)
       case Reserving(_) => c.Metered(task.source)
       case OnWire(_) => choice.Answered?
       case Landed(_) => false
       case Done(_) => false
       case _ => true
  }

  ghost function Decide(c: Config, s: State, t: TaskId, choice: Choice): Move
    requires Enabled(c, s, t, choice)
  {
    var task := s.tasks[t];
    match task.at
    case Reading(_) => AtReading(s, task)
    case Checked(_, _) => AtChecked(c, task)
    case Asking => AtAsking(c, s, task)
    case Joined(_, _) => AtJoined(s, task)
    case Deciding(_) => AtDeciding(c, s, task)
    case Queued => AtQueued(c, s, task, choice.ms)
    case Pacing(_, _) => AtPacing(task)
    case Granted => AtGranted(c, s, task)
    case AtBoundary => AtTheBoundary(c, s, task)
    case Reserving(_) => AtReserving(c, s, task)
    case Holding(_) => AtHolding(c, s, task)
    case GivingBack(_, _) => AtGivingBack(task)
    case GaveBack(_) => AtGaveBack(s, task)
    case OnWire(_) => AtOnWire(c, s, task, choice.answer)
    case Marking(_, _) => AtMarking(c, s, task)
    case Noticing(_, _) => AtNoticing(c, s, task)
    case Settled(_, _) => AtSettled(c, s, task)
    case PauseNoticing(_) => AtPauseNoticing(task)
    case Landing(_) => AtLanding(s, task)
    case Landed(_) => Stay(task, task.at)
    case Done(_) => Stay(task, task.at)
  }

  // ---------------------------------------------------------------------------
  // What each effect changes.
  // ---------------------------------------------------------------------------

  /** A retrieval as it starts: it is a send of its own, and its first job already queues for the host. */
  function NewRetrieval(asker: Task, t: TaskId): Task {
    Task(asker.source, asker.origin, "/robots.txt", Some(t), 1, 0, false, None, None, Queued)
  }

  function Rest(queue: seq<TaskId>): seq<TaskId> { if queue == [] then [] else queue[1..] }

  function DepartureOf(s: State, t: TaskId, task: Task, unit: Option<nat>): Departure {
    Departure(t, task.source, task.origin, task.path, task.IsRobots(), s.now, unit,
              if unit.Some? && unit.value < |s.grants| then Some(s.grants[unit.value].key) else None,
              if task.origin in s.cache then Some(s.cache[task.origin]) else None, |s.holds|, |s.pauses|, None)
  }

  /** The grants with one of them changed; an index out of range changes nothing. */
  function WithGrant(grants: seq<Grant>, unit: nat, status: GrantStatus, sentAs: Option<nat>): seq<Grant> {
    if unit < |grants| then grants[unit := grants[unit].(status := status, sentAs := sentAs)] else grants
  }

  function SentGrants(s: State, unit: Option<nat>): seq<Grant> {
    if unit.Some? then WithGrant(s.grants, unit.value, Sent, Some(|s.wire|)) else s.grants
  }

  function SettledGrants(s: State, unit: Option<nat>): seq<Grant> {
    if unit.Some? && unit.value < |s.grants|
    then WithGrant(s.grants, unit.value, GrantStatus.Settled, s.grants[unit.value].sentAs) else s.grants
  }

  function ReturnedRows(s: State, unit: nat): Stores.Rows {
    if unit < |s.grants| then Stores.PostgresAfter(s.rows, Stores.Release(s.grants[unit].key, 1)) else s.rows
  }

  function Heard(wire: seq<Departure>, departure: Option<nat>, answer: Answer): seq<Departure> {
    if departure.Some? && departure.value < |wire|
    then wire[departure.value := wire[departure.value].(answer := Some(answer))] else wire
  }

  predicate EarnsHold(answer: Answer) { answer.Response? && answer.holdMs > 0 }

  function Marker(s: State, t: TaskId, n: Notice): map<Notice, TaskId> {
    if Stores.PostgresAnswer(s.rows, MarkCall(s.now, n)).first then s.marker[n := t] else s.marker
  }

  function StatusAsked(s: State, source: Source): map<Source, SourceState> {
    s.breakers[source := AfterStatus(BreakerOf(s, source), s.now)]
  }

  function TasksNext(s: State, t: TaskId, m: Move): seq<Task>
    requires t < |s.tasks|
  {
    if m.effect.StartsRetrieval? then s.tasks[t := m.next] + [NewRetrieval(m.next, t)] else s.tasks[t := m.next]
  }

  function HostsNext(c: Config, s: State, m: Move): map<Host, HostState> {
    var h := m.next.Host();
    match m.effect
    case Releases => s.hosts[h := HostScheduling.Granted(HostOf(s, h), c.CeilingFor(h), s.now)]
    case Finishes(_, answer) => if EarnsHold(answer) then s.hosts[h := Held(HostOf(s, h), s.now + answer.holdMs)] else s.hosts
    case _ => s.hosts
  }

  /** Who joins the queue of the acting task's host. */
  function Joining(s: State, t: TaskId, m: Move): seq<TaskId> {
    if m.effect.CallsScheduler? then [t] else if m.effect.StartsRetrieval? then [|s.tasks|] else []
  }

  function QueuesNext(s: State, t: TaskId, m: Move): map<Host, seq<TaskId>> {
    var h := m.next.Host();
    if m.effect.Releases? then s.queues[h := Rest(QueueOf(s, h))]
    else if Joining(s, t, m) == [] then s.queues
    else s.queues[h := QueueOf(s, h) + Joining(s, t, m)]
  }

  function CalledNext(s: State, t: TaskId, m: Move): map<Host, seq<TaskId>> {
    var h := m.next.Host();
    if Joining(s, t, m) == [] then s.called else s.called[h := CalledOf(s, h) + Joining(s, t, m)]
  }

  function ServedNext(s: State, t: TaskId, m: Move): map<Host, seq<TaskId>> {
    var h := m.next.Host();
    if m.effect.Releases? then s.served[h := ServedOf(s, h) + [t]] else s.served
  }

  function ReleasedNext(s: State, m: Move): map<Host, seq<int>> {
    var h := m.next.Host();
    if m.effect.Releases? then s.released[h := ReleasedOf(s, h) + [s.now]] else s.released
  }

  function BreakersNext(c: Config, s: State, m: Move): map<Source, SourceState> {
    var x := m.next.source;
    match m.effect
    case AsksBreaker => StatusAsked(s, x)
    case Departs(_) => StatusAsked(s, x)
    case Finishes(_, answer) =>
      s.breakers[x := AfterRecord(BreakerOf(s, x), c.BreakerFor(x), s.now, OutcomeOf(answer, m.next.IsRobots()))]
    case _ => s.breakers
  }

  function RowsNext(s: State, m: Move): Stores.Rows {
    match m.effect
    case Reserves(key, limit) => Stores.PostgresAfter(s.rows, ReserveCall(key, limit))
    case FailsToReserve(key, limit) => Stores.PostgresAfter(s.rows, ReserveCall(key, limit))
    case Returns(back) => ReturnedRows(s, back)
    case Marks(notice) => Stores.PostgresAfter(s.rows, MarkCall(s.now, notice))
    case _ => s.rows
  }

  function CacheNext(s: State, m: Move): map<Origin, Entry> {
    if m.effect.Lands? && m.effect.result.Left?
    then s.cache[m.next.origin := EntryFrom(s.now, m.next, m.effect.result.answer)] else s.cache
  }

  function InFlightNext(s: State, m: Move): map<Origin, TaskId> {
    match m.effect
    case StartsRetrieval => s.inFlight[m.next.origin := |s.tasks|]
    case Unlists => s.inFlight - {m.next.origin}
    case _ => s.inFlight
  }

  function LandedNext(s: State, m: Move): map<Origin, nat> {
    if m.effect.Lands? then s.landed[m.next.origin := LandedOf(s, m.next.origin) + 1] else s.landed
  }

  function GrantsNext(s: State, t: TaskId, m: Move): seq<Grant> {
    match m.effect
    case Reserves(key, limit) =>
      s.grants + [Grant(key, Stores.PostgresAnswer(s.rows, ReserveCall(key, limit)).consumed, t, Pending, None)]
    case Departs(unit) => SentGrants(s, unit)
    case Returns(back) => WithGrant(s.grants, back, GivenBack, None)
    case Finishes(unit, _) => SettledGrants(s, unit)
    case _ => s.grants
  }

  function WireNext(s: State, t: TaskId, m: Move): seq<Departure> {
    match m.effect
    case Departs(unit) => s.wire + [DepartureOf(s, t, m.next, unit)]
    case Hears(answer) => Heard(s.wire, m.next.departure, answer)
    case _ => s.wire
  }

  function MarkerNext(s: State, t: TaskId, m: Move): map<Notice, TaskId> {
    if m.effect.Marks? then Marker(s, t, m.effect.notice) else s.marker
  }

  function NoticesNext(s: State, m: Move): multiset<Notice> {
    if m.effect.Notifies? then s.notices + multiset{m.effect.notice} else s.notices
  }

  function HoldsNext(s: State, m: Move): seq<PlacedHold> {
    if m.effect.Finishes? && EarnsHold(m.effect.answer)
    then s.holds + [PlacedHold(m.next.Host(), s.now + m.effect.answer.holdMs)] else s.holds
  }

  function PausesNext(c: Config, s: State, m: Move): seq<Pause> {
    var x := m.next.source;
    if m.effect.Finishes? && Announces(BreakerOf(s, x), c.BreakerFor(x), s.now, OutcomeOf(m.effect.answer, m.next.IsRobots()))
    then s.pauses + [Pause(x, s.now + c.BreakerFor(x).pauseMs)] else s.pauses
  }

  /** The state after task `t` has made move `m`, one part of it at a time. */
  function Apply(c: Config, s: State, t: TaskId, m: Move): State
    requires t < |s.tasks|
  {
    State(s.now, HostsNext(c, s, m), QueuesNext(s, t, m), BreakersNext(c, s, m), RowsNext(s, m), CacheNext(s, m),
          InFlightNext(s, m), LandedNext(s, m), TasksNext(s, t, m), CalledNext(s, t, m), ServedNext(s, t, m),
          ReleasedNext(s, m), GrantsNext(s, t, m), WireNext(s, t, m), MarkerNext(s, t, m), NoticesNext(s, m),
          HoldsNext(s, m), PausesNext(c, s, m))
  }

  // ---------------------------------------------------------------------------
  // Runs.
  // ---------------------------------------------------------------------------

  /** `request` up to its first await: gates 1, 2 and 3, and the start of gate 4. */
  function Entering(c: Config, s: State, source: Source, origin: Origin, path: string): Move {
    var task := Task(source, origin, path, None, 0, 0, false, None, None, Asking);
    if origin.host !in c.hosts then Stay(task, Done(Refused(UnconfiguredHost)))
    else if source !in c.sources then Stay(task, Done(Refused(UnknownSource)))
    else AskGates(c, s, task)
  }

  function Arrived(s: State, m: Move): State {
    s.(tasks := s.tasks + [m.next], breakers := if m.effect.AsksBreaker? then StatusAsked(s, m.next.source) else s.breakers)
  }

  datatype Event =
    | Tick(ms: nat)
    | Forget(origin: Origin)
    | Arrive(source: Source, origin: Origin, path: string)
    | Act(t: TaskId, choice: Choice)

  /** Task `t` takes the step its job decides. */
  ghost predicate Acts(c: Config, s: State, t: TaskId, choice: Choice, s': State) {
    && Enabled(c, s, t, choice)
    && s' == Apply(c, s, t, Decide(c, s, t, choice))
  }

  ghost predicate Step(c: Config, s: State, event: Event, s': State) {
    match event
    case Tick(ms) => s' == s.(now := s.now + ms)
    case Forget(o) => s' == s.(cache := s.cache - {o})
    case Arrive(source, origin, path) => s' == Arrived(s, Entering(c, s, source, origin, path))
    case Act(t, choice) => Acts(c, s, t, choice, s')
  }

  predicate Init(s: State) {
    && s.now >= 0
    && s == State(s.now, map[], map[], map[], map[], map[], map[], map[], [],
                  map[], map[], map[], [], [], map[], multiset{}, [], [])
  }

  /** Any interleaving of any number of requests: each state follows from the one before by the event beside it. */
  ghost predicate IsRun(c: Config, states: seq<State>, events: seq<Event>) {
    && |states| == |events| + 1
    && Init(states[0])
    && forall i {:trigger events[i]} :: 0 <= i < |events| ==> Step(c, states[i], events[i], states[i + 1])
  }
}
