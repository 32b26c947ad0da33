/** Why a call was refused: what its reason says was true, of whom, and when. */
module GovernorReasons {
  import opened Prelude
  import opened CircuitBreaker
  import opened Governor
  import opened GovernorMoves
  import opened GovernorTables
  import opened GovernorHistory
  import opened GovernorRuns
  import opened GovernorOutcomes
  import RobotsMatch
  import RobotsText
  import Witness = GovernorWitness
  import Stores = AllowanceStores

  // ---------------------------------------------------------------------------
  // What a reason says.
  // ---------------------------------------------------------------------------

  /** A period that has begun whose counter has reached the limit. */
  predicate Spent(c: Config, s: State, source: Source, period: int) {
    && source in c.sources && c.sources[source].allowance.Some?
    && var a := c.sources[source].allowance.value;
       && Aligned(period, a.periodMs) && period <= s.now
       && Stores.View(s.rows, Stores.Key(source, period)).consumed >= a.limit
  }

  /**
   The answer a round rests on no longer stands: a retrieval has landed, a hold runs, or the
   verdict has expired where it could be fresher.
   */
  predicate Broken(c: Config, s: State, task: Task) {
    || LandedOf(s, task.origin) != task.landedBefore
    || HostOf(s, task.Host()).holdUntil > s.now
    || (&& !task.IsRobots() && task.Host() in c.hosts && c.hosts[task.Host()].minDelayMs < c.cacheBoundMs
        && !(task.origin in s.cache && s.now - s.cache[task.origin].fetchedAt < c.cacheBoundMs))
  }

  /** In state `s` the reason holds of send `r`: of its source, of its host, or of its last round. */
  ghost predicate Cause(c: Config, s: State, r: TaskId, reason: Reason)
    requires r < |s.tasks|
  {
    var task := s.tasks[r];
    match reason
    case SourcePaused => Paused(BreakerOf(s, task.source), s.now)
    case AllowanceExhausted => exists period :: Spent(c, s, task.source, period)
    case HostHeld => task.round == 3 && HostOf(s, task.Host()).holdUntil > s.now
    case RobotsStale => task.round == 3 && Broken(c, s, task)
    case _ => false
  }

  ghost predicate CauseAt(c: Config, states: seq<State>, j: nat, r: TaskId, reason: Reason) {
    j < |states| && r < |states[j].tasks| && Cause(c, states[j], r, reason)
  }

  /** By state `i` of the run there was one in which the reason held. */
  ghost predicate Was(c: Config, states: seq<State>, i: nat, r: TaskId, reason: Reason) {
    exists j: nat :: j <= i && CauseAt(c, states, j, r, reason)
  }

  predicate BrokenAt(c: Config, states: seq<State>, j: nat, r: TaskId, round: nat) {
    && j < |states| && r < |states[j].tasks|
    && states[j].tasks[r].round == round && Broken(c, states[j], states[j].tasks[r])
  }

  ghost predicate WasBroken(c: Config, states: seq<State>, i: nat, r: TaskId, round: nat) {
    exists j: nat :: j <= i && BrokenAt(c, states, j, r, round)
  }

  predicate JoinedAt(states: seq<State>, j: nat, t: TaskId, r: TaskId) {
    && j < |states| && t < |states[j].tasks|
    && states[j].tasks[t].at.Joined? && states[j].tasks[t].at.retrieval == r
  }

  /** By state `i` request `t` had waited for retrieval `r`, which was for its origin and was refused for that reason. */
  ghost predicate Inherits(states: seq<State>, i: nat, t: TaskId, r: TaskId, reason: Reason) {
    && i < |states| && t < |states[i].tasks| && r < |states[i].tasks|
    && (exists j: nat :: j <= i && JoinedAt(states, j, t, r))
    && states[i].tasks[r].IsRobots() && states[i].tasks[r].origin == states[i].tasks[t].origin
    && states[i].tasks[r].at == Landed(Declined(reason))
  }

  ghost predicate FromARetrieval(states: seq<State>, i: nat, t: TaskId, reason: Reason) {
    exists r: TaskId :: Inherits(states, i, t, r, reason)
  }

  // ---------------------------------------------------------------------------
  // Every reason a task carries has a cause, in every state of every run.
  // ---------------------------------------------------------------------------

  predicate BegunPeriod(c: Config, s: State, task: Task) {
    PeriodAt(task.at).Some? ==>
      && c.Metered(task.source) && Aligned(PeriodAt(task.at).value, c.Allowance(task.source).periodMs)
      && PeriodAt(task.at).value <= s.now
  }

  /** The refusal by gate 3, 4 or 6 that the task is on its way to, or has settled with. */
  function ReasonAt(c: Config, task: Task): Option<Reason> {
    match task.at
    case Checked(_, consumed) =>
      if c.Metered(task.source) && consumed >= c.Allowance(task.source).limit then Some(AllowanceExhausted) else None
    case Marking(_, next) => if next.ThenRefuse? then Some(AllowanceExhausted) else None
    case Noticing(_, next) => if next.ThenRefuse? then Some(AllowanceExhausted) else None
    case GivingBack(_, why) => why
    case GaveBack(why) => why
    case Landing(result) => if result.Stopped? then Some(result.reason) else None
    case Landed(found) => if found.Declined? then Some(found.reason) else None
    case _ => None
  }

  /** A reason that a request has from a retrieval, or has settled with. */
  function SettledReason(p: Point): Option<Reason> {
    match p
    case Deciding(found) => if found.Declined? then Some(found.reason) else None
    case Done(outcome) => if outcome.Refused? && Gate(outcome.reason) then Some(outcome.reason) else None
    case _ => None
  }

  ghost predicate Backed(c: Config, states: seq<State>, i: nat, t: TaskId)
    requires i < |states| && t < |states[i].tasks|
  {
    var task := states[i].tasks[t];
    && BegunPeriod(c, states[i], task)
    && (ReasonAt(c, task).Some? ==> Was(c, states, i, t, ReasonAt(c, task).value))
    && (Returning(task.at) && WhyAt(task.at) == None ==> WasBroken(c, states, i, t, task.round))
    && (SettledReason(task.at).Some? ==>
          || (task.at.Done? && Was(c, states, i, t, SettledReason(task.at).value))
          || FromARetrieval(states, i, t, SettledReason(task.at).value))
  }

  ghost predicate AllBacked(c: Config, states: seq<State>, i: nat)
    requires i < |states|
  {
    forall t :: 0 <= t < |states[i].tasks| ==> Backed(c, states, i, t)
  }

  // ---------------------------------------------------------------------------
  // One move.
  // ---------------------------------------------------------------------------

  /** The reason holds in this state, or is the one the task carries. */
  ghost predicate Grounded(c: Config, s: State, t: TaskId, reason: Reason)
    requires t < |s.tasks|
  {
    || Cause(c, s, t, reason)
    || ReasonAt(c, s.tasks[t]) == Some(reason)
    || (reason.RobotsStale? && s.tasks[t].at == GaveBack(None) && s.tasks[t].round == MAX_BOUNDARY_WAITS)
  }

  lemma PeriodBegins(now: int, periodMs: nat)
    requires periodMs >= 1
    ensures PeriodStart(now, periodMs) <= now
  {
    PeriodIsTheOnlyOne(now, periodMs, PeriodStart(now, periodMs));
  }

  lemma NextPeriodHasBegun(c: Config, s: State, task: Task, m: Move)
    requires c.Valid() && BegunPeriod(c, s, task) && PeriodsBegin(c, s, task, m) && SameCall(task, m.next)
    ensures BegunPeriod(c, s, m.next)
  {
    if c.Metered(task.source) {
      PeriodStartIsAligned(s.now, c.Allowance(task.source).periodMs);
      PeriodBegins(s.now, c.Allowance(task.source).periodMs);
    }
  }

  /** A counter read at the limit is one that is spent. */
  lemma SpentIsCause(c: Config, s: State, t: TaskId, period: int)
    requires t < |s.tasks| && PeriodAt(s.tasks[t].at) == Some(period) && BegunPeriod(c, s, s.tasks[t])
    requires ConsumedAt(s, s.tasks[t], period) >= c.Allowance(s.tasks[t].source).limit
    ensures Cause(c, s, t, AllowanceExhausted)
  {
    assert Spent(c, s, s.tasks[t].source, period);
  }

  /** A send refused with nobody else's reason is refused for one that is grounded. */
  lemma ExplainedIsGrounded(c: Config, s: State, t: TaskId, reason: Reason)
    requires t < |s.tasks| && BegunPeriod(c, s, s.tasks[t]) && Explained(c, s, s.tasks[t], reason)
    requires Gate(reason) && !Inherited(s.tasks[t], reason)
    ensures Grounded(c, s, t, reason)
  {
    var task := s.tasks[t];
    if reason.AllowanceExhausted? && task.at.Reserving? {
      SpentIsCause(c, s, t, task.at.period);
    }
  }

  /** What a move may make of a task's reason. */
  ghost predicate LocalReason(c: Config, s: State, t: TaskId, m: Move)
    requires t < |s.tasks|
  {
    var task := s.tasks[t];
    && BegunPeriod(c, s, m.next)
    && (ReasonAt(c, m.next).Some? ==> Grounded(c, s, t, ReasonAt(c, m.next).value))
    && (Returning(m.next.at) && WhyAt(m.next.at) == None ==>
          m.next.round == task.round && (!BoundaryHolds(c, s, task) || (Returning(task.at) && WhyAt(task.at) == None)))
    && (m.next.at.Deciding? && m.next.at.found.Declined? ==>
          task.at.Joined? && CanJoin(s, task) && s.tasks[task.at.retrieval].at.found == m.next.at.found)
    && (m.next.at.Done? && SettledReason(m.next.at).Some? ==>
          var reason := SettledReason(m.next.at).value;
          Grounded(c, s, t, reason) || task.at == Deciding(Declined(reason)))
  }

  lemma EndsGrounded(c: Config, s: State, t: TaskId, m: Move)
    requires t < |s.tasks| && Shape(c, s.tasks[t]) && SameCall(s.tasks[t], m.next) && BegunPeriod(c, s, s.tasks[t])
    requires EndsHonestly(c, s, s.tasks[t], m)
    ensures m.next.at.Landing? && m.next.at.result.Stopped? && s.tasks[t].IsRobots() ==> Grounded(c, s, t, m.next.at.result.reason)
    ensures m.next.at.Done? && SettledReason(m.next.at).Some? ==>
              Grounded(c, s, t, SettledReason(m.next.at).value) || s.tasks[t].at == Deciding(Declined(SettledReason(m.next.at).value))
  {
    var task := s.tasks[t];
    if m.next.at.Landing? && m.next.at.result.Stopped? && task.IsRobots() {
      ExplainedIsGrounded(c, s, t, m.next.at.result.reason);
    }
    if m.next.at.Done? && SettledReason(m.next.at).Some? && !Inherited(task, SettledReason(m.next.at).value) {
      ExplainedIsGrounded(c, s, t, SettledReason(m.next.at).value);
    }
  }

  lemma MovesForAReason(c: Config, s: State, t: TaskId, m: Move)
    requires c.Valid() && t < |s.tasks| && Shape(c, s.tasks[t]) && BegunPeriod(c, s, s.tasks[t])
    requires Local(c, s, t, s.tasks[t], m) && EndsHonestly(c, s, s.tasks[t], m)
    ensures LocalReason(c, s, t, m)
  {
    var task := s.tasks[t];
    NextPeriodHasBegun(c, s, task, m);
    EndsGrounded(c, s, t, m);
    if m.next.at.Checked? && ReasonAt(c, m.next).Some? {
      SpentIsCause(c, s, t, task.at.period);
    }
    ReasonsCarried(c, s, t, m);
  }

  lemma ReasonsCarried(c: Config, s: State, t: TaskId, m: Move)
    requires t < |s.tasks| && Shape(c, s.tasks[t]) && Shape(c, m.next)
    requires Local(c, s, t, s.tasks[t], m) && EndsHonestly(c, s, s.tasks[t], m)
    ensures ReasonAt(c, m.next).Some? && !m.next.at.Checked? && !m.next.at.Landing? ==> Grounded(c, s, t, ReasonAt(c, m.next).value)
    ensures Returning(m.next.at) && WhyAt(m.next.at) == None ==>
              m.next.round == s.tasks[t].round &&
              (!BoundaryHolds(c, s, s.tasks[t]) || (Returning(s.tasks[t].at) && WhyAt(s.tasks[t].at) == None))
    ensures m.next.at.Landing? ==> s.tasks[t].IsRobots()
  {
  }

  // ---------------------------------------------------------------------------
  // Along a run.
  // ---------------------------------------------------------------------------

  lemma WasStays(c: Config, states: seq<State>, i: nat, k: nat, t: TaskId, reason: Reason)
    requires i <= k && Was(c, states, i, t, reason)
    ensures Was(c, states, k, t, reason)
  {
    var j: nat :| j <= i && CauseAt(c, states, j, t, reason);
  }

  lemma BrokenStays(c: Config, states: seq<State>, i: nat, k: nat, t: TaskId, round: nat)
    requires i <= k && WasBroken(c, states, i, t, round)
    ensures WasBroken(c, states, k, t, round)
  {
    var j: nat :| j <= i && BrokenAt(c, states, j, t, round);
  }

  /** What is grounded in a state whose tasks are backed has been true by then. */
  lemma GroundedWas(c: Config, states: seq<State>, i: nat, t: TaskId, reason: Reason)
    requires i < |states| && t < |states[i].tasks| && Backed(c, states, i, t) && Grounded(c, states[i], t, reason)
    ensures Was(c, states, i, t, reason)
  {
    if Cause(c, states[i], t, reason) {
      assert CauseAt(c, states, i, t, reason);
    } else if ReasonAt(c, states[i].tasks[t]) != Some(reason) {
      var j: nat :| j <= i && BrokenAt(c, states, j, t, states[i].tasks[t].round);
      assert CauseAt(c, states, j, t, reason);
    }
  }

  /** A refused retrieval stays refused, and whoever waited for it has waited for it. */
  lemma InheritsStays(states: seq<State>, i: nat, t: TaskId, r: TaskId, reason: Reason)
    requires i + 1 < |states| && Inherits(states, i, t, r, reason)
    requires t < |states[i + 1].tasks| && states[i + 1].tasks[t].origin == states[i].tasks[t].origin
    requires r < |states[i + 1].tasks| && states[i + 1].tasks[r] == states[i].tasks[r]
    ensures Inherits(states, i + 1, t, r, reason)
  {
    var j: nat :| j <= i && JoinedAt(states, j, t, r);
    assert j <= i + 1 && JoinedAt(states, j, t, r);
  }

  lemma ActorIsBacked(c: Config, states: seq<State>, i: nat, t: TaskId, m: Move)
    requires i + 1 < |states| && t < |states[i].tasks| && states[i + 1] == Apply(c, states[i], t, m)
    requires Backed(c, states, i, t) && LocalReason(c, states[i], t, m) && SameCall(states[i].tasks[t], m.next)
    requires JoinedOk(states[i], t) && !states[i].tasks[t].Finished()
    ensures t < |states[i + 1].tasks| && Backed(c, states, i + 1, t)
  {
    var s, s', task := states[i], states[i + 1], states[i].tasks[t];
    TasksAfter(c, s, t, m);
    assert s'.tasks[t] == m.next && s'.now == s.now;
    if ReasonAt(c, m.next).Some? {
      GroundedWas(c, states, i, t, ReasonAt(c, m.next).value);
      WasStays(c, states, i, i + 1, t, ReasonAt(c, m.next).value);
    }
    if Returning(m.next.at) && WhyAt(m.next.at) == None {
      assert !BoundaryHolds(c, s, task) ==> BrokenAt(c, states, i, t, task.round);
      BrokenStays(c, states, i, i + 1, t, task.round);
    }
    if SettledReason(m.next.at).Some? {
      SettlesBacked(c, states, i, t, m, SettledReason(m.next.at).value);
    }
  }

  lemma SettlesBacked(c: Config, states: seq<State>, i: nat, t: TaskId, m: Move, reason: Reason)
    requires i + 1 < |states| && t < |states[i].tasks| && states[i + 1] == Apply(c, states[i], t, m)
    requires Backed(c, states, i, t) && LocalReason(c, states[i], t, m) && SameCall(states[i].tasks[t], m.next)
    requires JoinedOk(states[i], t) && !states[i].tasks[t].Finished()
    requires SettledReason(m.next.at) == Some(reason)
    ensures (m.next.at.Done? && Was(c, states, i + 1, t, reason)) || FromARetrieval(states, i + 1, t, reason)
  {
    var s, task := states[i], states[i].tasks[t];
    TasksAfter(c, s, t, m);
    if m.next.at.Deciding? {
      assert JoinedAt(states, i, t, task.at.retrieval);
      assert Inherits(states, i + 1, t, task.at.retrieval, reason);
    } else if Grounded(c, s, t, reason) {
      GroundedWas(c, states, i, t, reason);
      WasStays(c, states, i, i + 1, t, reason);
    } else {
      var r: TaskId :| Inherits(states, i, t, r, reason);
      InheritsStays(states, i, t, r, reason);
    }
  }

  /** A task that did not act, or a retrieval just started. */
  lemma OtherIsBacked(c: Config, states: seq<State>, i: nat, t: TaskId, m: Move, u: TaskId)
    requires i + 1 < |states| && t < |states[i].tasks| && states[i + 1] == Apply(c, states[i], t, m)
    requires AllBacked(c, states, i) && u < |states[i + 1].tasks| && u != t && !states[i].tasks[t].Finished()
    ensures Backed(c, states, i + 1, u)
  {
    TasksAfter(c, states[i], t, m);
    if u < |states[i].tasks| {
      assert Backed(c, states, i, u);
      StaysBacked(c, states, i, u, t);
    }
  }

  /** An unchanged task stays backed, while only `t`, an unfinished one, may have changed. */
  lemma StaysBacked(c: Config, states: seq<State>, i: nat, u: TaskId, t: TaskId)
    requires i + 1 < |states| && u < |states[i].tasks| <= |states[i + 1].tasks| && Backed(c, states, i, u)
    requires states[i].now <= states[i + 1].now && states[i + 1].tasks[u] == states[i].tasks[u]
    requires forall v :: 0 <= v < |states[i].tasks| && v != t ==> states[i + 1].tasks[v] == states[i].tasks[v]
    requires t < |states[i].tasks| ==> !states[i].tasks[t].Finished()
    ensures Backed(c, states, i + 1, u)
  {
    var task := states[i].tasks[u];
    if ReasonAt(c, task).Some? {
      WasStays(c, states, i, i + 1, u, ReasonAt(c, task).value);
    }
    if Returning(task.at) && WhyAt(task.at) == None {
      BrokenStays(c, states, i, i + 1, u, task.round);
    }
    if SettledReason(task.at).Some? {
      var reason := SettledReason(task.at).value;
      if task.at.Done? && Was(c, states, i, u, reason) {
        WasStays(c, states, i, i + 1, u, reason);
      } else {
        var r: TaskId :| Inherits(states, i, u, r, reason);
        InheritsStays(states, i, u, r, reason);
      }
    }
  }

  /** A request that has just arrived: turned away by gate 3, if at all, because of a pause that runs. */
  lemma NewcomerIsBacked(c: Config, states: seq<State>, events: seq<Event>, i: nat, u: TaskId)
    requires c.Valid() && IsRun(c, states, events) && i < |events| && !events[i].Act?
    requires |states[i].tasks| <= u < |states[i + 1].tasks|
    ensures Backed(c, states, i + 1, u)
  {
    EntersBacked(c, states, events, i, u);
    if SettledReason(states[i + 1].tasks[u].at).Some? {
      assert CauseAt(c, states, i + 1, u, SourcePaused);
    }
  }

  lemma EntersBacked(c: Config, states: seq<State>, events: seq<Event>, i: nat, u: TaskId)
    requires c.Valid() && IsRun(c, states, events) && i < |events| && !events[i].Act?
    requires |states[i].tasks| <= u < |states[i + 1].tasks|
    ensures var s', task := states[i + 1], states[i + 1].tasks[u];
            && BegunPeriod(c, s', task) && ReasonAt(c, task) == None && !Returning(task.at)
            && (SettledReason(task.at).Some? ==>
                  SettledReason(task.at) == Some(SourcePaused) && task.at.Done? && Paused(BreakerOf(s', task.source), s'.now))
  {
    var s, e := states[i], events[i];
    assert Step(c, s, e, states[i + 1]) && e.Arrive?;
    EnteringIsBacked(c, s, e.source, e.origin, e.path);
  }

  lemma EnteringIsBacked(c: Config, s: State, source: Source, origin: Origin, path: string)
    requires c.Valid()
    ensures var task := Entering(c, s, source, origin, path).next;
            && task.source == source && BegunPeriod(c, s, task) && ReasonAt(c, task) == None && !Returning(task.at)
            && (SettledReason(task.at).Some? ==>
                  SettledReason(task.at) == Some(SourcePaused) && task.at.Done? && Paused(BreakerOf(s, source), s.now))
  {
    if c.Metered(source) {
      PeriodStartIsAligned(s.now, c.Allowance(source).periodMs);
      PeriodBegins(s.now, c.Allowance(source).periodMs);
    }
  }

  lemma NextAllBacked(c: Config, states: seq<State>, events: seq<Event>, i: nat)
    requires c.Valid() && IsRun(c, states, events) && i < |events| && Outcomes(states[i]) && AllBacked(c, states, i)
    ensures AllBacked(c, states, i + 1)
  {
    if events[i].Act? {
      NextBackedByJob(c, states, events, i);
    } else {
      PauseOf(c, states, events, i);
      var k := i + 1;
      forall u | 0 <= u < |states[k].tasks| ensures Backed(c, states, k, u) {
        if u < |states[i].tasks| {
          StaysBacked(c, states, i, u, |states[i].tasks|);
        } else {
          NewcomerIsBacked(c, states, events, i, u);
        }
      }
    }
  }

  lemma NextBackedByJob(c: Config, states: seq<State>, events: seq<Event>, i: nat)
    requires c.Valid() && IsRun(c, states, events) && i < |events| && events[i].Act?
    requires Outcomes(states[i]) && AllBacked(c, states, i)
    ensures AllBacked(c, states, i + 1)
  {
    var t := events[i].t;
    var m := HonestJobOf(c, states, events, i);
    assert Backed(c, states, i, t) && JoinedOk(states[i], t) && Shape(c, states[i].tasks[t]);
    MovesForAReason(c, states[i], t, m);
    var k := i + 1;
    forall u | 0 <= u < |states[k].tasks| ensures Backed(c, states, k, u) {
      if u == t {
        ActorIsBacked(c, states, i, t, m);
      } else {
        OtherIsBacked(c, states, i, t, m, u);
      }
    }
  }

  lemma {:induction false} EveryReasonIsBacked(c: Config, states: seq<State>, events: seq<Event>, i: nat)
    requires c.Valid() && IsRun(c, states, events) && i < |states|
    ensures AllBacked(c, states, i)
  {
    if i > 0 {
      EveryReasonIsBacked(c, states, events, i - 1);
      OutcomesAlways(c, states, events, i - 1);
      NextAllBacked(c, states, events, i - 1);
    }
  }

  // ---------------------------------------------------------------------------
  // What a refusal means.
  // ---------------------------------------------------------------------------

  /** The send a refusal is about: the request's own, or that of a retrieval it waited for. */
  ghost predicate About(states: seq<State>, i: nat, t: TaskId, r: TaskId, reason: Reason) {
    r == t || Inherits(states, i, t, r, reason)
  }

  /**
   REFUSALS HAVE CAUSES: a request refused by gate 3, 4 or 6 was refused for something
   that really held, at some earlier instant, of the send the refusal is about: the
   request's own, or that of the robots retrieval it had waited for.
   */
  lemma RefusalsHaveCauses(c: Config, states: seq<State>, events: seq<Event>, i: nat, t: TaskId, reason: Reason) returns (r: TaskId)
    requires c.Valid() && IsRun(c, states, events) && i < |states| && t < |states[i].tasks|
    requires states[i].tasks[t].at == Done(Refused(reason)) && Gate(reason)
    ensures About(states, i, t, r, reason) && r < |states[i].tasks|
    ensures Was(c, states, i, r, reason)
  {
    EveryReasonIsBacked(c, states, events, i);
    r := CauseOf(c, states, i, t, reason);
  }

  lemma CauseOf(c: Config, states: seq<State>, i: nat, t: TaskId, reason: Reason) returns (r: TaskId)
    requires i < |states| && t < |states[i].tasks| && AllBacked(c, states, i)
    requires states[i].tasks[t].at == Done(Refused(reason)) && Gate(reason)
    ensures About(states, i, t, r, reason) && r < |states[i].tasks| && Was(c, states, i, r, reason)
  {
    assert Backed(c, states, i, t);
    if Was(c, states, i, t, reason) {
      r := t;
    } else {
      r :| Inherits(states, i, t, r, reason);
      RetrievalWas(c, states, i, t, r, reason);
    }
  }

  lemma RetrievalWas(c: Config, states: seq<State>, i: nat, t: TaskId, r: TaskId, reason: Reason)
    requires i < |states| && AllBacked(c, states, i) && Inherits(states, i, t, r, reason)
    ensures Was(c, states, i, r, reason)
  {
    assert Backed(c, states, i, r);
  }

  // ---------------------------------------------------------------------------
  // Of whom it is true.
  // ---------------------------------------------------------------------------

  lemma {:induction false} CallsStay(c: Config, states: seq<State>, events: seq<Event>, j: nat, i: nat, r: TaskId)
    requires c.Valid() && IsRun(c, states, events) && j <= i < |states| && r < |states[j].tasks|
    ensures r < |states[i].tasks| && SameCall(states[j].tasks[r], states[i].tasks[r])
    decreases i
  {
    if j < i {
      CallsStay(c, states, events, j, i - 1, r);
      NextCallIsSame(c, states, events, i - 1, r);
    }
  }

  lemma NextCallIsSame(c: Config, states: seq<State>, events: seq<Event>, i: nat, r: TaskId)
    requires c.Valid() && IsRun(c, states, events) && i < |events| && r < |states[i].tasks|
    ensures r < |states[i + 1].tasks| && SameCall(states[i].tasks[r], states[i + 1].tasks[r])
  {
    if events[i].Act? {
      var m := JobOf(c, states, events, i);
      TasksAfter(c, states[i], events[i].t, m);
    } else {
      PauseOf(c, states, events, i);
    }
  }

  /** The reason is true of that source, or of that host. */
  ghost predicate TrueAt(c: Config, s: State, source: Source, host: Host, reason: Reason) {
    match reason
    case SourcePaused => Paused(BreakerOf(s, source), s.now)
    case AllowanceExhausted => exists period :: Spent(c, s, source, period)
    case HostHeld => HostOf(s, host).holdUntil > s.now
    case _ => false
  }

  ghost predicate TrueOf(c: Config, states: seq<State>, i: nat, source: Source, host: Host, reason: Reason) {
    exists j: nat :: j <= i && j < |states| && TrueAt(c, states[j], source, host, reason)
  }

  /** What a reason blames: a host, or one source. */
  predicate BlamesSource(reason: Reason) { reason.SourcePaused? || reason.AllowanceExhausted? }

  /**
   A refusal is true of the caller's own source if it is its own, or its retrieval was for that
   source; and of its host in any case.
   */
  lemma RefusalIsTrueOfCaller(c: Config, states: seq<State>, events: seq<Event>, i: nat, t: TaskId, r: TaskId, reason: Reason)
    requires c.Valid() && IsRun(c, states, events) && i < |states| && t < |states[i].tasks| && r < |states[i].tasks|
    requires About(states, i, t, r, reason) && Was(c, states, i, r, reason)
    requires reason.HostHeld? || (BlamesSource(reason) && states[i].tasks[r].source == states[i].tasks[t].source)
    ensures TrueOf(c, states, i, states[i].tasks[t].source, states[i].tasks[t].Host(), reason)
  {
    var j: nat :| j <= i && CauseAt(c, states, j, r, reason);
    CallsStay(c, states, events, j, i, r);
    assert TrueAt(c, states[j], states[i].tasks[t].source, states[i].tasks[t].Host(), reason);
  }

  /** Request `t` was refused for that reason, which is about send `r`. */
  ghost predicate RefusedAbout(c: Config, states: seq<State>, events: seq<Event>, i: nat, t: TaskId, r: TaskId, reason: Reason) {
    && c.Valid() && IsRun(c, states, events) && i < |states| && t < |states[i].tasks| && r < |states[i].tasks|
    && states[i].tasks[t].at == Done(Refused(reason))
    && About(states, i, t, r, reason) && Was(c, states, i, r, reason)
  }

  /**
   In every run, a refusal for that reason is true of the caller's source when the send it is about
   is of the same source, or of another.
   */
  ghost predicate TrueOfEveryCaller(reason: Reason, same: bool) {
    forall c: Config, states: seq<State>, events: seq<Event>, i: nat, t: TaskId, r: TaskId ::
      RefusedAbout(c, states, events, i, t, r, reason) && (states[i].tasks[r].source == states[i].tasks[t].source) == same ==>
      TrueOf(c, states, i, states[i].tasks[t].source, states[i].tasks[t].Host(), reason)
  }

  lemma SameSourceIsTrue(reason: Reason)
    requires BlamesSource(reason)
    ensures TrueOfEveryCaller(reason, true)
  {
    forall c: Config, states: seq<State>, events: seq<Event>, i: nat, t: TaskId, r: TaskId |
      RefusedAbout(c, states, events, i, t, r, reason) && states[i].tasks[r].source == states[i].tasks[t].source
      ensures TrueOf(c, states, i, states[i].tasks[t].source, states[i].tasks[t].Host(), reason)
    {
      RefusalIsTrueOfCaller(c, states, events, i, t, r, reason);
    }
  }

  /** A run in which a request of `b` is refused for a reason never true of `b`. */
  lemma AnothersReason(c: Config, s: State, b: Source, t: TaskId, reason: Reason)
    requires c.Valid() && Witness.Reachable(c, s, b) && t < |s.tasks| && s.tasks[t].source == b && s.tasks[t].at == Done(Refused(reason))
    requires reason.SourcePaused? || (reason.AllowanceExhausted? && !c.Metered(b))
    ensures !TrueOfEveryCaller(reason, false)
  {
    var states: seq<State>, events: seq<Event> :| Witness.RunTo(c, states, events, s) && Witness.NeverPaused(states, b);
    var i := |states| - 1;
    NeverTrue(c, states, i, b, s.tasks[t].Host(), reason);
    var r := RefusalsHaveCauses(c, states, events, i, t, reason);
    assert RefusedAbout(c, states, events, i, t, r, reason);
    if states[i].tasks[r].source == b {
      RefusalIsTrueOfCaller(c, states, events, i, t, r, reason);
    }
  }

  lemma NeverTrue(c: Config, states: seq<State>, i: nat, b: Source, host: Host, reason: Reason)
    requires Witness.NeverPaused(states, b)
    requires reason.SourcePaused? || (reason.AllowanceExhausted? && !c.Metered(b))
    ensures !TrueOf(c, states, i, b, host, reason)
  {
  }

  /**
   OF WHOM IT IS TRUE: that a source is paused, or its allowance spent, is true of the
   caller's own source in every run if and only if the send the refusal is about was
   for that source.
   */
  lemma TrueOfCallerIffSameSource(reason: Reason, same: bool)
    requires BlamesSource(reason)
    ensures TrueOfEveryCaller(reason, same) <==> same
  {
    if same {
      SameSourceIsTrue(reason);
    } else {
      var n := Witness.Names(Source("a"), Source("b"), Host("one"), Host("two"));
      if reason.SourcePaused? {
        var s := Witness.RefusedForAnothersPause(n);
        AnothersReason(Witness.World(n), s, n.b, 1, reason);
      } else {
        var s := Witness.RefusedForAnothersAllowance(n);
        AnothersReason(Witness.OneUnit(n), s, n.b, 2, reason);
      }
    }
  }

  // ---------------------------------------------------------------------------
  // Refusals by robots.txt.
  // ---------------------------------------------------------------------------

  /** The verdict is what some robots.txt request to the origin was answered with. */
  ghost predicate Known(s: State, o: Origin, e: Entry) { EvidenceOk(s, o, e, |s.wire|) }

  ghost predicate Forbids(c: Config, e: Entry, path: string, reason: Reason) {
    match reason
    case RobotsUnreachable => e.verdict.Unreachable?
    case RobotsDisallowed => e.verdict.Rules? && !Allows(c, e.verdict, path)
    case _ => false
  }

  predicate ByRobots(reason: Reason) { reason.RobotsUnreachable? || reason.RobotsDisallowed? }

  ghost predicate Forbidden(c: Config, s: State, task: Task, reason: Reason) {
    exists e: Entry :: Known(s, task.origin, e) && Forbids(c, e, task.path, reason)
  }

  ghost predicate RobotsBacked(c: Config, s: State, t: TaskId)
    requires t < |s.tasks|
  {
    var task := s.tasks[t];
    match task.at
    case Landed(found) => found.Learned? ==> Known(s, task.origin, found.entry)
    case Deciding(found) => found.Learned? ==> Known(s, task.origin, found.entry)
    case Done(outcome) => outcome.Refused? && ByRobots(outcome.reason) ==> Forbidden(c, s, task, outcome.reason)
    case _ => true
  }

  ghost predicate AllRobotsBacked(c: Config, s: State) { forall t :: 0 <= t < |s.tasks| ==> RobotsBacked(c, s, t) }

  /** What a move needs for no answer to be replaced. */
  ghost predicate Carries(c: Config, s: State, t: TaskId, m: Move) {
    && t < |s.tasks| && AnswerOk(s, t) && Shape(c, s.tasks[t])
    && SameCall(s.tasks[t], m.next) && LocalUnit(c, s, s.tasks[t], m) && LocalAnswer(s.tasks[t], m)
  }

  lemma KnownStays(c: Config, s: State, t: TaskId, m: Move, o: Origin, e: Entry)
    requires Carries(c, s, t, m) && Known(s, o, e)
    ensures Known(Apply(c, s, t, m), o, e)
  {
    EvidenceStays(c, s, t, m, o, e, |s.wire|);
  }

  lemma ForbiddenStays(c: Config, s: State, t: TaskId, m: Move, task: Task, reason: Reason)
    requires Carries(c, s, t, m) && Forbidden(c, s, task, reason)
    ensures Forbidden(c, Apply(c, s, t, m), task, reason)
  {
    var e: Entry :| Known(s, task.origin, e) && Forbids(c, e, task.path, reason);
    KnownStays(c, s, t, m, task.origin, e);
  }

  lemma OtherRobotsBacked(c: Config, s: State, t: TaskId, m: Move, u: TaskId)
    requires Carries(c, s, t, m) && u < |s.tasks| && u != t && RobotsBacked(c, s, u)
    ensures u < |Apply(c, s, t, m).tasks| && RobotsBacked(c, Apply(c, s, t, m), u)
  {
    TasksAfter(c, s, t, m);
    var task := s.tasks[u];
    match task.at {
      case Landed(found) => if found.Learned? { KnownStays(c, s, t, m, task.origin, found.entry); }
      case Deciding(found) => if found.Learned? { KnownStays(c, s, t, m, task.origin, found.entry); }
      case Done(outcome) =>
        if outcome.Refused? && ByRobots(outcome.reason) { ForbiddenStays(c, s, t, m, task, outcome.reason); }
      case _ =>
    }
  }

  /** A retrieval that lands with an answer has just put its verdict in the cache. */
  lemma LandedIsKnown(c: Config, s: State, t: TaskId, m: Move)
    requires Carries(c, s, t, m) && LocalTable(c, s, s.tasks[t], m) && m.next.at.Landed? && m.next.at.found.Learned?
    requires Caches(Apply(c, s, t, m))
    ensures Known(Apply(c, s, t, m), m.next.origin, m.next.at.found.entry)
  {
    assert CacheOk(Apply(c, s, t, m), m.next.origin);
  }

  /** A verdict in hand is the cached one, or that of the retrieval waited for. */
  lemma DecidingIsKnown(c: Config, s: State, t: TaskId, m: Move)
    requires Carries(c, s, t, m) && Caches(s) && JoinedOk(s, t) && AllRobotsBacked(c, s)
    requires LocalTable(c, s, s.tasks[t], m) && LocalVerdict(c, s, s.tasks[t], m)
    requires m.next.at.Deciding? && m.next.at.found.Learned?
    ensures Known(Apply(c, s, t, m), m.next.origin, m.next.at.found.entry)
  {
    var task := s.tasks[t];
    if task.at.Joined? {
      assert RobotsBacked(c, s, task.at.retrieval);
    } else {
      assert CacheOk(s, task.origin);
    }
    KnownStays(c, s, t, m, task.origin, m.next.at.found.entry);
  }

  lemma RobotsRefusalIsExplained(c: Config, s: State, task: Task, m: Move)
    requires SameCall(task, m.next) && EndsHonestly(c, s, task, m) && EndShape(task)
    requires task.at.Deciding? && task.at.found.Learned? ==> Known(s, task.origin, task.at.found.entry)
    requires m.next.at.Done? && m.next.at.outcome.Refused? && ByRobots(m.next.at.outcome.reason)
    ensures Forbidden(c, s, m.next, m.next.at.outcome.reason)
  {
  }

  lemma ActorRobotsBacked(c: Config, s: State, t: TaskId, m: Move)
    requires Carries(c, s, t, m) && Caches(s) && Caches(Apply(c, s, t, m)) && JoinedOk(s, t) && AllRobotsBacked(c, s)
    requires LocalTable(c, s, s.tasks[t], m) && LocalVerdict(c, s, s.tasks[t], m)
    requires EndsHonestly(c, s, s.tasks[t], m) && EndShape(s.tasks[t])
    ensures t < |Apply(c, s, t, m).tasks| && RobotsBacked(c, Apply(c, s, t, m), t)
  {
    TasksAfter(c, s, t, m);
    assert RobotsBacked(c, s, t);
    if m.next.at.Landed? && m.next.at.found.Learned? {
      LandedIsKnown(c, s, t, m);
    } else if m.next.at.Deciding? && m.next.at.found.Learned? {
      DecidingIsKnown(c, s, t, m);
    } else if m.next.at.Done? && m.next.at.outcome.Refused? && ByRobots(m.next.at.outcome.reason) {
      RobotsRefusalIsExplained(c, s, s.tasks[t], m);
      ForbiddenStays(c, s, t, m, m.next, m.next.at.outcome.reason);
    }
  }

  lemma RobotsBackedKept(c: Config, s: State, t: TaskId, m: Move)
    requires Carries(c, s, t, m) && Caches(s) && Caches(Apply(c, s, t, m)) && JoinedOk(s, t) && AllRobotsBacked(c, s)
    requires LocalTable(c, s, s.tasks[t], m) && LocalVerdict(c, s, s.tasks[t], m)
    requires EndsHonestly(c, s, s.tasks[t], m) && EndShape(s.tasks[t])
    ensures AllRobotsBacked(c, Apply(c, s, t, m))
  {
    TasksAfter(c, s, t, m);
    forall u | 0 <= u < |Apply(c, s, t, m).tasks| ensures RobotsBacked(c, Apply(c, s, t, m), u) {
      if u == t {
        ActorRobotsBacked(c, s, t, m);
      } else if u < |s.tasks| {
        assert RobotsBacked(c, s, u);
        OtherRobotsBacked(c, s, t, m, u);
      }
    }
  }

  lemma NextRobotsBacked(c: Config, states: seq<State>, events: seq<Event>, i: nat)
    requires c.Valid() && IsRun(c, states, events) && i < |events| && events[i].Act?
    requires Outcomes(states[i]) && AllRobotsBacked(c, states[i])
    ensures AllRobotsBacked(c, states[i + 1])
  {
    var s, t := states[i], events[i].t;
    var m := HonestJobOf(c, states, events, i);
    InvAlways(c, states, events, i + 1);
    assert AnswerOk(s, t) && Shape(c, s.tasks[t]) && JoinedOk(s, t) && OutcomeOk(s, t);
    RobotsBackedKept(c, s, t, m);
  }

  lemma RobotsBackedStays(c: Config, s: State, s': State, u: TaskId)
    requires u < |s.tasks| && u < |s'.tasks| && s'.tasks[u] == s.tasks[u] && s'.wire == s.wire && RobotsBacked(c, s, u)
    ensures RobotsBacked(c, s', u)
  {
    var task := s.tasks[u];
    if task.at.Done? && task.at.outcome.Refused? && ByRobots(task.at.outcome.reason) {
      var e: Entry :| Known(s, task.origin, e) && Forbids(c, e, task.path, task.at.outcome.reason);
      assert Known(s', task.origin, e);
    }
  }

  lemma RobotsBackedOutside(c: Config, s: State, s': State)
    requires Outside(c, s, s') && AllRobotsBacked(c, s)
    ensures AllRobotsBacked(c, s')
  {
    forall u | 0 <= u < |s'.tasks| ensures RobotsBacked(c, s', u) {
      if u < |s.tasks| {
        assert RobotsBacked(c, s, u);
        RobotsBackedStays(c, s, s', u);
      } else {
        assert Entered(c, s'.tasks[u]);
      }
    }
  }

  lemma {:induction false} RobotsAlwaysBacked(c: Config, states: seq<State>, events: seq<Event>, i: nat)
    requires c.Valid() && IsRun(c, states, events) && i < |states|
    ensures AllRobotsBacked(c, states[i])
  {
    if i > 0 {
      RobotsAlwaysBacked(c, states, events, i - 1);
      AnyStepRobotsBacked(c, states, events, i - 1);
    }
  }

  lemma AnyStepRobotsBacked(c: Config, states: seq<State>, events: seq<Event>, i: nat)
    requires c.Valid() && IsRun(c, states, events) && i < |events| && AllRobotsBacked(c, states[i])
    ensures AllRobotsBacked(c, states[i + 1])
  {
    if events[i].Act? {
      OutcomesAlways(c, states, events, i);
      NextRobotsBacked(c, states, events, i);
    } else {
      PauseOf(c, states, events, i);
      RobotsBackedOutside(c, states[i], states[i + 1]);
    }
  }

  /** No answer, or a status that neither gives the rules nor says there are none: section 2.3.1.4 of RFC 9309. */
  predicate ClosesOrigin(answer: Answer) {
    answer.NetworkFailure? || !(200 <= answer.status < 300 || 400 <= answer.status < 500)
  }

  /** A 2xx whose rules forbid the path. */
  ghost predicate RulesForbid(c: Config, answer: Answer, path: string) {
    && answer.Response? && 200 <= answer.status < 300
    && !RobotsMatch.PathAllowed(RobotsMatch.SelectGroup(RobotsText.Parsed(answer.body, answer.truncated).groups, c.productToken), path)
  }

  /**
   ROBOTS REFUSALS HAVE ANSWERS: a request refused by gate 5 was refused for what an
   earlier robots.txt request to its origin was answered with: an answer that closes
   the origin, or rules that forbid the path.
   */
  lemma RobotsRefusalsHaveAnswers(c: Config, states: seq<State>, events: seq<Event>, i: nat, t: TaskId, reason: Reason) returns (k: nat)
    requires c.Valid() && IsRun(c, states, events) && i < |states| && t < |states[i].tasks|
    requires states[i].tasks[t].at == Done(Refused(reason)) && (reason.RobotsUnreachable? || reason.RobotsDisallowed?)
    ensures var s, task := states[i], states[i].tasks[t];
            && k < |s.wire| && s.wire[k].robots && s.wire[k].path == "/robots.txt" && s.wire[k].origin == task.origin
            && s.wire[k].answer.Some?
            && if reason.RobotsUnreachable? then ClosesOrigin(s.wire[k].answer.value)
               else RulesForbid(c, s.wire[k].answer.value, task.path)
  {
    RobotsAlwaysBacked(c, states, events, i);
    assert RobotsBacked(c, states[i], t);
    var task := states[i].tasks[t];
    var e: Entry :| Known(states[i], task.origin, e) && Forbids(c, e, task.path, reason);
    k := e.evidence;
  }
}
