/** The governor's promises, over every run. */
module GovernorSafety {
  import opened Prelude
  import opened HostScheduling
  import opened CircuitBreaker
  import opened Governor
  import opened GovernorMoves
  import opened GovernorTables
  import opened GovernorVerdicts
  import opened GovernorLedger
  import opened GovernorNotices
  import opened GovernorPacing
  import opened GovernorHistory
  import opened GovernorWork
  import opened GovernorRuns
  import Stores = AllowanceStores

  // ---------------------------------------------------------------------------
  // The process boundary.
  // ---------------------------------------------------------------------------

  /** Everything that must be true of task `t` in the state in which its request leaves. */
  ghost predicate SafeToLeave(c: Config, s: State, t: TaskId)
    requires t < |s.tasks|
  {
    var task := s.tasks[t];
    && !Paused(BreakerOf(s, task.source), s.now)
    && (forall j :: 0 <= j < |s.pauses| && s.pauses[j].source == task.source ==> s.pauses[j].until <= s.now)
    && (forall j :: 0 <= j < |s.holds| && s.holds[j].host == task.Host() ==> s.holds[j].until <= s.now)
    && LandedOf(s, task.origin) == task.landedBefore
    && task.at.Holding?
    && (task.source in c.sources && c.sources[task.source].allowance.Some? ==> HoldsUnit(s, t, task.at.unit))
    && (!task.IsRobots() && task.Host() in c.hosts && c.hosts[task.Host()].minDelayMs < c.cacheBoundMs ==>
          && task.origin in s.cache && s.now - s.cache[task.origin].fetchedAt < c.cacheBoundMs
          && Allows(c, s.cache[task.origin].verdict, task.path))
    && (!task.IsRobots() && task.round == 1 ==> task.decided.Some? && Allows(c, task.decided.value.verdict, task.path))
  }

  predicate HoldsUnit(s: State, t: TaskId, unit: Option<nat>)
    requires t < |s.tasks|
  {
    && unit.Some? && unit.value < |s.grants|
    && s.grants[unit.value].status.Pending? && s.grants[unit.value].owner == t
    && s.grants[unit.value].key.source == s.tasks[t].source
  }

  /**
   THE PROCESS BOUNDARY: in every interleaving, a request that reaches the wire in a step is safe
   to leave in that very state.
   */
  lemma NothingLeavesUnsafely(c: Config, states: seq<State>, events: seq<Event>, i: nat)
    requires c.Valid() && IsRun(c, states, events) && i < |events| && events[i].Act?
    requires |states[i + 1].wire| > |states[i].wire|
    ensures events[i].t < |states[i].tasks| && SafeToLeave(c, states[i], events[i].t)
    ensures |states[i + 1].wire| == |states[i].wire| + 1 && states[i + 1].wire[|states[i].wire|].task == events[i].t
  {
    var m := JobOf(c, states, events, i);
    LeavingIsSafe(c, states[i], events[i].t, m);
  }

  lemma LeavingIsSafe(c: Config, s: State, t: TaskId, m: Move)
    requires Inv(c, s) && t < |s.tasks| && Local(c, s, t, s.tasks[t], m)
    requires |Apply(c, s, t, m).wire| > |s.wire|
    ensures SafeToLeave(c, s, t)
    ensures |Apply(c, s, t, m).wire| == |s.wire| + 1 && Apply(c, s, t, m).wire[|s.wire|].task == t
  {
    GrantsAfter(c, s, t, m);
    assert m.effect.Departs?;
    assert Shape(c, s.tasks[t]) && VerdictOk(c, s, t) && UnitOk(s, t);
    DepartsSafely(c, s, t, m);
  }

  lemma DepartsSafely(c: Config, s: State, t: TaskId, m: Move)
    requires Remembers(s) && t < |s.tasks| && LocalUnit(c, s, s.tasks[t], m) && m.effect.Departs?
    requires Shape(c, s.tasks[t]) && VerdictOk(c, s, t) && UnitOk(s, t)
    ensures SafeToLeave(c, s, t)
  {
    var task := s.tasks[t];
    forall j | 0 <= j < |s.pauses| && s.pauses[j].source == task.source ensures s.pauses[j].until <= s.now {
      assert PauseKnown(s, j);
    }
    forall j | 0 <= j < |s.holds| && s.holds[j].host == task.Host() ensures s.holds[j].until <= s.now {
      assert HoldKnown(s, j);
    }
  }

  /**
   EVERY REQUEST THAT EVER LEFT was, unless it was for robots.txt itself, allowed
   by what an earlier robots.txt request of this process to that very origin had
   been answered with, read no longer ago than the cache bound.
   */
  lemma EveryFetchWasAllowed(c: Config, states: seq<State>, events: seq<Event>, i: nat, k: nat)
    requires c.Valid() && IsRun(c, states, events) && i < |states| && k < |states[i].wire|
    ensures DepartureClean(c, states[i], k) && DepartureOk(c, states[i], k)
    ensures var d := states[i].wire[k];
            !d.robots && d.origin.host in c.hosts && c.hosts[d.origin.host].minDelayMs < c.cacheBoundMs ==>
              && d.verdict.Some? && d.verdict.value.evidence < k
              && var r := states[i].wire[d.verdict.value.evidence];
                 && r.robots && r.path == "/robots.txt" && r.origin == d.origin
                 && r.answer.Some? && r.at <= d.verdict.value.fetchedAt <= d.at
                 && d.at - d.verdict.value.fetchedAt < c.cacheBoundMs
                 && Allows(c, VerdictFrom(r.answer.value), d.path)
  {
    InvAlways(c, states, events, i);
    assert DepartureClean(c, states[i], k) && DepartureOk(c, states[i], k);
  }

  // ---------------------------------------------------------------------------
  // Nothing landed since the release.
  // ---------------------------------------------------------------------------

  /** Task `t` resumes from its release in the `i`th step. */
  predicate Resumes(states: seq<State>, events: seq<Event>, i: nat, t: TaskId)
    requires |states| == |events| + 1 && i < |events|
  {
    events[i].Act? && events[i].t == t && t < |states[i].tasks| && states[i].tasks[t].at.Granted?
  }

  lemma MarkAfterJob(c: Config, s: State, t: TaskId, m: Move, u: TaskId)
    requires t < |s.tasks| && SameCall(s.tasks[t], m.next) && LocalVerdict(c, s, s.tasks[t], m) && u < |s.tasks|
    ensures var s' := Apply(c, s, t, m);
            && u < |s'.tasks| && s'.tasks[u].origin == s.tasks[u].origin
            && s'.tasks[u].landedBefore == if u == t && s.tasks[t].at.Granted? then LandedOf(s, s.tasks[u].origin) else s.tasks[u].landedBefore
  {
    TasksAfter(c, s, t, m);
  }

  lemma MarkAfterStep(c: Config, states: seq<State>, events: seq<Event>, i: nat, u: TaskId)
    requires c.Valid() && IsRun(c, states, events) && i < |events| && u < |states[i].tasks|
    ensures var s, s' := states[i], states[i + 1];
            && u < |s'.tasks| && s'.tasks[u].origin == s.tasks[u].origin
            && s'.tasks[u].landedBefore == if Resumes(states, events, i, u) then LandedOf(s, s.tasks[u].origin) else s.tasks[u].landedBefore
  {
    if events[i].Act? {
      var m := JobOf(c, states, events, i);
      MarkAfterJob(c, states[i], events[i].t, m, u);
    } else {
      PauseOf(c, states, events, i);
    }
  }

  /** Task `t` still carries the mark it read in step `i`. */
  predicate MarkedSince(states: seq<State>, i: nat, j: nat, t: TaskId) {
    && i < |states| && j < |states| && t < |states[i].tasks| && t < |states[j].tasks|
    && states[j].tasks[t].origin == states[i].tasks[t].origin
    && states[j].tasks[t].landedBefore == LandedOf(states[i], states[i].tasks[t].origin)
  }

  /** From the job a send resumes in until it resumes again, its mark is the counter as it stood then. */
  lemma {:induction false} MarkStands(c: Config, states: seq<State>, events: seq<Event>, i: nat, j: nat, t: TaskId)
    requires c.Valid() && IsRun(c, states, events) && i < j < |states| && Resumes(states, events, i, t)
    requires forall k :: i < k < j ==> !Resumes(states, events, k, t)
    ensures MarkedSince(states, i, j, t)
    decreases j
  {
    if j == i + 1 {
      MarkAfterStep(c, states, events, i, t);
    } else {
      MarkStands(c, states, events, i, j - 1, t);
      var k := j - 1;
      MarkIsCarried(c, states, events, i, k, t);
    }
  }

  lemma MarkIsCarried(c: Config, states: seq<State>, events: seq<Event>, i: nat, k: nat, t: TaskId)
    requires c.Valid() && IsRun(c, states, events) && k < |events| && MarkedSince(states, i, k, t) && !Resumes(states, events, k, t)
    ensures MarkedSince(states, i, k + 1, t)
  {
    MarkAfterStep(c, states, events, k, t);
  }

  /** Between resuming from its release and leaving, no retrieval for the request's origin lands. */
  lemma NothingLandsSinceTheRelease(c: Config, states: seq<State>, events: seq<Event>, i: nat, j: nat, t: TaskId)
    requires c.Valid() && IsRun(c, states, events) && i < j < |events| && Resumes(states, events, i, t)
    requires forall k :: i < k < j ==> !Resumes(states, events, k, t)
    requires events[j].Act? && events[j].t == t && |states[j + 1].wire| > |states[j].wire|
    ensures t < |states[i].tasks| && LandedOf(states[j], states[i].tasks[t].origin) == LandedOf(states[i], states[i].tasks[t].origin)
  {
    MarkStands(c, states, events, i, j, t);
    NothingLeavesUnsafely(c, states, events, j);
  }

  // ---------------------------------------------------------------------------
  // The allowance.
  // ---------------------------------------------------------------------------

  /** CONSERVATION: the counter is the requests that left plus the units still pending, and never above the limit. */
  lemma AllowanceIsConserved(c: Config, states: seq<State>, events: seq<Event>, i: nat, key: Stores.Key)
    requires c.Valid() && IsRun(c, states, events) && i < |states|
    ensures var s := states[i];
            && Stores.View(s.rows, key).consumed == LeftOf(s, key) + PendingOf(s, key)
            && (key.source in c.sources && c.sources[key.source].allowance.Some? ==>
                  Stores.View(s.rows, key).consumed <= c.sources[key.source].allowance.value.limit)
  {
    InvAlways(c, states, events, i);
    assert TotalOk(c, states[i], key);
  }

  /**
   A unit given back or still pending backs no request that left; one sent backs exactly one, of
   its own period and source.
   */
  lemma EachUnitBacksAtMostOneSend(c: Config, states: seq<State>, events: seq<Event>, i: nat, unit: nat, k: nat)
    requires c.Valid() && IsRun(c, states, events) && i < |states|
    requires unit < |states[i].grants| && k < |states[i].wire|
    ensures var g, d := states[i].grants[unit], states[i].wire[k];
            && (d.unit == Some(unit) <==> g.sentAs == Some(k))
            && (g.sentAs.Some? <==> g.status.Sent? || g.status.Settled?)
            && (d.unit == Some(unit) ==> d.key == Some(g.key) && d.source == g.key.source)
  {
    InvAlways(c, states, events, i);
    assert GrantOk(c, states[i], unit) && DepartureOk(c, states[i], k);
  }

  /** Once given back or settled, a unit stays so; once sent it is only ever settled. */
  predicate MayBecome(a: GrantStatus, b: GrantStatus) {
    a == b || (a.Pending? && !b.Settled?) || (a.Sent? && b.Settled?)
  }

  lemma UnitsOnlyMoveOn(c: Config, states: seq<State>, events: seq<Event>, i: nat, unit: nat)
    requires c.Valid() && IsRun(c, states, events) && i < |events| && unit < |states[i].grants|
    ensures unit < |states[i + 1].grants|
    ensures var a, b := states[i].grants[unit], states[i + 1].grants[unit];
            MayBecome(a.status, b.status) && a.key == b.key && a.owner == b.owner && a.recorded == b.recorded
  {
    if events[i].Act? {
      var m := JobOf(c, states, events, i);
      UnitMovesOn(c, states[i], events[i].t, m, unit);
    } else {
      UnitsStay(c, states, events, i);
    }
  }

  lemma UnitsStay(c: Config, states: seq<State>, events: seq<Event>, i: nat)
    requires c.Valid() && IsRun(c, states, events) && i < |events| && !events[i].Act?
    ensures states[i + 1].grants == states[i].grants
  {
    PauseOf(c, states, events, i);
  }

  lemma UnitMovesOn(c: Config, s: State, t: TaskId, m: Move, unit: nat)
    requires Units(c, s) && t < |s.tasks| && LocalUnit(c, s, s.tasks[t], m) && unit < |s.grants|
    ensures var s' := Apply(c, s, t, m);
            && unit < |s'.grants| && MayBecome(s.grants[unit].status, s'.grants[unit].status)
            && s.grants[unit].key == s'.grants[unit].key && s.grants[unit].owner == s'.grants[unit].owner
            && s.grants[unit].recorded == s'.grants[unit].recorded
  {
    GrantsAfter(c, s, t, m);
    assert UnitOk(s, t);
  }

  /** NOTICES: never twice, never without a unit whose recorded total calls for it. */
  lemma NoNoticeTwiceOrWithoutCause(c: Config, states: seq<State>, events: seq<Event>, i: nat, n: Notice)
    requires c.Valid() && IsRun(c, states, events) && i < |states|
    ensures states[i].notices[n] <= 1
    ensures states[i].notices[n] == 1 ==> exists u: nat :: CallsFor(c, states[i], u, n)
  {
    InvAlways(c, states, events, i);
    assert NoticeOk(states[i], n);
    if states[i].notices[n] == 1 {
      var u := CausedIsCalledFor(c, states[i], n);
    }
  }

  lemma CausedIsCalledFor(c: Config, s: State, n: Notice) returns (u: nat)
    requires c.Valid() && Caused(c, s, n)
    ensures CallsFor(c, s, u, n)
  {
    u :| Causes(c, s, u, n);
    CrossesWarnIff(c.Allowance(n.key.source), s.grants[u].recorded);
  }

  /**
   Unit `u` is of the notice's period, and the total recorded with it is at least the fraction of
   the limit, or the limit.
   */
  predicate CallsFor(c: Config, s: State, u: nat, n: Notice) {
    && u < |s.grants| && s.grants[u].key == n.key
    && n.key.source in c.sources && c.sources[n.key.source].allowance.Some?
    && var a := c.sources[n.key.source].allowance.value;
       if n.kind.Warn? then s.grants[u].recorded as real >= a.warnFraction * a.limit as real else s.grants[u].recorded >= a.limit
  }

  /** NOTICES: with every unit of the period settled or given back, each notice the counter calls for has been told once. */
  lemma NoNoticeIsForgotten(c: Config, states: seq<State>, events: seq<Event>, i: nat, key: Stores.Key)
    requires c.Valid() && IsRun(c, states, events) && i < |states|
    requires key.source in c.sources && c.sources[key.source].allowance.Some? && Quiet(states[i], key)
    ensures var a, consumed := c.sources[key.source].allowance.value, Stores.View(states[i].rows, key).consumed;
            && (consumed as real >= a.warnFraction * a.limit as real ==> states[i].notices[Notice(Warn, key)] == 1)
            && (consumed == a.limit ==> states[i].notices[Notice(Stop, key)] == 1)
  {
    InvAlways(c, states, events, i);
    QuietMeansTold(c, states[i], key);
  }

  ghost predicate AllSettled(s: State) { forall t :: 0 <= t < |s.tasks| ==> s.tasks[t].Finished() }

  lemma {:induction false} NonePending(grants: seq<Grant>, n: nat, key: Stores.Key)
    requires n <= |grants| && forall u :: 0 <= u < n ==> !grants[u].status.Pending?
    ensures CountGrants(grants, n, key, true) == 0
  {
    if n > 0 {
      NonePending(grants, n - 1, key);
    }
  }

  /**
   Once every call has settled no unit is in anybody's hands: the counter is exactly
   the requests that left, and every notice it calls for has been told, once.
   */
  lemma WhenAllIsSettled(c: Config, states: seq<State>, events: seq<Event>, i: nat, key: Stores.Key)
    requires c.Valid() && IsRun(c, states, events) && i < |states| && AllSettled(states[i])
    requires key.source in c.sources && c.sources[key.source].allowance.Some?
    ensures var a, consumed := c.sources[key.source].allowance.value, Stores.View(states[i].rows, key).consumed;
            && consumed == LeftOf(states[i], key) <= a.limit
            && (consumed as real >= a.warnFraction * a.limit as real ==> states[i].notices[Notice(Warn, key)] == 1)
            && (consumed == a.limit ==> states[i].notices[Notice(Stop, key)] == 1)
  {
    InvAlways(c, states, events, i);
    var s := states[i];
    forall u | 0 <= u < |s.grants| ensures s.grants[u].status.Settled? || s.grants[u].status.GivenBack? {
      assert GrantOk(c, s, u);
      assert s.tasks[s.grants[u].owner].Finished();
    }
    assert TotalOk(c, s, key);
    NonePending(s.grants, |s.grants|, key);
    assert Quiet(s, key);
    QuietMeansTold(c, s, key);
  }

  // ---------------------------------------------------------------------------
  // Releases.
  // ---------------------------------------------------------------------------

  /** THE CEILING, over whole runs: no window of `intervalMs`, ending anywhere, holds more than `maxRequests` releases. */
  lemma NoWindowIsOverfull(c: Config, states: seq<State>, events: seq<Event>, i: nat, h: Host, t: int)
    requires c.Valid() && IsRun(c, states, events) && i < |states| && h in c.hosts
    ensures CountWithin(ReleasedOf(states[i], h), t - c.hosts[h].intervalMs, t) <= c.hosts[h].maxRequests
  {
    InvAlways(c, states, events, i);
    assert HostOk(c, states[i], h);
    WindowNeverExceedsCeiling(ReleasedOf(states[i], h), c.hosts[h], t);
  }

  /** THE DELAY, over whole runs. */
  lemma ReleasesAreApart(c: Config, states: seq<State>, events: seq<Event>, i: nat, h: Host, a: nat, b: nat)
    requires c.Valid() && IsRun(c, states, events) && i < |states| && h in c.hosts
    requires a <= b < |ReleasedOf(states[i], h)|
    ensures ReleasedOf(states[i], h)[b] - ReleasedOf(states[i], h)[a] >= (b - a) * c.hosts[h].minDelayMs
  {
    InvAlways(c, states, events, i);
    assert HostOk(c, states[i], h);
    StretchTakesDelays(ReleasedOf(states[i], h), c.hosts[h], a, b - a);
  }

  /** Task `t` is the one in the wait loop of host `h`. */
  predicate PacesFor(s: State, t: TaskId, h: Host) {
    t < |s.tasks| && s.tasks[t].Host() == h && s.tasks[t].at.Pacing?
  }

  /** FIFO: the calls served so far are the first of the calls made, in order, each released once. */
  lemma ServedInCallOrder(c: Config, states: seq<State>, events: seq<Event>, i: nat, h: Host)
    requires c.Valid() && IsRun(c, states, events) && i < |states|
    ensures ServedOf(states[i], h) <= CalledOf(states[i], h)
    ensures |ServedOf(states[i], h)| == |ReleasedOf(states[i], h)|
    ensures forall t, u :: PacesFor(states[i], t, h) && PacesFor(states[i], u, h) ==> t == u
  {
    InvAlways(c, states, events, i);
    var s := states[i];
    assert QueueOk(s, h);
    forall t | PacesFor(s, t, h)
      ensures QueueOf(s, h) != [] && QueueOf(s, h)[0] == t
    {
      var j :| 0 <= j < |QueueOf(s, h)| && QueueOf(s, h)[j] == t;
      assert Waits(s, h, j);
    }
  }

  // ---------------------------------------------------------------------------
  // Bounded work.
  // ---------------------------------------------------------------------------

  /**
   BOUNDED WORK, over whole runs: one request has started at most 4 retrievals, and
   it and they have called the scheduler at most 15 times and sent at most 5 times.
   */
  lemma OneRequestDoesLittle(c: Config, states: seq<State>, events: seq<Event>, i: nat, p: TaskId)
    requires c.Valid() && IsRun(c, states, events) && i < |states| && p < |states[i].tasks|
    ensures RetrievalsBy(states[i], p) <= 4 && CallsBy(states[i], p) <= 15 && SendsBy(states[i], p) <= 5
  {
    InvAlways(c, states, events, i);
    WorkIsBounded(c, states[i], p);
  }

  /**
   The retrievals those counts charge to a request are for its own origin, and a request, not a
   retrieval, started each.
   */
  lemma RetrievalsServeTheirRequest(c: Config, states: seq<State>, events: seq<Event>, i: nat, r: TaskId)
    requires c.Valid() && IsRun(c, states, events) && i < |states| && r < |states[i].tasks| && states[i].tasks[r].IsRobots()
    ensures var p := states[i].tasks[r].parent.value;
            p < |states[i].tasks| && !states[i].tasks[p].IsRobots() && states[i].tasks[p].origin == states[i].tasks[r].origin
  {
    InvAlways(c, states, events, i);
    assert OnlyOneInFlight(states[i], r);
  }

  // ---------------------------------------------------------------------------
  // The robots cache.
  // ---------------------------------------------------------------------------

  /** At most one retrieval per origin is in flight. */
  lemma OneRetrievalAtATime(c: Config, states: seq<State>, events: seq<Event>, i: nat, a: TaskId, b: TaskId)
    requires c.Valid() && IsRun(c, states, events) && i < |states| && a < |states[i].tasks| && b < |states[i].tasks|
    requires var ta, tb := states[i].tasks[a], states[i].tasks[b];
             ta.IsRobots() && tb.IsRobots() && ta.origin == tb.origin && !ta.Finished() && !tb.Finished()
    ensures a == b
  {
    InvAlways(c, states, events, i);
    assert OnlyOneInFlight(states[i], a) && OnlyOneInFlight(states[i], b);
    assert Shape(c, states[i].tasks[a]) && Shape(c, states[i].tasks[b]);
  }

  /**
   What one step does to the verdict cached for an origin: nothing; or an operator
   forgot it; or a retrieval of that origin landed, in which case the counter moves
   in the same step, and the new verdict is what its robots.txt was answered with.
   A retrieval the governor itself refused changes nothing.
   */
  lemma OnlyLandingChangesTheCache(c: Config, states: seq<State>, events: seq<Event>, i: nat, o: Origin)
    requires c.Valid() && IsRun(c, states, events) && i < |events|
    requires CachedAt(states[i], o) != CachedAt(states[i + 1], o)
    ensures events[i] == Forget(o) || (events[i].Act? && LandsWith(c, states[i], events[i].t, o, states[i + 1]))
  {
    if events[i].Act? {
      var m := JobOf(c, states, events, i);
      LandingChangesTheCache(c, states[i], events[i].t, m, o);
    } else if events[i] != Forget(o) {
      assert Step(c, states[i], events[i], states[i + 1]);
      OnlyForgettingChangesIt(c, states[i], events[i], states[i + 1], o);
    }
  }

  lemma OnlyForgettingChangesIt(c: Config, s: State, event: Event, s': State, o: Origin)
    requires Step(c, s, event, s') && !event.Act? && event != Forget(o)
    ensures CachedAt(s, o) == CachedAt(s', o)
  {
    match event {
      case Tick(_) => assert s'.cache == s.cache;
      case Forget(x) => assert s'.cache == s.cache - {x};
      case Arrive(_, _, _) => assert s'.cache == s.cache;
    }
  }

  function CachedAt(s: State, o: Origin): Option<Entry> { if o in s.cache then Some(s.cache[o]) else None }

  /** Task `t`, a retrieval of `o` that was answered, lands from `s` to `s'`. */
  ghost predicate LandsWith(c: Config, s: State, t: TaskId, o: Origin, s': State) {
    && t < |s.tasks| && s.tasks[t].IsRobots() && s.tasks[t].origin == o
    && s.tasks[t].at.Landing? && s.tasks[t].at.result.Left?
    && LandedOf(s', o) == LandedOf(s, o) + 1
    && o in s'.cache && s'.cache[o].fetchedAt == s.now
    && s'.cache[o].verdict == VerdictFrom(s.tasks[t].at.result.answer)
  }

  lemma LandingChangesTheCache(c: Config, s: State, t: TaskId, m: Move, o: Origin)
    requires Inv(c, s) && t < |s.tasks| && Local(c, s, t, s.tasks[t], m)
    requires CachedAt(s, o) != CachedAt(Apply(c, s, t, m), o)
    ensures LandsWith(c, s, t, o, Apply(c, s, t, m))
  {
    RobotsAfter(c, s, t, m);
    assert Shape(c, s.tasks[t]);
  }

  /** Task `t` starts a retrieval in the `i`th step. */
  ghost predicate StartsAt(c: Config, states: seq<State>, events: seq<Event>, i: nat, o: Origin)
    requires |states| == |events| + 1 && i < |events|
  {
    && events[i].Act? && Enabled(c, states[i], events[i].t, events[i].choice)
    && states[i].tasks[events[i].t].origin == o
    && Decide(c, states[i], events[i].t, events[i].choice).effect.StartsRetrieval?
  }

  /** Unless an operator forgets it, a verdict is only ever replaced by a later one. */
  lemma {:induction false} VerdictsOnlyGetNewer(c: Config, states: seq<State>, events: seq<Event>, i: nat, j: nat, o: Origin)
    requires c.Valid() && IsRun(c, states, events) && i <= j < |states| && o in states[i].cache
    requires forall k :: i <= k < j ==> events[k] != Forget(o)
    ensures o in states[j].cache && states[j].cache[o].fetchedAt >= states[i].cache[o].fetchedAt
    decreases j
  {
    if j > i {
      VerdictsOnlyGetNewer(c, states, events, i, j - 1, o);
      assert events[j - 1] != Forget(o);
      NextVerdictIsNewer(c, states, events, j - 1, o);
    }
  }

  lemma NextVerdictIsNewer(c: Config, states: seq<State>, events: seq<Event>, i: nat, o: Origin)
    requires c.Valid() && IsRun(c, states, events) && i < |events| && o in states[i].cache && events[i] != Forget(o)
    ensures o in states[i + 1].cache && states[i + 1].cache[o].fetchedAt >= states[i].cache[o].fetchedAt
  {
    InvAlways(c, states, events, i);
    assert CacheOk(states[i], o);
    if CachedAt(states[i], o) != CachedAt(states[i + 1], o) {
      OnlyLandingChangesTheCache(c, states, events, i, o);
    }
  }

  /** While a cached verdict is inside its bound, and not forgotten, no retrieval of its origin starts. */
  lemma NoRetrievalWhileFresh(c: Config, states: seq<State>, events: seq<Event>, i: nat, j: nat, o: Origin)
    requires c.Valid() && IsRun(c, states, events) && i <= j < |events| && o in states[i].cache
    requires forall k :: i <= k < j ==> events[k] != Forget(o)
    requires StartsAt(c, states, events, j, o)
    ensures states[j].now - states[i].cache[o].fetchedAt >= c.cacheBoundMs
  {
    VerdictsOnlyGetNewer(c, states, events, i, j, o);
    var m := JobOf(c, states, events, j);
    assert m.effect.StartsRetrieval?;
  }

  // ---------------------------------------------------------------------------
  // Either store will do.
  // ---------------------------------------------------------------------------

  /** The statement a task's next job puts to the store. */
  function StoreCallAt(c: Config, s: State, task: Task): Option<Stores.StoreCall> {
    match task.at
    case Reading(period) => Some(Stores.Read(KeyAt(task, period)))
    case Reserving(period) =>
      if c.Metered(task.source) then Some(ReserveCall(KeyAt(task, period), c.Allowance(task.source).limit)) else None
    case GivingBack(back, _) => if back < |s.grants| then Some(Stores.Release(s.grants[back].key, 1)) else None
    case Marking(notice, _) => Some(MarkCall(s.now, notice))
    case _ => None
  }

  /** The rows move by that statement and no other, and it is one both stores answer alike. */
  lemma StoreIsAskedSafely(c: Config, s: State, t: TaskId, m: Move)
    requires c.Valid() && Inv(c, s) && t < |s.tasks| && Local(c, s, t, s.tasks[t], m)
    ensures var call := StoreCallAt(c, s, s.tasks[t]);
            Apply(c, s, t, m).rows == if call.Some? then Stores.PostgresAfter(s.rows, call.value) else s.rows
    ensures StoreCallAt(c, s, s.tasks[t]).Some? ==> Stores.SafeCall(s.rows, StoreCallAt(c, s, s.tasks[t]).value)
  {
    assert UnitOk(s, t) && TaskDuty(c, s, t) && Shape(c, s.tasks[t]);
    if UnitAt(s.tasks[t].at).Some? {
      UnitsAreInRows(c, s, UnitAt(s.tasks[t].at).value);
    }
    CallIsSafe(c, s, t);
    RowsMoveByTheCall(c, s, t, m);
  }

  /** A unit is given back, and a warning marked, only by a call that holds a unit of that row. */
  lemma CallIsSafe(c: Config, s: State, t: TaskId)
    requires c.Valid() && t < |s.tasks| && UnitOk(s, t) && TaskDuty(c, s, t) && Shape(c, s.tasks[t])
    requires UnitAt(s.tasks[t].at).Some? ==>
               var g := s.grants[UnitAt(s.tasks[t].at).value];
               g.key in s.rows && (g.status.Pending? ==> s.rows[g.key].consumed >= 1)
    ensures StoreCallAt(c, s, s.tasks[t]).Some? ==> Stores.SafeCall(s.rows, StoreCallAt(c, s, s.tasks[t]).value)
  {
  }

  /** A unit's row is there, and a unit still pending is counted in it. */
  lemma UnitsAreInRows(c: Config, s: State, unit: nat)
    requires Units(c, s) && Totals(c, s) && unit < |s.grants|
    ensures s.grants[unit].key in s.rows
    ensures s.grants[unit].status.Pending? ==> s.rows[s.grants[unit].key].consumed >= 1
  {
    assert GrantOk(c, s, unit) && TotalOk(c, s, s.grants[unit].key);
    if s.grants[unit].status.Pending? {
      CountReturned(s, unit, s.grants[unit].key);
    }
  }

  lemma RowsMoveByTheCall(c: Config, s: State, t: TaskId, m: Move)
    requires t < |s.tasks| && UnitOk(s, t) && Shape(c, s.tasks[t])
    requires SameCall(s.tasks[t], m.next) && LocalUnit(c, s, s.tasks[t], m) && LocalNotice(c, s, s.tasks[t], m)
    ensures var call := StoreCallAt(c, s, s.tasks[t]);
            Apply(c, s, t, m).rows == if call.Some? then Stores.PostgresAfter(s.rows, call.value) else s.rows
  {
    RowsAfter(c, s, t, m);
  }

  lemma RowsAreNeverNegative(c: Config, s: State)
    requires Totals(c, s)
    ensures Stores.NeverNegative(s.rows)
  {
    forall key | key in s.rows ensures s.rows[key].consumed >= 0 {
      assert TotalOk(c, s, key);
    }
  }

  /** What the statement of one step's job, if it puts one, leaves in a memory store. */
  function MemoryMoves(c: Config, s: State, event: Event, memory: Stores.Rows): Stores.Rows {
    if event.Act? && event.t < |s.tasks| && StoreCallAt(c, s, s.tasks[event.t]).Some?
    then Stores.MemoryAfter(memory, StoreCallAt(c, s, s.tasks[event.t]).value) else memory
  }

  /** A memory store's records along a run, had it been asked the same statements from the start. */
  ghost predicate IsMemoryRun(c: Config, states: seq<State>, events: seq<Event>, records: seq<Stores.Rows>) {
    && |states| == |events| + 1 == |records| && records[0] == map[]
    && forall i {:trigger events[i]} :: 0 <= i < |events| ==> records[i + 1] == MemoryMoves(c, states[i], events[i], records[i])
  }

  predicate AnswersAlike(memory: Stores.Rows, s: State, call: Option<Stores.StoreCall>) {
    call.Some? ==> Stores.MemoryAnswer(memory, call.value) == Stores.PostgresAnswer(s.rows, call.value)
  }

  lemma AskedAlike(c: Config, s: State, t: TaskId, m: Move, memory: Stores.Rows)
    requires c.Valid() && Inv(c, s) && t < |s.tasks| && Local(c, s, t, s.tasks[t], m) && Stores.SameRecords(memory, s.rows)
    ensures AnswersAlike(memory, s, StoreCallAt(c, s, s.tasks[t]))
    ensures var call := StoreCallAt(c, s, s.tasks[t]);
            Stores.SameRecords(if call.Some? then Stores.MemoryAfter(memory, call.value) else memory, Apply(c, s, t, m).rows)
  {
    StoreIsAskedSafely(c, s, t, m);
    RowsAreNeverNegative(c, s);
    var call := StoreCallAt(c, s, s.tasks[t]);
    if call.Some? {
      Stores.StoresAgreeIffSafe(memory, s.rows, call.value);
    }
  }

  /** What a job leaves in a memory store matches the rows it leaves. */
  lemma JobMovesAlike(c: Config, states: seq<State>, events: seq<Event>, n: nat, memory: Stores.Rows)
    requires c.Valid() && IsRun(c, states, events) && n < |events| && events[n].Act?
    requires Stores.SameRecords(memory, states[n].rows)
    ensures Stores.SameRecords(MemoryMoves(c, states[n], events[n], memory), states[n + 1].rows)
  {
    var m := JobOf(c, states, events, n);
    AskedAlike(c, states[n], events[n].t, m, memory);
  }

  lemma RecordsMoveAlike(c: Config, states: seq<State>, events: seq<Event>, n: nat, memory: Stores.Rows)
    requires c.Valid() && IsRun(c, states, events) && n < |events|
    requires Stores.SameRecords(memory, states[n].rows)
    ensures Stores.SameRecords(MemoryMoves(c, states[n], events[n], memory), states[n + 1].rows)
  {
    if events[n].Act? {
      JobMovesAlike(c, states, events, n, memory);
    } else {
      RowsStay(c, states, events, n);
    }
  }

  lemma RowsStay(c: Config, states: seq<State>, events: seq<Event>, n: nat)
    requires c.Valid() && IsRun(c, states, events) && n < |events| && !events[n].Act?
    ensures states[n + 1].rows == states[n].rows
  {
    PauseOf(c, states, events, n);
  }

  /** The memory store, asked the same statements, holds the same records. */
  lemma {:induction false} RecordsAreAlike(c: Config, states: seq<State>, events: seq<Event>, records: seq<Stores.Rows>, n: nat)
    requires c.Valid() && IsRun(c, states, events) && IsMemoryRun(c, states, events, records) && n < |states|
    ensures Stores.SameRecords(records[n], states[n].rows)
  {
    if n == 0 {
      RowsStartEmpty(c, states, events);
    } else {
      RecordsAreAlike(c, states, events, records, n - 1);
      NextRecordsAreAlike(c, states, events, records, n - 1);
    }
  }

  lemma NextRecordsAreAlike(c: Config, states: seq<State>, events: seq<Event>, records: seq<Stores.Rows>, i: nat)
    requires c.Valid() && IsRun(c, states, events) && IsMemoryRun(c, states, events, records) && i < |events|
    requires Stores.SameRecords(records[i], states[i].rows)
    ensures Stores.SameRecords(records[i + 1], states[i + 1].rows)
  {
    RecordsMoveAlike(c, states, events, i, records[i]);
  }

  lemma RowsStartEmpty(c: Config, states: seq<State>, events: seq<Event>)
    requires IsRun(c, states, events)
    ensures states[0].rows == map[]
  {
  }

  /**
   EITHER STORE WILL DO: along every run the memory store, asked the statements the
   PostgreSQL store is asked, holds the same records and gives the same answers.
   */
  lemma EitherStoreWillDo(c: Config, states: seq<State>, events: seq<Event>, records: seq<Stores.Rows>, n: nat)
    requires c.Valid() && IsRun(c, states, events) && IsMemoryRun(c, states, events, records) && n < |states|
    ensures Stores.SameRecords(records[n], states[n].rows)
    ensures n < |events| && events[n].Act? && events[n].t < |states[n].tasks| ==>
              AnswersAlike(records[n], states[n], StoreCallAt(c, states[n], states[n].tasks[events[n].t]))
  {
    RecordsAreAlike(c, states, events, records, n);
    if n < |events| && events[n].Act? {
      var m := JobOf(c, states, events, n);
      AskedAlike(c, states[n], events[n].t, m, records[n]);
    }
  }
}
