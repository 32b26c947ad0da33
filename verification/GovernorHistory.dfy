/**
 Every request that left, and the robots answers it left under, in every reachable
 state: a departure belongs to one task and carries the answer that task carries;
 a cached verdict is what an earlier robots.txt request was answered with; and what
 stood when a request left permitted it.
 */
module GovernorHistory {
  import opened Prelude
  import opened Governor
  import opened GovernorMoves
  import opened GovernorTables
  import opened GovernorVerdicts
  import opened GovernorLedger
  import opened GovernorPacing

  // ---------------------------------------------------------------------------
  // A task and its departure.
  // ---------------------------------------------------------------------------

  /** A departure is its task's own, unanswered while on the wire, and then carries the answer the task carries. */
  predicate AnswerOk(s: State, t: TaskId)
    requires t < |s.tasks|
  {
    var task := s.tasks[t];
    task.departure.Some? ==>
      && task.departure.value < |s.wire|
      && var d := s.wire[task.departure.value];
         && d.task == t && d.source == task.source && d.origin == task.origin && d.robots == task.IsRobots()
         && (task.at.OnWire? ==> d.answer == None)
         && (AnswerAt(task.at).Some? ==> d.answer == AnswerAt(task.at))
  }

  ghost predicate Answers(s: State) { forall t :: 0 <= t < |s.tasks| ==> AnswerOk(s, t) }

  /** A move hears an answer on the wire, departs from before it, and otherwise carries what it has. */
  lemma AnswersKept(c: Config, s: State, t: TaskId, m: Move)
    requires t < |s.tasks| && Answers(s) && Shape(c, s.tasks[t]) && Shape(c, m.next)
    requires SameCall(s.tasks[t], m.next) && LocalUnit(c, s, s.tasks[t], m) && LocalAnswer(s.tasks[t], m)
    ensures Answers(Apply(c, s, t, m))
  {
    var s' := Apply(c, s, t, m);
    TasksAfter(c, s, t, m);
    forall u | 0 <= u < |s'.tasks| ensures AnswerOk(s', u) {
      assert AnswerOk(s, t);
      if u == t {
        ActorAnswerKept(c, s, t, m);
      } else if u < |s.tasks| {
        assert AnswerOk(s, u);
        OtherAnswerKept(c, s, t, m, u);
      }
    }
  }

  lemma ActorAnswerKept(c: Config, s: State, t: TaskId, m: Move)
    requires t < |s.tasks| && AnswerOk(s, t) && Shape(c, s.tasks[t]) && Shape(c, m.next)
    requires SameCall(s.tasks[t], m.next) && LocalUnit(c, s, s.tasks[t], m) && LocalAnswer(s.tasks[t], m)
    ensures t < |Apply(c, s, t, m).tasks| && AnswerOk(Apply(c, s, t, m), t)
  {
    TasksAfter(c, s, t, m);
    GrantsAfter(c, s, t, m);
  }

  lemma OtherAnswerKept(c: Config, s: State, t: TaskId, m: Move, u: TaskId)
    requires t < |s.tasks| && u < |s.tasks| && u != t && AnswerOk(s, t) && AnswerOk(s, u)
    requires LocalUnit(c, s, s.tasks[t], m)
    ensures u < |Apply(c, s, t, m).tasks| && AnswerOk(Apply(c, s, t, m), u)
  {
    TasksAfter(c, s, t, m);
    GrantsAfter(c, s, t, m);
  }

  /** A departure is the only one of its task. */
  predicate OwnerOk(s: State, k: nat)
    requires k < |s.wire|
  {
    s.wire[k].task < |s.tasks| && s.tasks[s.wire[k].task].departure == Some(k)
  }

  ghost predicate Owners(s: State) { forall k :: 0 <= k < |s.wire| ==> OwnerOk(s, k) }

  lemma OwnersKept(c: Config, s: State, t: TaskId, m: Move)
    requires t < |s.tasks| && Owners(s) && Shape(c, s.tasks[t]) && LocalUnit(c, s, s.tasks[t], m)
    ensures Owners(Apply(c, s, t, m))
  {
    var s' := Apply(c, s, t, m);
    forall k | 0 <= k < |s'.wire| ensures OwnerOk(s', k) {
      assert k < |s.wire| ==> OwnerOk(s, k);
      OwnerKept(c, s, t, m, k);
    }
  }

  lemma OwnerKept(c: Config, s: State, t: TaskId, m: Move, k: nat)
    requires t < |s.tasks| && Shape(c, s.tasks[t]) && LocalUnit(c, s, s.tasks[t], m)
    requires (k < |s.wire| ==> OwnerOk(s, k)) && k < |Apply(c, s, t, m).wire|
    ensures OwnerOk(Apply(c, s, t, m), k)
  {
    TasksAfter(c, s, t, m);
    GrantsAfter(c, s, t, m);
  }

  // ---------------------------------------------------------------------------
  // Where a verdict comes from.
  // ---------------------------------------------------------------------------

  /** A verdict is what an earlier robots.txt request to that very origin was answered with, read since. */
  predicate EvidenceOk(s: State, o: Origin, e: Entry, before: nat) {
    && e.evidence < before && e.evidence < |s.wire|
    && var d := s.wire[e.evidence];
       && d.robots && d.path == "/robots.txt" && d.origin == o && d.at <= e.fetchedAt
       && d.answer.Some? && e.verdict == VerdictFrom(d.answer.value)
  }

  predicate CacheOk(s: State, o: Origin)
    requires o in s.cache
  {
    EvidenceOk(s, o, s.cache[o], |s.wire|) && s.cache[o].fetchedAt <= s.now
  }

  ghost predicate Caches(s: State) { forall o :: o in s.cache ==> CacheOk(s, o) }

  /** No answer is ever replaced: only a departure still on the wire hears one. */
  lemma EvidenceStays(c: Config, s: State, t: TaskId, m: Move, o: Origin, e: Entry, before: nat)
    requires t < |s.tasks| && AnswerOk(s, t) && LocalUnit(c, s, s.tasks[t], m) && LocalAnswer(s.tasks[t], m)
    requires Shape(c, s.tasks[t]) && EvidenceOk(s, o, e, before)
    ensures EvidenceOk(Apply(c, s, t, m), o, e, before)
  {
    GrantsAfter(c, s, t, m);
  }

  lemma CachesKept(c: Config, s: State, t: TaskId, m: Move)
    requires t < |s.tasks| && Shapes(c, s) && Answers(s) && Departures(c, s) && Caches(s)
    requires SameCall(s.tasks[t], m.next) && LocalTable(c, s, s.tasks[t], m)
    requires LocalUnit(c, s, s.tasks[t], m) && LocalAnswer(s.tasks[t], m)
    ensures Caches(Apply(c, s, t, m))
  {
    var s' := Apply(c, s, t, m);
    TasksAfter(c, s, t, m);
    RobotsAfter(c, s, t, m);
    GrantsAfter(c, s, t, m);
    assert AnswerOk(s, t) && Shape(c, s.tasks[t]);
    forall o | o in s'.cache ensures CacheOk(s', o) {
      if o in s.cache && s'.cache[o] == s.cache[o] {
        assert CacheOk(s, o);
        EvidenceStays(c, s, t, m, o, s.cache[o], |s.wire|);
      } else {
        assert s.tasks[t].departure.Some? ==> DepartureClean(c, s, s.tasks[t].departure.value);
        LandingIsEvidence(c, s, t, m, o);
      }
    }
  }

  lemma LandingIsEvidence(c: Config, s: State, t: TaskId, m: Move, o: Origin)
    requires t < |s.tasks| && Shape(c, s.tasks[t]) && AnswerOk(s, t)
    requires s.tasks[t].departure.Some? ==> s.tasks[t].departure.value < |s.wire| && DepartureClean(c, s, s.tasks[t].departure.value)
    requires SameCall(s.tasks[t], m.next) && LocalTable(c, s, s.tasks[t], m) && LocalUnit(c, s, s.tasks[t], m)
    requires var s' := Apply(c, s, t, m); m.effect.Lands? && o in s'.cache && !(o in s.cache && s'.cache[o] == s.cache[o])
    ensures CacheOk(Apply(c, s, t, m), o)
  {
  }

  // ---------------------------------------------------------------------------
  // What stood when a request left.
  // ---------------------------------------------------------------------------

  /** No hold on its host and no pause of its source recorded by then was still running. */
  ghost predicate Unheld(s: State, d: Departure) {
    && d.holdsBefore <= |s.holds| && d.pausesBefore <= |s.pauses|
    && (forall j :: 0 <= j < d.holdsBefore && s.holds[j].host == d.origin.host ==> s.holds[j].until <= d.at)
    && (forall j :: 0 <= j < d.pausesBefore && s.pauses[j].source == d.source ==> s.pauses[j].until <= d.at)
  }

  /** Unless it is robots.txt itself, the verdict then cached is inside its bound and allows the path. */
  ghost predicate Permitted(c: Config, d: Departure) {
    !d.robots && d.origin.host in c.hosts && c.hosts[d.origin.host].minDelayMs < c.cacheBoundMs ==>
      && d.verdict.Some?
      && d.at - d.verdict.value.fetchedAt < c.cacheBoundMs
      && Allows(c, d.verdict.value.verdict, d.path)
  }

  ghost predicate DepartureClean(c: Config, s: State, i: nat)
    requires i < |s.wire|
  {
    var d := s.wire[i];
    && d.at <= s.now
    && (d.robots ==> d.path == "/robots.txt")
    && Unheld(s, d)
    && Permitted(c, d)
    && (d.verdict.Some? ==> EvidenceOk(s, d.origin, d.verdict.value, i) && d.verdict.value.fetchedAt <= d.at)
  }

  ghost predicate Departures(c: Config, s: State) { forall i :: 0 <= i < |s.wire| ==> DepartureClean(c, s, i) }

  lemma DeparturesKept(c: Config, s: State, t: TaskId, m: Move)
    requires t < |s.tasks| && Shapes(c, s) && Answers(s) && Verdicts(c, s) && Remembers(s) && Caches(s) && Departures(c, s)
    requires SameCall(s.tasks[t], m.next) && LocalUnit(c, s, s.tasks[t], m) && LocalAnswer(s.tasks[t], m)
    ensures Departures(c, Apply(c, s, t, m))
  {
    var s' := Apply(c, s, t, m);
    GrantsAfter(c, s, t, m);
    assert AnswerOk(s, t) && Shape(c, s.tasks[t]) && VerdictOk(c, s, t);
    forall i | 0 <= i < |s'.wire| ensures DepartureClean(c, s', i) {
      if i < |s.wire| {
        assert DepartureClean(c, s, i);
        if s.wire[i].verdict.Some? {
          EvidenceStays(c, s, t, m, s.wire[i].origin, s.wire[i].verdict.value, i);
        }
        EarlierStaysClean(c, s, t, m, i);
      } else {
        var o := m.next.origin;
        if o in s.cache {
          assert CacheOk(s, o);
          EvidenceStays(c, s, t, m, o, s.cache[o], |s.wire|);
        }
        LeavesClean(c, s, t, m);
      }
    }
  }

  lemma EarlierStaysClean(c: Config, s: State, t: TaskId, m: Move, i: nat)
    requires t < |s.tasks| && i < |s.wire| && DepartureClean(c, s, i)
    requires s.wire[i].verdict.Some? ==> EvidenceOk(Apply(c, s, t, m), s.wire[i].origin, s.wire[i].verdict.value, i)
    ensures i < |Apply(c, s, t, m).wire| && DepartureClean(c, Apply(c, s, t, m), i)
  {
    TasksAfter(c, s, t, m);
    GrantsAfter(c, s, t, m);
    HostsAfter(c, s, t, m);
  }

  /** The job that sends has just asked: nothing it asked can have changed since. */
  lemma LeavesClean(c: Config, s: State, t: TaskId, m: Move)
    requires t < |s.tasks| && Shape(c, s.tasks[t]) && VerdictOk(c, s, t) && Remembers(s)
    requires SameCall(s.tasks[t], m.next) && LocalUnit(c, s, s.tasks[t], m) && m.effect.Departs?
    requires var s' := Apply(c, s, t, m); m.next.origin in s.cache ==>
               CacheOk(s, m.next.origin) && EvidenceOk(s', m.next.origin, s.cache[m.next.origin], |s.wire|)
    ensures |s.wire| < |Apply(c, s, t, m).wire| && DepartureClean(c, Apply(c, s, t, m), |s.wire|)
  {
    var task := s.tasks[t];
    forall j | 0 <= j < |s.holds| && s.holds[j].host == task.Host() ensures s.holds[j].until <= s.now {
      assert HoldKnown(s, j);
    }
    forall j | 0 <= j < |s.pauses| && s.pauses[j].source == task.source ensures s.pauses[j].until <= s.now {
      assert PauseKnown(s, j);
    }
  }
}
