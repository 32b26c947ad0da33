/**
 Releases, holds and pauses as the scheduler and the breaker know them, in every
 reachable state: the scheduler's pruned list accounts for every release it ever
 made, and a hold or a pause, once recorded, is known until it ends. What the
 results about the ceiling, the delay and the boundary rest on.
 */
module GovernorPacing {
  import opened Prelude
  import opened HostScheduling
  import opened Governor
  import opened GovernorMoves
  import opened GovernorTables

  /** What leaves the hosts, the breakers, the holds and the pauses alone. */
  lemma HostsAfter(c: Config, s: State, t: TaskId, m: Move)
    requires t < |s.tasks|
    ensures var s' := Apply(c, s, t, m);
            && (m.effect.Releases? || m.effect.Finishes? || s'.hosts == s.hosts)
            && (m.effect.Finishes? || (s'.holds == s.holds && s'.pauses == s.pauses))
            && (m.effect.Finishes? || s'.breakers == s.breakers || s'.breakers == StatusAsked(s, m.next.source))
  {
  }

  // ---------------------------------------------------------------------------
  // The scheduler's pruned state accounts for every release it ever made.
  // ---------------------------------------------------------------------------

  ghost predicate HostOk(c: Config, s: State, h: Host)
    requires h in c.hosts
  {
    Accounts(HostOf(s, h), ReleasedOf(s, h), c.hosts[h], s.now)
  }

  ghost predicate Paces(c: Config, s: State) { forall h :: h in c.hosts ==> HostOk(c, s, h) }

  lemma PacesKept(c: Config, s: State, t: TaskId, m: Move)
    requires c.Valid() && t < |s.tasks| && Shapes(c, s) && Paces(c, s)
    requires SameCall(s.tasks[t], m.next) && LocalQueue(c, s, t, s.tasks[t], m)
    ensures Paces(c, Apply(c, s, t, m))
  {
    var s' := Apply(c, s, t, m);
    TasksAfter(c, s, t, m);
    HostsAfter(c, s, t, m);
    QueuesAfter(c, s, t, m);
    forall h | h in c.hosts ensures HostOk(c, s', h) {
      assert HostOk(c, s, h) && Shape(c, s.tasks[t]);
      if m.effect.Releases? {
        ReleaseKeepsHost(c, s, t, m, h);
      } else {
        OtherKeepsHost(c, s, t, m, h);
      }
    }
  }

  lemma ReleaseKeepsHost(c: Config, s: State, t: TaskId, m: Move, h: Host)
    requires c.Valid() && t < |s.tasks| && Shape(c, s.tasks[t]) && h in c.hosts && HostOk(c, s, h)
    requires SameCall(s.tasks[t], m.next) && LocalQueue(c, s, t, s.tasks[t], m) && m.effect.Releases?
    ensures HostOk(c, Apply(c, s, t, m), h)
  {
    var p := s.tasks[t].at;
    if h == m.next.Host() {
      GrantKeepsAccounts(HostOf(s, h), ReleasedOf(s, h), c.hosts[h], p.delayMs, p.offeredAt, s.now);
    }
  }

  lemma OtherKeepsHost(c: Config, s: State, t: TaskId, m: Move, h: Host)
    requires t < |s.tasks| && h in c.hosts && HostOk(c, s, h) && !m.effect.Releases?
    ensures HostOk(c, Apply(c, s, t, m), h)
  {
    var s' := Apply(c, s, t, m);
    HostsAfter(c, s, t, m);
    TasksAfter(c, s, t, m);
    ReleasedStays(c, s, t, m, h);
    assert HostOf(s', h) == HostOf(s, h).(holdUntil := HostOf(s', h).holdUntil);
  }

  lemma ReleasedStays(c: Config, s: State, t: TaskId, m: Move, h: Host)
    requires t < |s.tasks| && !m.effect.Releases?
    ensures ReleasedOf(Apply(c, s, t, m), h) == ReleasedOf(s, h)
  {
    QueuesAfter(c, s, t, m);
  }

  // ---------------------------------------------------------------------------
  // A hold or a pause, once recorded, is known until it ends.
  // ---------------------------------------------------------------------------

  predicate HoldKnown(s: State, i: nat)
    requires i < |s.holds|
  {
    s.holds[i].until <= HostOf(s, s.holds[i].host).holdUntil
  }

  /** An ended pause may be forgotten; one that has not ended is in force. */
  predicate PauseKnown(s: State, i: nat)
    requires i < |s.pauses|
  {
    s.pauses[i].until <= Max(s.now, BreakerOf(s, s.pauses[i].source).pausedUntil)
  }

  ghost predicate Remembers(s: State) {
    && (forall i :: 0 <= i < |s.holds| ==> HoldKnown(s, i))
    && (forall i :: 0 <= i < |s.pauses| ==> PauseKnown(s, i))
  }

  lemma RemembersKept(c: Config, s: State, t: TaskId, m: Move)
    requires t < |s.tasks| && Remembers(s)
    ensures Remembers(Apply(c, s, t, m))
  {
    var s' := Apply(c, s, t, m);
    forall i | 0 <= i < |s'.holds| ensures HoldKnown(s', i) {
      assert i < |s.holds| ==> HoldKnown(s, i);
      HoldStaysKnown(c, s, t, m, i);
    }
    forall i | 0 <= i < |s'.pauses| ensures PauseKnown(s', i) {
      assert i < |s.pauses| ==> PauseKnown(s, i);
      PauseStaysKnown(c, s, t, m, i);
    }
  }

  lemma HoldStaysKnown(c: Config, s: State, t: TaskId, m: Move, i: nat)
    requires t < |s.tasks| && (i < |s.holds| ==> HoldKnown(s, i)) && i < |Apply(c, s, t, m).holds|
    ensures HoldKnown(Apply(c, s, t, m), i)
  {
    HostsAfter(c, s, t, m);
  }

  lemma PauseStaysKnown(c: Config, s: State, t: TaskId, m: Move, i: nat)
    requires t < |s.tasks| && (i < |s.pauses| ==> PauseKnown(s, i)) && i < |Apply(c, s, t, m).pauses|
    ensures PauseKnown(Apply(c, s, t, m), i)
  {
    HostsAfter(c, s, t, m);
    TasksAfter(c, s, t, m);
  }
}
