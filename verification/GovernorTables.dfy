/**
 The queues and the in-flight table, in every reachable state: a host's queue holds
 the tasks waiting for it, in the order they called, with only the head in the wait
 loop; and an origin is in the table for one retrieval, which the request that started
 it waits for and will take out again. Bounded work and the absence of deadlock rest
 on both.
 */
module GovernorTables {
  import opened Prelude
  import opened Governor
  import opened GovernorMoves

  ghost predicate Shapes(c: Config, s: State) {
    forall t :: 0 <= t < |s.tasks| ==> Shape(c, s.tasks[t])
  }

  /** Only the acting task changes, and at most one task is added: the retrieval it starts. */
  lemma TasksAfter(c: Config, s: State, t: TaskId, m: Move)
    requires t < |s.tasks|
    ensures var s' := Apply(c, s, t, m);
            && s'.tasks == s.tasks[t := m.next] + (if m.effect.StartsRetrieval? then [NewRetrieval(m.next, t)] else [])
            && s'.now == s.now
  {
  }

  /** What leaves the queues alone. */
  lemma QueuesAfter(c: Config, s: State, t: TaskId, m: Move)
    requires t < |s.tasks|
    ensures var s' := Apply(c, s, t, m);
            m.effect.CallsScheduler? || m.effect.StartsRetrieval? || m.effect.Releases? ||
            (s'.queues == s.queues && s'.called == s.called && s'.served == s.served && s'.released == s.released)
  {
  }

  lemma ShapesKept(c: Config, s: State, t: TaskId, m: Move)
    requires t < |s.tasks| && Shapes(c, s) && Local(c, s, t, s.tasks[t], m)
    ensures Shapes(c, Apply(c, s, t, m))
  {
    TasksAfter(c, s, t, m);
    assert m.effect.StartsRetrieval? ==> Shape(c, NewRetrieval(m.next, t));
  }

  // ---------------------------------------------------------------------------
  // Queues.
  // ---------------------------------------------------------------------------

  /** The `i`th of a host's queue is a task waiting for that host, and only the head is in the wait loop. */
  predicate Waits(s: State, h: Host, i: nat)
    requires i < |QueueOf(s, h)|
  {
    var t := QueueOf(s, h)[i];
    && t < |s.tasks| && s.tasks[t].Host() == h
    && (s.tasks[t].at.Queued? || (s.tasks[t].at.Pacing? && i == 0))
  }

  ghost predicate QueueOk(s: State, h: Host) {
    && (forall i :: 0 <= i < |QueueOf(s, h)| ==> Waits(s, h, i))
    && (forall i, j :: 0 <= i < j < |QueueOf(s, h)| ==> QueueOf(s, h)[i] != QueueOf(s, h)[j])
    && CalledOf(s, h) == ServedOf(s, h) + QueueOf(s, h)
    && |ServedOf(s, h)| == |ReleasedOf(s, h)|
  }

  ghost predicate Queues(s: State) {
    && (forall h :: QueueOk(s, h))
    && (forall t :: 0 <= t < |s.tasks| && InQueue(s.tasks[t].at) ==> t in QueueOf(s, s.tasks[t].Host()))
  }

  lemma QueuesKept(c: Config, s: State, t: TaskId, m: Move)
    requires t < |s.tasks| && Queues(s) && Local(c, s, t, s.tasks[t], m)
    ensures Queues(Apply(c, s, t, m))
  {
    var s' := Apply(c, s, t, m);
    forall h ensures QueueOk(s', h) {
      assert QueueOk(s, h);
      if m.effect.CallsScheduler? || m.effect.StartsRetrieval? {
        QueueGrows(c, s, t, m, h);
      } else if m.effect.Releases? {
        QueueShrinks(c, s, t, m, h);
      } else {
        QueueStays(c, s, t, m, h);
      }
    }
    forall u | 0 <= u < |s'.tasks| && InQueue(s'.tasks[u].at) ensures u in QueueOf(s', s'.tasks[u].Host()) {
      WaiterKept(c, s, t, m, u);
    }
  }

  lemma WaiterKept(c: Config, s: State, t: TaskId, m: Move, u: TaskId)
    requires t < |s.tasks| && Queues(s) && SameCall(s.tasks[t], m.next) && LocalQueue(c, s, t, s.tasks[t], m)
    requires u < |Apply(c, s, t, m).tasks| && InQueue(Apply(c, s, t, m).tasks[u].at)
    ensures u in QueueOf(Apply(c, s, t, m), Apply(c, s, t, m).tasks[u].Host())
  {
    TasksAfter(c, s, t, m);
  }

  lemma QueueGrows(c: Config, s: State, t: TaskId, m: Move, h: Host)
    requires t < |s.tasks| && QueueOk(s, h) && SameCall(s.tasks[t], m.next) && LocalQueue(c, s, t, s.tasks[t], m)
    requires m.effect.CallsScheduler? || m.effect.StartsRetrieval?
    ensures QueueOk(Apply(c, s, t, m), h)
  {
    var s' := Apply(c, s, t, m);
    TasksAfter(c, s, t, m);
    QueueAfterJoining(c, s, t, m, h);
    JoinsAfresh(s, t, m, h);
    forall i | 0 <= i < |QueueOf(s', h)| ensures Waits(s', h, i) {
      assert i < |QueueOf(s, h)| ==> Waits(s, h, i);
    }
  }

  /** Whoever joins stands in no queue yet. */
  lemma JoinsAfresh(s: State, t: TaskId, m: Move, h: Host)
    requires t < |s.tasks| && QueueOk(s, h) && (m.effect.CallsScheduler? ==> !InQueue(s.tasks[t].at))
    ensures forall i :: 0 <= i < |QueueOf(s, h)| ==> QueueOf(s, h)[i] != if m.effect.CallsScheduler? then t else |s.tasks|
  {
    forall i | 0 <= i < |QueueOf(s, h)| ensures QueueOf(s, h)[i] != if m.effect.CallsScheduler? then t else |s.tasks| {
      assert Waits(s, h, i);
    }
  }

  lemma QueueAfterJoining(c: Config, s: State, t: TaskId, m: Move, h: Host)
    requires t < |s.tasks| && (m.effect.CallsScheduler? || m.effect.StartsRetrieval?)
    ensures var s' := Apply(c, s, t, m);
            var more := if h == m.next.Host() then [if m.effect.CallsScheduler? then t else |s.tasks|] else [];
            && QueueOf(s', h) == QueueOf(s, h) + more && CalledOf(s', h) == CalledOf(s, h) + more
            && ServedOf(s', h) == ServedOf(s, h) && ReleasedOf(s', h) == ReleasedOf(s, h)
  {
  }

  lemma QueueShrinks(c: Config, s: State, t: TaskId, m: Move, h: Host)
    requires t < |s.tasks| && QueueOk(s, h) && Local(c, s, t, s.tasks[t], m)
    requires m.effect.Releases?
    ensures QueueOk(Apply(c, s, t, m), h)
  {
    var s' := Apply(c, s, t, m);
    TasksAfter(c, s, t, m);
    if h == m.next.Host() {
      HeadLeaves(c, s, t, m);
    } else {
      assert QueueOf(s', h) == QueueOf(s, h) && CalledOf(s', h) == CalledOf(s, h);
      assert ServedOf(s', h) == ServedOf(s, h) && ReleasedOf(s', h) == ReleasedOf(s, h);
      forall i | 0 <= i < |QueueOf(s, h)| ensures Waits(s', h, i) {
        assert Waits(s, h, i);
      }
    }
  }

  lemma HeadLeaves(c: Config, s: State, t: TaskId, m: Move)
    requires t < |s.tasks| && QueueOk(s, m.next.Host()) && SameCall(s.tasks[t], m.next) && LocalQueue(c, s, t, s.tasks[t], m)
    requires m.effect.Releases?
    ensures QueueOk(Apply(c, s, t, m), m.next.Host())
  {
    var h := m.next.Host();
    var s' := Apply(c, s, t, m);
    TasksAfter(c, s, t, m);
    var q := QueueOf(s, h);
    assert QueueOf(s', h) == q[1..] && CalledOf(s', h) == CalledOf(s, h);
    assert ServedOf(s', h) == ServedOf(s, h) + [t] && ReleasedOf(s', h) == ReleasedOf(s, h) + [s.now];
    assert q == [t] + q[1..];
    forall i | 0 <= i < |q[1..]| ensures Waits(s', h, i) {
      assert q[1..][i] == q[i + 1];
      assert Waits(s, h, i + 1);
    }
    forall i, j | 0 <= i < j < |q[1..]| ensures q[1..][i] != q[1..][j] {
      assert q[i + 1] != q[j + 1];
    }
  }

  lemma QueueStays(c: Config, s: State, t: TaskId, m: Move, h: Host)
    requires t < |s.tasks| && QueueOk(s, h) && Local(c, s, t, s.tasks[t], m)
    requires !m.effect.CallsScheduler? && !m.effect.StartsRetrieval? && !m.effect.Releases?
    ensures QueueOk(Apply(c, s, t, m), h)
  {
    TasksAfter(c, s, t, m);
    QueuesAfter(c, s, t, m);
    assert QueueOk(s, h);
    var s' := Apply(c, s, t, m);
    forall i | 0 <= i < |QueueOf(s', h)| ensures Waits(s', h, i) {
      assert Waits(s, h, i);
    }
  }

  // ---------------------------------------------------------------------------
  // The in-flight table.
  // ---------------------------------------------------------------------------

  /** What leaves the robots tables alone. */
  lemma RobotsAfter(c: Config, s: State, t: TaskId, m: Move)
    requires t < |s.tasks|
    ensures var s' := Apply(c, s, t, m);
            && (m.effect.StartsRetrieval? || m.effect.Unlists? || s'.inFlight == s.inFlight)
            && (m.effect.Lands? || (s'.landed == s.landed && s'.cache == s.cache))
  {
  }

  /** An origin in the table is there for a retrieval of that origin. */
  predicate Listed(s: State, o: Origin)
    requires o in s.inFlight
  {
    var r := s.inFlight[o];
    r < |s.tasks| && s.tasks[r].IsRobots() && s.tasks[r].origin == o
  }

  /**
   A retrieval is for its request's origin; one that has not landed is the one in the table, and
   its request waits for it.
   */
  predicate OnlyOneInFlight(s: State, t: TaskId)
    requires t < |s.tasks|
  {
    var task := s.tasks[t];
    task.IsRobots() ==>
      && task.parent.value < |s.tasks| && !s.tasks[task.parent.value].IsRobots()
      && s.tasks[task.parent.value].origin == task.origin
      && (!task.at.Landed? ==>
            && task.origin in s.inFlight && s.inFlight[task.origin] == t
            && s.tasks[task.parent.value].at == Joined(t, true))
  }

  /** A request waits for a retrieval of its own origin; the one that started it is the one that will unlist it. */
  predicate JoinedOk(s: State, t: TaskId)
    requires t < |s.tasks|
  {
    var task := s.tasks[t];
    task.at.Joined? ==>
      var r := task.at.retrieval;
      && r < |s.tasks| && s.tasks[r].IsRobots() && s.tasks[r].origin == task.origin
      && (task.at.starter ==>
            s.tasks[r].parent == Some(t) && task.origin in s.inFlight && s.inFlight[task.origin] == r)
  }

  ghost predicate Table(s: State) {
    && (forall o :: o in s.inFlight ==> Listed(s, o))
    && (forall t :: 0 <= t < |s.tasks| ==> OnlyOneInFlight(s, t))
    && (forall t :: 0 <= t < |s.tasks| ==> JoinedOk(s, t))
  }

  lemma TableKept(c: Config, s: State, t: TaskId, m: Move)
    requires t < |s.tasks| && Shapes(c, s) && Table(s) && Local(c, s, t, s.tasks[t], m)
    ensures Table(Apply(c, s, t, m))
  {
    TasksAfter(c, s, t, m);
    RobotsAfter(c, s, t, m);
    var s' := Apply(c, s, t, m);
    forall o | o in s'.inFlight ensures Listed(s', o) {
      ListedKept(c, s, t, m, o);
    }
    forall u | 0 <= u < |s'.tasks| ensures OnlyOneInFlight(s', u) {
      OnlyOneKept(c, s, t, m, u);
    }
    forall u | 0 <= u < |s'.tasks| ensures JoinedOk(s', u) {
      JoinedKept(c, s, t, m, u);
    }
  }

  lemma ListedKept(c: Config, s: State, t: TaskId, m: Move, o: Origin)
    requires t < |s.tasks| && Table(s) && Local(c, s, t, s.tasks[t], m)
    requires o in Apply(c, s, t, m).inFlight
    ensures Listed(Apply(c, s, t, m), o)
  {
    TasksAfter(c, s, t, m);
    RobotsAfter(c, s, t, m);
    assert o in s.inFlight ==> Listed(s, o);
  }

  lemma OnlyOneKept(c: Config, s: State, t: TaskId, m: Move, u: TaskId)
    requires t < |s.tasks| && Shapes(c, s) && Table(s) && Local(c, s, t, s.tasks[t], m)
    requires u < |Apply(c, s, t, m).tasks|
    ensures OnlyOneInFlight(Apply(c, s, t, m), u)
  {
    TasksAfter(c, s, t, m);
    assert Shape(c, s.tasks[t]) && JoinedOk(s, t);
    if u < |s.tasks| {
      assert OnlyOneInFlight(s, u);
      EarlierIsOnlyOne(c, s, t, m, u);
    } else {
      NewIsOnlyOne(c, s, t, m);
    }
  }

  lemma NewIsOnlyOne(c: Config, s: State, t: TaskId, m: Move)
    requires t < |s.tasks| && Shape(c, s.tasks[t]) && SameCall(s.tasks[t], m.next) && LocalTable(c, s, s.tasks[t], m)
    requires m.effect.StartsRetrieval?
    ensures |s.tasks| < |Apply(c, s, t, m).tasks| && OnlyOneInFlight(Apply(c, s, t, m), |s.tasks|)
  {
    TasksAfter(c, s, t, m);
  }

  /** Neither the request waiting for it, nor another retrieval of its origin, can have acted on the table. */
  lemma EarlierIsOnlyOne(c: Config, s: State, t: TaskId, m: Move, u: TaskId)
    requires t < |s.tasks| && Shape(c, s.tasks[t]) && JoinedOk(s, t) && !s.tasks[t].Finished()
    requires SameCall(s.tasks[t], m.next) && LocalTable(c, s, s.tasks[t], m)
    requires u < |s.tasks| && OnlyOneInFlight(s, u)
    ensures u < |Apply(c, s, t, m).tasks| && OnlyOneInFlight(Apply(c, s, t, m), u)
  {
    TasksAfter(c, s, t, m);
    RobotsAfter(c, s, t, m);
  }

  lemma JoinedKept(c: Config, s: State, t: TaskId, m: Move, u: TaskId)
    requires t < |s.tasks| && Table(s) && Local(c, s, t, s.tasks[t], m)
    requires u < |Apply(c, s, t, m).tasks|
    ensures JoinedOk(Apply(c, s, t, m), u)
  {
    TasksAfter(c, s, t, m);
    assert s.tasks[t].origin in s.inFlight ==> Listed(s, s.tasks[t].origin);
    assert JoinedOk(s, t);
    if u == t {
      ActorJoined(c, s, t, m);
    } else if u < |s.tasks| {
      assert JoinedOk(s, u);
      OtherJoined(c, s, t, m, u);
    }
  }

  lemma ActorJoined(c: Config, s: State, t: TaskId, m: Move)
    requires t < |s.tasks| && SameCall(s.tasks[t], m.next) && LocalTable(c, s, s.tasks[t], m)
    requires s.tasks[t].origin in s.inFlight ==> Listed(s, s.tasks[t].origin)
    ensures t < |Apply(c, s, t, m).tasks| && JoinedOk(Apply(c, s, t, m), t)
  {
    TasksAfter(c, s, t, m);
    RobotsAfter(c, s, t, m);
  }

  lemma OtherJoined(c: Config, s: State, t: TaskId, m: Move, u: TaskId)
    requires t < |s.tasks| && SameCall(s.tasks[t], m.next) && LocalTable(c, s, s.tasks[t], m) && JoinedOk(s, t)
    requires u < |s.tasks| && u != t && JoinedOk(s, u)
    ensures u < |Apply(c, s, t, m).tasks| && JoinedOk(Apply(c, s, t, m), u)
  {
    TasksAfter(c, s, t, m);
    RobotsAfter(c, s, t, m);
  }
}
