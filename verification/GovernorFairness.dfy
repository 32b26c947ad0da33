/** No starvation: what one call waits for, however many others keep arriving. */
module GovernorFairness {
  import opened Prelude
  import opened Governor
  import opened GovernorMoves
  import opened GovernorTables
  import opened GovernorRuns
  import opened GovernorProgress

  // ---------------------------------------------------------------------------
  // Whom a call waits for, and for how much.
  // ---------------------------------------------------------------------------

  /** The send a call's progress hangs on: its own, or that of a retrieval still to land. */
  function SendOf(s: State, t: TaskId): TaskId
    requires t < |s.tasks|
  {
    var p := s.tasks[t].at;
    if p.Joined? && p.retrieval < |s.tasks| && !s.tasks[p.retrieval].at.Landed? then p.retrieval else t
  }

  /** The one task whose job moves it on: that send's, or the head of the queue it stands in. */
  function Blocker(s: State, t: TaskId): TaskId
    requires t < |s.tasks|
  {
    var u := SendOf(s, t);
    if InQueue(s.tasks[u].at) && QueueOf(s, s.tasks[u].Host()) != [] then QueueOf(s, s.tasks[u].Host())[0] else u
  }

  /** How many stand before `u`. */
  function Place(q: seq<TaskId>, u: TaskId): nat {
    if q == [] || q[0] == u then 0 else 1 + Place(q[1..], u)
  }

  /** What a call has still to wait for, the parts in order of weight. */
  datatype Wait = Wait(own: nat, retrieval: nat, place: nat, turn: nat)

  /** Compared part by part, so that there is no endless descent. */
  predicate Less(a: Wait, b: Wait) {
    || a.own < b.own
    || (a.own == b.own &&
        (|| a.retrieval < b.retrieval
         || (a.retrieval == b.retrieval && (a.place < b.place || (a.place == b.place && a.turn < b.turn)))))
  }

  function TurnOf(s: State, h: Host): nat {
    var q := QueueOf(s, h);
    if q != [] && q[0] < |s.tasks| && s.tasks[q[0]].at.Queued? then 1 else 0
  }

  function QueueWait(s: State, u: TaskId): (nat, nat)
    requires u < |s.tasks|
  {
    var h := s.tasks[u].Host();
    if InQueue(s.tasks[u].at) then (Place(QueueOf(s, h), u), TurnOf(s, h)) else (0, 0)
  }

  function WaitOf(s: State, t: TaskId): Wait
    requires t < |s.tasks|
  {
    var u := SendOf(s, t);
    Wait(Rank(s.tasks[t]), if u == t then 0 else 1 + Rank(s.tasks[u]), QueueWait(s, u).0, QueueWait(s, u).1)
  }

  // ---------------------------------------------------------------------------
  // Queues.
  // ---------------------------------------------------------------------------

  lemma {:induction false} PlaceBeforeMore(q: seq<TaskId>, more: seq<TaskId>, u: TaskId)
    requires u in q
    ensures Place(q + more, u) == Place(q, u)
  {
    if q[0] != u {
      assert (q + more)[1..] == q[1..] + more;
      PlaceBeforeMore(q[1..], more, u);
    }
  }

  /** What another task's job does to the queue a task stands in. */
  lemma QueueAfterJob(c: Config, s: State, t: TaskId, m: Move, h: Host)
    requires t < |s.tasks|
    ensures var s' := Apply(c, s, t, m);
            || QueueOf(s', h) == QueueOf(s, h)
            || (m.effect.Releases? && h == m.next.Host() && QueueOf(s', h) == Rest(QueueOf(s, h)))
            || (!m.effect.Releases? && Joining(s, t, m) != [] && QueueOf(s', h) == QueueOf(s, h) + Joining(s, t, m))
  {
  }

  /**
   While a task stands in its queue, another's job brings it no further back; and the head's brings
   it forward, or begins the head's turn.
   */
  lemma QueueWaitFalls(c: Config, s: State, t: TaskId, m: Move, u: TaskId)
    requires t < |s.tasks| && u < |s.tasks| && u != t && Queues(s)
    requires SameCall(s.tasks[t], m.next) && LocalQueue(c, s, t, s.tasks[t], m)
    ensures u < |Apply(c, s, t, m).tasks| && Apply(c, s, t, m).tasks[u] == s.tasks[u]
    ensures var before, after := QueueWait(s, u), QueueWait(Apply(c, s, t, m), u);
            var head := InQueue(s.tasks[u].at) && AtHead(s, t, s.tasks[u].Host());
            if head then after.0 < before.0 || (after.0 == before.0 && after.1 < before.1) else after == before
  {
    var s', h := Apply(c, s, t, m), s.tasks[u].Host();
    TasksAfter(c, s, t, m);
    if InQueue(s.tasks[u].at) {
      QueueAfterJob(c, s, t, m, h);
      StandsInQueue(c, s, t, m, u);
    }
  }

  lemma StandsInQueue(c: Config, s: State, t: TaskId, m: Move, u: TaskId)
    requires t < |s.tasks| && u < |s.tasks| && u != t && Queues(s) && InQueue(s.tasks[u].at)
    requires SameCall(s.tasks[t], m.next) && LocalQueue(c, s, t, s.tasks[t], m)
    ensures var s', h := Apply(c, s, t, m), s.tasks[u].Host();
            var q, q' := QueueOf(s, h), QueueOf(s', h);
            && q != [] && u in q
            && if q[0] == t
               then (m.effect.Releases? && Place(q', u) < Place(q, u)) || (q' == q && TurnOf(s', h) < TurnOf(s, h))
               else Place(q', u) == Place(q, u) && q' != [] && q'[0] == q[0] && TurnOf(s', h) == TurnOf(s, h)
  {
    var s', h := Apply(c, s, t, m), s.tasks[u].Host();
    var q := QueueOf(s, h);
    TasksAfter(c, s, t, m);
    QueueAfterJob(c, s, t, m, h);
    assert QueueOk(s, h) && Waits(s, h, 0);
    if Joining(s, t, m) != [] {
      PlaceBeforeMore(q, Joining(s, t, m), u);
    }
  }

  // ---------------------------------------------------------------------------
  // The wait of one call.
  // ---------------------------------------------------------------------------

  /** The job of the retrieval a call waits for: the retrieval's rank falls, or it lands. */
  lemma RetrievalShortens(c: Config, s: State, u: TaskId, m: Move, t: TaskId)
    requires u < |s.tasks| && t < |s.tasks| && u != t && SendOf(s, t) == u && RankAfter(m) < Rank(s.tasks[u])
    ensures t < |Apply(c, s, u, m).tasks| && Less(WaitOf(Apply(c, s, u, m), t), WaitOf(s, t))
  {
    TasksAfter(c, s, u, m);
  }

  /** The job of a task that is neither: at most it is the head of the queue. */
  lemma OthersDelayNothing(c: Config, s: State, u: TaskId, m: Move, t: TaskId)
    requires u < |s.tasks| && t < |s.tasks| && u != t && SendOf(s, t) != u && Queues(s)
    requires JoinedOk(s, t) && !s.tasks[u].Finished()
    requires SameCall(s.tasks[u], m.next) && LocalQueue(c, s, u, s.tasks[u], m)
    ensures t < |Apply(c, s, u, m).tasks|
    ensures var before, after := WaitOf(s, t), WaitOf(Apply(c, s, u, m), t);
            if u == Blocker(s, t) then Less(after, before) else after == before
  {
    var w := SendOf(s, t);
    TasksAfter(c, s, u, m);
    QueueWaitFalls(c, s, u, m, w);
    if InQueue(s.tasks[w].at) {
      assert w in QueueOf(s, s.tasks[w].Host());
    }
  }

  lemma JobDelaysNothing(c: Config, s: State, u: TaskId, m: Move, t: TaskId)
    requires u < |s.tasks| && t < |s.tasks| && Queues(s) && JoinedOk(s, t) && RankAfter(m) < Rank(s.tasks[u])
    requires SameCall(s.tasks[u], m.next) && LocalQueue(c, s, u, s.tasks[u], m)
    ensures t < |Apply(c, s, u, m).tasks|
    ensures var before, after := WaitOf(s, t), WaitOf(Apply(c, s, u, m), t);
            (after == before && u != Blocker(s, t)) || Less(after, before)
  {
    if u == t {
      TasksAfter(c, s, u, m);
    } else if SendOf(s, t) == u {
      RetrievalShortens(c, s, u, m, t);
    } else {
      OthersDelayNothing(c, s, u, m, t);
    }
  }

  lemma NothingElseDelays(c: Config, s: State, s': State, t: TaskId)
    requires Outside(c, s, s') && Table(s) && Queues(s) && t < |s.tasks|
    ensures t < |s'.tasks| && WaitOf(s', t) == WaitOf(s, t)
  {
    assert JoinedOk(s, t);
    var h := s.tasks[SendOf(s, t)].Host();
    assert QueueOk(s, h);
    if QueueOf(s, h) != [] {
      assert Waits(s, h, 0);
    }
  }

  /**
   NO STARVATION: whatever any other call does, and however many more arrive, no step of
   any run lengthens the wait of a call; and every job of the one task it waits for
   shortens it.
   */
  lemma NobodyIsDelayed(c: Config, states: seq<State>, events: seq<Event>, i: nat, t: TaskId)
    requires c.Valid() && IsRun(c, states, events) && i < |events| && t < |states[i].tasks|
    ensures t < |states[i + 1].tasks|
    ensures var before, after := WaitOf(states[i], t), WaitOf(states[i + 1], t);
            (after == before && !(events[i].Act? && events[i].t == Blocker(states[i], t))) || Less(after, before)
  {
    if events[i].Act? {
      var m := JobOf(c, states, events, i);
      RankFallsHere(c, states[i], events[i].t, events[i].choice);
      JobDelaysNothing(c, states[i], events[i].t, m, t);
    } else {
      PauseOf(c, states, events, i);
      NothingElseDelays(c, states[i], states[i + 1], t);
    }
  }

  /** And that task can always run, now or at a later time, as long as the call has not settled. */
  lemma BlockerCanRun(c: Config, states: seq<State>, events: seq<Event>, i: nat, t: TaskId) returns (ms: nat, choice: Choice)
    requires c.Valid() && IsRun(c, states, events) && i < |states| && t < |states[i].tasks| && !states[i].tasks[t].Finished()
    ensures Enabled(c, Later(states[i], ms), Blocker(states[i], t), choice)
  {
    InvAlways(c, states, events, i);
    ms, choice := BlockerRuns(c, states[i], t);
  }

  lemma BlockerRuns(c: Config, s: State, t: TaskId) returns (ms: nat, choice: Choice)
    requires c.Valid() && Inv(c, s) && t < |s.tasks| && !s.tasks[t].Finished()
    ensures Enabled(c, Later(s, ms), Blocker(s, t), choice)
  {
    var w := SendOf(s, t);
    assert Shape(c, s.tasks[t]) && JoinedOk(s, t) && Shape(c, s.tasks[w]);
    var u: TaskId;
    ms, u, choice := SendCanRun(c, s, w);
    assert InQueue(s.tasks[w].at) ==> w in QueueOf(s, s.tasks[w].Host());
  }
}
