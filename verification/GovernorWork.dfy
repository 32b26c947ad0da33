/** How much one product request can cause: retrievals, calls of the scheduler and sends, its own robots retrievals included. */
module GovernorWork {
  import opened Prelude
  import opened Governor
  import opened GovernorMoves
  import opened GovernorTables
  import GovernorHistory

  // ---------------------------------------------------------------------------
  // Counting.
  // ---------------------------------------------------------------------------

  /** How often `t` occurs among the first `n`. */
  function Occurrences(xs: seq<TaskId>, n: nat, t: TaskId): nat
    requires n <= |xs|
  {
    if n == 0 then 0 else Occurrences(xs, n - 1, t) + if xs[n - 1] == t then 1 else 0
  }

  /** How many of the first `n` tasks are retrievals request `p` started. */
  function Retrievals(tasks: seq<Task>, n: nat, p: TaskId): nat
    requires n <= |tasks|
  {
    if n == 0 then 0 else Retrievals(tasks, n - 1, p) + if tasks[n - 1].parent == Some(p) then 1 else 0
  }

  /** Task `u` works for request `p`: it is the request, or a retrieval the request started. */
  predicate WorksFor(tasks: seq<Task>, u: TaskId, p: TaskId) { u < |tasks| && (u == p || tasks[u].parent == Some(p)) }

  /** How many of the first `n` of `xs` work for `p`. */
  function CausedBy(tasks: seq<Task>, xs: seq<TaskId>, n: nat, p: TaskId): nat
    requires n <= |xs|
  {
    if n == 0 then 0 else CausedBy(tasks, xs, n - 1, p) + if WorksFor(tasks, xs[n - 1], p) then 1 else 0
  }

  lemma {:induction false} OccurrencesInPrefix(xs: seq<TaskId>, ys: seq<TaskId>, n: nat, t: TaskId)
    requires n <= |xs|
    ensures Occurrences(xs + ys, n, t) == Occurrences(xs, n, t)
  {
    if n > 0 {
      OccurrencesInPrefix(xs, ys, n - 1, t);
    }
  }

  lemma {:induction false} RetrievalsAlike(a: seq<Task>, b: seq<Task>, n: nat, p: TaskId)
    requires n <= |a| && n <= |b| && forall u :: 0 <= u < n ==> a[u].parent == b[u].parent
    ensures Retrievals(a, n, p) == Retrievals(b, n, p)
  {
    if n > 0 {
      RetrievalsAlike(a, b, n - 1, p);
    }
  }

  lemma {:induction false} RetrievalsStop(tasks: seq<Task>, m: nat, n: nat, p: TaskId)
    requires m <= n <= |tasks| && forall u :: m <= u < n ==> tasks[u].parent != Some(p)
    ensures Retrievals(tasks, n, p) == Retrievals(tasks, m, p)
    decreases n
  {
    if m < n {
      RetrievalsStop(tasks, m, n - 1, p);
    }
  }

  /** The occurrences of the first `m` tasks that work for `p`, added up. */
  function OccurrencesOf(tasks: seq<Task>, xs: seq<TaskId>, n: nat, m: nat, p: TaskId): nat
    requires n <= |xs| && m <= |tasks|
  {
    if m == 0 then 0
    else OccurrencesOf(tasks, xs, n, m - 1, p) + if WorksFor(tasks, m - 1, p) then Occurrences(xs, n, m - 1) else 0
  }

  lemma {:induction false} OneMoreOccurs(tasks: seq<Task>, xs: seq<TaskId>, n: nat, m: nat, p: TaskId)
    requires 0 < n <= |xs| && m <= |tasks|
    ensures OccurrencesOf(tasks, xs, n, m, p) ==
            OccurrencesOf(tasks, xs, n - 1, m, p) + if xs[n - 1] < m && WorksFor(tasks, xs[n - 1], p) then 1 else 0
    decreases m
  {
    if m > 0 {
      OneMoreOccurs(tasks, xs, n, m - 1, p);
    }
  }

  lemma {:induction false} NoneOccurs(tasks: seq<Task>, xs: seq<TaskId>, m: nat, p: TaskId)
    requires m <= |tasks|
    ensures OccurrencesOf(tasks, xs, 0, m, p) == 0
  {
    if m > 0 {
      NoneOccurs(tasks, xs, m - 1, p);
    }
  }

  /** Counting entry by entry and counting task by task give the same. */
  lemma {:induction false} CountedEitherWay(tasks: seq<Task>, xs: seq<TaskId>, n: nat, p: TaskId)
    requires n <= |xs|
    ensures CausedBy(tasks, xs, n, p) == OccurrencesOf(tasks, xs, n, |tasks|, p)
  {
    if n == 0 {
      NoneOccurs(tasks, xs, |tasks|, p);
    } else {
      CountedEitherWay(tasks, xs, n - 1, p);
      OneMoreOccurs(tasks, xs, n, |tasks|, p);
    }
  }

  /** If no task occurs more than `k` times, a request and its retrievals occur at most `k` times each. */
  lemma {:induction false} FewOccurrences(tasks: seq<Task>, xs: seq<TaskId>, m: nat, p: TaskId, k: nat)
    requires m <= |tasks| && forall u :: 0 <= u < |tasks| ==> Occurrences(xs, |xs|, u) <= k
    ensures OccurrencesOf(tasks, xs, |xs|, m, p) <= k * ((if p < m then 1 else 0) + Retrievals(tasks, m, p))
    decreases m
  {
    if m > 0 {
      FewOccurrences(tasks, xs, m - 1, p, k);
      OneMoreTimes(k, (if p < m - 1 then 1 else 0) + Retrievals(tasks, m - 1, p));
    }
  }

  lemma OneMoreTimes(k: nat, n: nat)
    ensures k * (n + 1) == k * n + k
  {
  }

  lemma CausedByFew(tasks: seq<Task>, xs: seq<TaskId>, p: TaskId, k: nat)
    requires forall u :: 0 <= u < |tasks| ==> Occurrences(xs, |xs|, u) <= k
    ensures CausedBy(tasks, xs, |xs|, p) <= k * (1 + Retrievals(tasks, |tasks|, p))
  {
    CountedEitherWay(tasks, xs, |xs|, p);
    FewOccurrences(tasks, xs, |tasks|, p, k);
    if p >= |tasks| {
      assert k * (1 + Retrievals(tasks, |tasks|, p)) == k + k * Retrievals(tasks, |tasks|, p);
    }
  }

  // ---------------------------------------------------------------------------
  // In every reachable state.
  // ---------------------------------------------------------------------------

  /** A task's round is the number of its calls of its host's scheduler. */
  predicate CallsOk(s: State, t: TaskId)
    requires t < |s.tasks|
  {
    var called := CalledOf(s, s.tasks[t].Host());
    Occurrences(called, |called|, t) == s.tasks[t].round
  }

  /** Only tasks for a host call its scheduler. */
  ghost predicate CallersKnown(s: State, h: Host) {
    forall i :: 0 <= i < |CalledOf(s, h)| ==> CalledOf(s, h)[i] < |s.tasks| && s.tasks[CalledOf(s, h)[i]].Host() == h
  }

  /** Each round, the one before the first wait included, asks gate 5 at most once. */
  predicate RetrievalsOk(s: State, p: TaskId)
    requires p < |s.tasks|
  {
    Retrievals(s.tasks, |s.tasks|, p) <= if s.tasks[p].IsRobots() then 0 else s.tasks[p].round + if s.tasks[p].asked then 1 else 0
  }

  ghost predicate Works(s: State) {
    && (forall t :: 0 <= t < |s.tasks| ==> CallsOk(s, t) && RetrievalsOk(s, t))
    && (forall t :: 0 <= t < |s.tasks| && s.tasks[t].IsRobots() ==> s.tasks[t].parent.value < |s.tasks|)
    && (forall h :: CallersKnown(s, h))
  }

  lemma {:induction false} NotAmong(xs: seq<TaskId>, n: nat, t: TaskId)
    requires n <= |xs| && forall i :: 0 <= i < n ==> xs[i] != t
    ensures Occurrences(xs, n, t) == 0
  {
    if n > 0 {
      NotAmong(xs, n - 1, t);
    }
  }

  lemma StrangersHaveNotCalled(s: State, h: Host, t: TaskId)
    requires CallersKnown(s, h) && (t >= |s.tasks| || s.tasks[t].Host() != h)
    ensures Occurrences(CalledOf(s, h), |CalledOf(s, h)|, t) == 0
  {
    NotAmong(CalledOf(s, h), |CalledOf(s, h)|, t);
  }

  lemma {:induction false} NobodysRetrievals(s: State, n: nat, p: TaskId)
    requires n <= |s.tasks| && p >= |s.tasks|
    requires forall t :: 0 <= t < |s.tasks| && s.tasks[t].IsRobots() ==> s.tasks[t].parent.value < |s.tasks|
    ensures Retrievals(s.tasks, n, p) == 0
  {
    if n > 0 {
      NobodysRetrievals(s, n - 1, p);
    }
  }

  lemma WorksKept(c: Config, s: State, t: TaskId, m: Move)
    requires t < |s.tasks| && Shape(c, s.tasks[t]) && Works(s) && SameCall(s.tasks[t], m.next)
    requires LocalQueue(c, s, t, s.tasks[t], m) && LocalTable(c, s, s.tasks[t], m)
    ensures Works(Apply(c, s, t, m))
  {
    var s' := Apply(c, s, t, m);
    TasksAfter(c, s, t, m);
    forall u | 0 <= u < |s'.tasks| ensures CallsOk(s', u) && RetrievalsOk(s', u) {
      if u < |s.tasks| {
        assert CallsOk(s, u) && RetrievalsOk(s, u);
      }
      CallsKept(c, s, t, m, u);
      RetrievalsKept(c, s, t, m, u);
    }
    forall h ensures CallersKnown(s', h) {
      assert CallersKnown(s, h);
      CallersStayKnown(c, s, t, m, h);
    }
  }

  lemma CalledAfter(c: Config, s: State, t: TaskId, m: Move, h: Host)
    requires t < |s.tasks|
    ensures CalledOf(Apply(c, s, t, m), h) == CalledOf(s, h) + if h == m.next.Host() then Joining(s, t, m) else []
  {
  }

  lemma CallersStayKnown(c: Config, s: State, t: TaskId, m: Move, h: Host)
    requires t < |s.tasks| && SameCall(s.tasks[t], m.next) && CallersKnown(s, h)
    ensures CallersKnown(Apply(c, s, t, m), h)
  {
    TasksAfter(c, s, t, m);
    CalledAfter(c, s, t, m, h);
  }

  lemma CallsKept(c: Config, s: State, t: TaskId, m: Move, u: TaskId)
    requires t < |s.tasks| && SameCall(s.tasks[t], m.next) && LocalQueue(c, s, t, s.tasks[t], m)
    requires u < |s.tasks| ==> CallsOk(s, u)
    requires (forall h :: CallersKnown(s, h)) && u < |Apply(c, s, t, m).tasks|
    ensures CallsOk(Apply(c, s, t, m), u)
  {
    var s' := Apply(c, s, t, m);
    TasksAfter(c, s, t, m);
    var h := s'.tasks[u].Host();
    CalledAfter(c, s, t, m, h);
    OccurrencesInPrefix(CalledOf(s, h), Joining(s, t, m), |CalledOf(s, h)|, u);
    if u >= |s.tasks| {
      assert CallersKnown(s, h);
      StrangersHaveNotCalled(s, h, u);
    }
  }

  lemma RetrievalsKept(c: Config, s: State, t: TaskId, m: Move, p: TaskId)
    requires t < |s.tasks| && Shape(c, s.tasks[t]) && Works(s) && SameCall(s.tasks[t], m.next)
    requires LocalQueue(c, s, t, s.tasks[t], m) && LocalTable(c, s, s.tasks[t], m)
    requires p < |Apply(c, s, t, m).tasks|
    ensures RetrievalsOk(Apply(c, s, t, m), p)
  {
    var s' := Apply(c, s, t, m);
    TasksAfter(c, s, t, m);
    RetrievalsAlike(s.tasks, s'.tasks, |s.tasks|, p);
    if p < |s.tasks| {
      assert RetrievalsOk(s, p);
    } else {
      NobodysRetrievals(s, |s.tasks|, p);
    }
  }

  // ---------------------------------------------------------------------------
  // The bound.
  // ---------------------------------------------------------------------------

  /** Who sent each departure, in order. */
  function Senders(s: State): seq<TaskId> { seq(|s.wire|, k requires 0 <= k < |s.wire| => s.wire[k].task) }

  lemma {:induction false} SentOnce(s: State, n: nat, t: TaskId)
    requires n <= |s.wire| && GovernorHistory.Owners(s) && t < |s.tasks|
    ensures var d := s.tasks[t].departure;
            Occurrences(Senders(s), n, t) <= if d.Some? && d.value < n then 1 else 0
  {
    if n > 0 {
      SentOnce(s, n - 1, t);
      assert GovernorHistory.OwnerOk(s, n - 1);
    }
  }

  /** How often request `p` and its retrievals called the scheduler of their host. */
  function CallsBy(s: State, p: TaskId): nat
    requires p < |s.tasks|
  {
    var called := CalledOf(s, s.tasks[p].Host());
    CausedBy(s.tasks, called, |called|, p)
  }

  function SendsBy(s: State, p: TaskId): nat { CausedBy(s.tasks, Senders(s), |s.wire|, p) }

  function RetrievalsBy(s: State, p: TaskId): nat { Retrievals(s.tasks, |s.tasks|, p) }

  /** These count what they say: the retrievals a request started, and its own calls and sends together with theirs. */
  lemma {:induction false} RetrievalsAreCounted(s: State, p: TaskId)
    ensures RetrievalsBy(s, p) == |set r: nat | r < |s.tasks| && s.tasks[r].parent == Some(p)|
  {
    var started := (r: nat) => r < |s.tasks| && s.tasks[r].parent == Some(p);
    CountIsCardinality((k: nat) => if k <= |s.tasks| then Retrievals(s.tasks, k, p) else 0, started, |s.tasks|);
    assert (set r: nat | r < |s.tasks| && started(r)) == set r: nat | r < |s.tasks| && s.tasks[r].parent == Some(p);
  }

  lemma {:induction false} CausesAreCounted(s: State, xs: seq<TaskId>, p: TaskId)
    ensures CausedBy(s.tasks, xs, |xs|, p) == |set k: nat | k < |xs| && xs[k] < |s.tasks| && (xs[k] == p || s.tasks[xs[k]].parent == Some(p))|
  {
    var caused := (k: nat) => k < |xs| && xs[k] < |s.tasks| && (xs[k] == p || s.tasks[xs[k]].parent == Some(p));
    CountIsCardinality((k: nat) => if k <= |xs| then CausedBy(s.tasks, xs, k, p) else 0, caused, |xs|);
    assert (set k: nat | k < |xs| && caused(k)) == set k: nat | k < |xs| && xs[k] < |s.tasks| && (xs[k] == p || s.tasks[xs[k]].parent == Some(p));
  }

  /** BOUNDED WORK: at most four robots retrievals, fifteen calls of the scheduler and five sends. */
  lemma WorkIsBounded(c: Config, s: State, p: TaskId)
    requires Shapes(c, s) && Works(s) && GovernorHistory.Owners(s) && p < |s.tasks|
    ensures RetrievalsBy(s, p) <= MAX_BOUNDARY_WAITS + 1
    ensures CallsBy(s, p) <= MAX_BOUNDARY_WAITS * (1 + RetrievalsBy(s, p)) && SendsBy(s, p) <= 1 + RetrievalsBy(s, p)
  {
    assert Shape(c, s.tasks[p]) && RetrievalsOk(s, p);
    var h := s.tasks[p].Host();
    forall u | 0 <= u < |s.tasks| ensures Occurrences(CalledOf(s, h), |CalledOf(s, h)|, u) <= MAX_BOUNDARY_WAITS {
      assert Shape(c, s.tasks[u]) && CallsOk(s, u) && CallersKnown(s, h);
      if s.tasks[u].Host() != h {
        StrangersHaveNotCalled(s, h, u);
      }
    }
    CausedByFew(s.tasks, CalledOf(s, h), p, MAX_BOUNDARY_WAITS);
    forall u | 0 <= u < |s.tasks| ensures Occurrences(Senders(s), |s.wire|, u) <= 1 {
      SentOnce(s, |s.wire|, u);
    }
    CausedByFew(s.tasks, Senders(s), p, 1);
  }
}
