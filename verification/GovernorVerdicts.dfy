/**
 The robots verdict a request relies on is the one in the cache, for as long as
 nothing has landed since. Kept by every move whose local facts `GovernorMoves`
 lists; with it, a request that leaves after the boundary has held leaves under
 the verdict then cached.
 */
module GovernorVerdicts {
  import opened Prelude
  import opened Governor
  import opened GovernorMoves
  import opened GovernorTables

  /** Unless a retrieval has landed since `mark`, what the cache holds for `o`, if anything, is `e`. */
  predicate Current(s: State, o: Origin, e: Entry, mark: nat) {
    LandedOf(s, o) == mark && o in s.cache ==> s.cache[o] == e
  }

  ghost predicate VerdictOk(c: Config, s: State, t: TaskId)
    requires t < |s.tasks|
  {
    var task := s.tasks[t];
    var o := task.origin;
    && task.landedBefore <= LandedOf(s, o)
    && (task.at.Joined? && task.at.retrieval < |s.tasks| ==>
          var p := s.tasks[task.at.retrieval].at;
          p.Landed? && p.found.Learned? ==> Current(s, o, p.found.entry, task.landedBefore))
    && (task.at.Deciding? && task.at.found.Learned? ==> Current(s, o, task.at.found.entry, task.landedBefore))
    && (task.decided.Some? ==>
          Allows(c, task.decided.value.verdict, task.path) && Current(s, o, task.decided.value, task.landedBefore))
  }

  /** A retrieval still listed after it landed is what the cache holds. */
  predicate ListedIsCached(s: State, o: Origin)
    requires o in s.inFlight && s.inFlight[o] < |s.tasks|
  {
    var p := s.tasks[s.inFlight[o]].at;
    p.Landed? && p.found.Learned? && o in s.cache ==> s.cache[o] == p.found.entry
  }

  ghost predicate Verdicts(c: Config, s: State) {
    && (forall t :: 0 <= t < |s.tasks| ==> VerdictOk(c, s, t))
    && (forall o :: o in s.inFlight ==> s.inFlight[o] < |s.tasks| && ListedIsCached(s, o))
  }

  lemma VerdictsKept(c: Config, s: State, t: TaskId, m: Move)
    requires t < |s.tasks| && Shapes(c, s) && Table(s) && Verdicts(c, s) && Local(c, s, t, s.tasks[t], m)
    ensures Verdicts(c, Apply(c, s, t, m))
  {
    var s' := Apply(c, s, t, m);
    TableKept(c, s, t, m);
    TasksAfter(c, s, t, m);
    forall u | 0 <= u < |s'.tasks| ensures VerdictOk(c, s', u) {
      if u == t {
        ActorVerdictKept(c, s, t, m);
      } else if u < |s.tasks| {
        assert VerdictOk(c, s, u) && JoinedOk(s, u);
        OtherVerdictKept(c, s, t, m, u);
      } else {
        NewVerdictOk(c, s, t, m);
      }
    }
    forall o | o in s'.inFlight ensures s'.inFlight[o] < |s'.tasks| && ListedIsCached(s', o) {
      assert Listed(s', o);
      ListedIsCachedKept(c, s, t, m, o);
    }
  }

  lemma ActorVerdictKept(c: Config, s: State, t: TaskId, m: Move)
    requires t < |s.tasks| && Shapes(c, s) && Table(s) && Verdicts(c, s) && Local(c, s, t, s.tasks[t], m)
    ensures |Apply(c, s, t, m).tasks| > t && VerdictOk(c, Apply(c, s, t, m), t)
  {
    TasksAfter(c, s, t, m);
    RobotsAfter(c, s, t, m);
    assert Shape(c, s.tasks[t]) && VerdictOk(c, s, t) && JoinedOk(s, t);
    var o := s.tasks[t].origin;
    assert o in s.inFlight ==> Listed(s, o) && ListedIsCached(s, o);
  }

  lemma OtherVerdictKept(c: Config, s: State, t: TaskId, m: Move, u: TaskId)
    requires t < |s.tasks| && !s.tasks[t].Finished() && SameCall(s.tasks[t], m.next) && LocalTable(c, s, s.tasks[t], m)
    requires u < |s.tasks| && u != t && VerdictOk(c, s, u) && JoinedOk(s, u)
    ensures u < |Apply(c, s, t, m).tasks| && VerdictOk(c, Apply(c, s, t, m), u)
  {
    TasksAfter(c, s, t, m);
    RobotsAfter(c, s, t, m);
  }

  /** A retrieval that has just started relies on nothing yet. */
  lemma NewVerdictOk(c: Config, s: State, t: TaskId, m: Move)
    requires t < |s.tasks| && m.effect.StartsRetrieval?
    ensures |s.tasks| < |Apply(c, s, t, m).tasks| && VerdictOk(c, Apply(c, s, t, m), |s.tasks|)
  {
    TasksAfter(c, s, t, m);
  }

  lemma ListedIsCachedKept(c: Config, s: State, t: TaskId, m: Move, o: Origin)
    requires t < |s.tasks| && Shapes(c, s) && Table(s) && Verdicts(c, s) && Local(c, s, t, s.tasks[t], m)
    requires var s' := Apply(c, s, t, m); o in s'.inFlight && s'.inFlight[o] < |s'.tasks|
    ensures ListedIsCached(Apply(c, s, t, m), o)
  {
    assert Shape(c, s.tasks[t]) && OnlyOneInFlight(s, t);
    assert o in s.inFlight ==> Listed(s, o) && ListedIsCached(s, o);
    CachedAsListed(c, s, t, m, o);
  }

  lemma CachedAsListed(c: Config, s: State, t: TaskId, m: Move, o: Origin)
    requires t < |s.tasks| && !s.tasks[t].Finished() && Shape(c, s.tasks[t]) && OnlyOneInFlight(s, t)
    requires SameCall(s.tasks[t], m.next) && LocalTable(c, s, s.tasks[t], m) && LocalUnit(c, s, s.tasks[t], m)
    requires o in s.inFlight ==> Listed(s, o) && ListedIsCached(s, o)
    requires var s' := Apply(c, s, t, m); o in s'.inFlight && s'.inFlight[o] < |s'.tasks|
    ensures ListedIsCached(Apply(c, s, t, m), o)
  {
    TasksAfter(c, s, t, m);
    RobotsAfter(c, s, t, m);
  }
}
