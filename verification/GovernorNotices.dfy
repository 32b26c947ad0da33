/** Warnings and stops: each announced at most once, never without cause, and never forgotten once every unit is dealt with. */
module GovernorNotices {
  import opened Prelude
  import opened Governor
  import opened GovernorMoves
  import opened GovernorTables
  import opened GovernorLedger
  import Stores = AllowanceStores

  /** The store carries the mark a notice is announced under. */
  predicate Marked(s: State, n: Notice) {
    && n.key in s.rows
    && if n.kind.Warn? then s.rows[n.key].warnedAt.Some? else s.rows[n.key].stoppedAt.Some?
  }

  predicate NoticingAt(p: Point, n: Notice) { p.Noticing? && p.notice == n }

  /** A notice has been told, or the call that set its mark is telling it now. */
  predicate NoticeOk(s: State, n: Notice) {
    && s.notices[n] <= 1
    && (n in s.marker <==> Marked(s, n))
    && (n !in s.marker ==> s.notices[n] == 0)
    && (n in s.marker ==>
          s.marker[n] < |s.tasks| && (s.notices[n] == 0 <==> NoticingAt(s.tasks[s.marker[n]].at, n)))
  }

  /** Only the call that set the mark tells the notice. */
  predicate TellsOwn(s: State, t: TaskId)
    requires t < |s.tasks|
  {
    var p := s.tasks[t].at;
    p.Noticing? ==> p.notice in s.marker && s.marker[p.notice] == t
  }

  ghost predicate Notices(s: State) {
    && (forall n :: NoticeOk(s, n))
    && (forall t :: 0 <= t < |s.tasks| ==> TellsOwn(s, t))
  }

  /** What the rows keep, whatever statement runs: no mark is ever cleared, and only a mark statement sets one. */
  lemma MarksAfter(c: Config, s: State, t: TaskId, m: Move, n: Notice)
    requires t < |s.tasks|
    ensures var s' := Apply(c, s, t, m);
            Marked(s', n) == (Marked(s, n) || (m.effect == Marks(n) && MarkIsFirst(s, n)))
  {
    RowsAfter(c, s, t, m);
    if m.effect.Marks? {
      MarkStatement(c, s, t, m, n);
    }
  }

  lemma MarkStatement(c: Config, s: State, t: TaskId, m: Move, n: Notice)
    requires t < |s.tasks| && m.effect.Marks?
    ensures Marked(Apply(c, s, t, m), n) == (Marked(s, n) || (m.effect == Marks(n) && MarkIsFirst(s, n)))
  {
    var call := MarkCall(s.now, m.effect.notice);
    assert Apply(c, s, t, m).rows == Stores.PostgresAfter(s.rows, call);
  }

  lemma NoticesKept(c: Config, s: State, t: TaskId, m: Move)
    requires t < |s.tasks| && Notices(s) && LocalNotice(c, s, s.tasks[t], m)
    ensures Notices(Apply(c, s, t, m))
  {
    var s' := Apply(c, s, t, m);
    TasksAfter(c, s, t, m);
    forall n ensures NoticeOk(s', n) {
      NoticeKept(c, s, t, m, n);
    }
    forall u | 0 <= u < |s'.tasks| ensures TellsOwn(s', u) {
      TellsOwnKept(c, s, t, m, u);
    }
  }

  lemma NoticeKept(c: Config, s: State, t: TaskId, m: Move, n: Notice)
    requires t < |s.tasks| && Notices(s) && LocalNotice(c, s, s.tasks[t], m)
    ensures NoticeOk(Apply(c, s, t, m), n)
  {
    assert NoticeOk(s, n) && TellsOwn(s, t);
    TasksAfter(c, s, t, m);
    RowsAfter(c, s, t, m);
    MarksAfter(c, s, t, m, n);
  }

  lemma TellsOwnKept(c: Config, s: State, t: TaskId, m: Move, u: TaskId)
    requires t < |s.tasks| && Notices(s) && LocalNotice(c, s, s.tasks[t], m)
    requires u < |Apply(c, s, t, m).tasks|
    ensures TellsOwn(Apply(c, s, t, m), u)
  {
    TasksAfter(c, s, t, m);
    RowsAfter(c, s, t, m);
    if u < |s.tasks| {
      assert TellsOwn(s, u) && TellsOwn(s, t);
      assert s.tasks[u].at.Noticing? ==> NoticeOk(s, s.tasks[u].at.notice);
    }
  }

  // ---------------------------------------------------------------------------
  // Cause: what a notice says is true of a total some grant recorded.
  // ---------------------------------------------------------------------------

  predicate Causes(c: Config, s: State, u: nat, n: Notice) {
    && u < |s.grants| && s.grants[u].key == n.key
    && if n.kind.Warn? then Crosses(c, s.grants[u]) else Fills(c, s.grants[u])
  }

  ghost predicate Caused(c: Config, s: State, n: Notice) { exists u :: Causes(c, s, u, n) }

  ghost predicate CauseOk(c: Config, s: State, t: TaskId)
    requires t < |s.tasks|
  {
    var task := s.tasks[t];
    && (task.at.Marking? ==> Caused(c, s, task.at.notice))
    && (task.at.Checked? && c.Metered(task.source) && task.at.consumed >= c.Allowance(task.source).limit ==>
          Caused(c, s, Notice(Stop, KeyAt(task, task.at.period))))
  }

  ghost predicate Causal(c: Config, s: State) {
    && (forall n :: Marked(s, n) ==> Caused(c, s, n))
    && (forall t :: 0 <= t < |s.tasks| ==> CauseOk(c, s, t))
  }

  /** What a grant says of its total never changes. */
  lemma GrantsKeepTotals(c: Config, s: State, t: TaskId, m: Move, u: nat)
    requires t < |s.tasks| && u < |s.grants|
    ensures var s' := Apply(c, s, t, m);
            && u < |s'.grants| && s'.grants[u].key == s.grants[u].key && s'.grants[u].recorded == s.grants[u].recorded
  {
    GrantsAfter(c, s, t, m);
  }

  lemma CauseStays(c: Config, s: State, t: TaskId, m: Move, n: Notice)
    requires t < |s.tasks| && Caused(c, s, n)
    ensures Caused(c, Apply(c, s, t, m), n)
  {
    var u :| Causes(c, s, u, n);
    GrantsKeepTotals(c, s, t, m, u);
    assert Causes(c, Apply(c, s, t, m), u, n);
  }

  /** The last of the first `n` grants of a key that was not given back: its total covers all of them. */
  lemma {:induction false} LastOpen(grants: seq<Grant>, n: nat, key: Stores.Key) returns (u: nat)
    requires n <= |grants| && CountGrants(grants, n, key, false) > 0
    ensures u < n && Counts(grants[u], key, false)
    ensures CountGrants(grants, u + 1, key, false) == CountGrants(grants, n, key, false)
  {
    if Counts(grants[n - 1], key, false) {
      u := n - 1;
    } else {
      u := LastOpen(grants, n - 1, key);
    }
  }

  /** Some grant not given back recorded a total at least the counter as it stands. */
  lemma CounterIsRecorded(c: Config, s: State, key: Stores.Key) returns (u: nat)
    requires Totals(c, s) && Stores.View(s.rows, key).consumed > 0
    ensures u < |s.grants| && Counts(s.grants[u], key, false)
    ensures s.grants[u].recorded >= Stores.View(s.rows, key).consumed
  {
    assert TotalOk(c, s, key);
    u := LastOpen(s.grants, |s.grants|, key);
    assert RecordedOk(c, s, u);
  }

  lemma CausalKept(c: Config, s: State, t: TaskId, m: Move)
    requires c.Valid() && t < |s.tasks| && Totals(c, s) && Causal(c, s)
    requires SameCall(s.tasks[t], m.next) && LocalUnit(c, s, s.tasks[t], m) && LocalNotice(c, s, s.tasks[t], m)
    ensures Causal(c, Apply(c, s, t, m))
  {
    var s' := Apply(c, s, t, m);
    TasksAfter(c, s, t, m);
    forall n | Marked(s', n) ensures Caused(c, s', n) {
      MarksAfter(c, s, t, m, n);
      assert CauseOk(c, s, t);
      CauseStays(c, s, t, m, n);
    }
    forall u | 0 <= u < |s'.tasks| ensures CauseOk(c, s', u) {
      if u == t {
        ActorCauseKept(c, s, t, m);
      } else if u < |s.tasks| {
        assert CauseOk(c, s, u);
        OtherCauseKept(c, s, t, m, u);
      }
    }
  }

  lemma OtherCauseKept(c: Config, s: State, t: TaskId, m: Move, u: TaskId)
    requires t < |s.tasks| && u < |s.tasks| && u != t && CauseOk(c, s, u)
    ensures u < |Apply(c, s, t, m).tasks| && CauseOk(c, Apply(c, s, t, m), u)
  {
    TasksAfter(c, s, t, m);
    var p := s.tasks[u].at;
    if p.Marking? {
      CauseStays(c, s, t, m, p.notice);
    }
    if p.Checked? {
      var n := Notice(Stop, KeyAt(s.tasks[u], p.period));
      if Caused(c, s, n) {
        CauseStays(c, s, t, m, n);
      }
    }
  }

  lemma ActorCauseKept(c: Config, s: State, t: TaskId, m: Move)
    requires c.Valid() && t < |s.tasks| && Totals(c, s) && CauseOk(c, s, t)
    requires SameCall(s.tasks[t], m.next) && LocalUnit(c, s, s.tasks[t], m) && LocalNotice(c, s, s.tasks[t], m)
    ensures t < |Apply(c, s, t, m).tasks| && CauseOk(c, Apply(c, s, t, m), t)
  {
    TasksAfter(c, s, t, m);
    if m.next.at.Checked? {
      CheckIsCaused(c, s, t, m);
    } else if m.next.at.Marking? {
      if m.next.at.next.ThenRefuse? {
        assert Caused(c, s, m.next.at.notice);
      } else {
        assert Causes(c, s, UnitAt(m.next.at).value, m.next.at.notice);
      }
      CauseStays(c, s, t, m, m.next.at.notice);
    }
  }

  lemma CheckIsCaused(c: Config, s: State, t: TaskId, m: Move)
    requires c.Valid() && t < |s.tasks| && Totals(c, s) && m.next.at.Checked?
    requires SameCall(s.tasks[t], m.next) && LocalUnit(c, s, s.tasks[t], m) && LocalNotice(c, s, s.tasks[t], m)
    ensures t < |Apply(c, s, t, m).tasks| && CauseOk(c, Apply(c, s, t, m), t)
  {
    TasksAfter(c, s, t, m);
    var task := m.next;
    if c.Metered(task.source) && task.at.consumed >= c.Allowance(task.source).limit {
      var n := Notice(Stop, KeyAt(task, task.at.period));
      var u := CounterIsRecorded(c, s, n.key);
      assert Causes(c, s, u, n);
      CauseStays(c, s, t, m, n);
    }
  }

  // ---------------------------------------------------------------------------
  // Duty: what a settled unit's total owed has been marked.
  // ---------------------------------------------------------------------------

  predicate WarnPaid(c: Config, s: State, g: Grant) { Crosses(c, g) ==> Marked(s, Notice(Warn, g.key)) }
  predicate StopPaid(c: Config, s: State, g: Grant) { Fills(c, g) ==> Marked(s, Notice(Stop, g.key)) }

  predicate GrantDuty(c: Config, s: State, u: nat)
    requires u < |s.grants|
  {
    s.grants[u].status.Settled? ==> WarnPaid(c, s, s.grants[u]) && StopPaid(c, s, s.grants[u])
  }

  predicate TaskDuty(c: Config, s: State, t: TaskId)
    requires t < |s.tasks|
  {
    var p := s.tasks[t].at;
    UnitAt(p).Some? && UnitAt(p).value < |s.grants| ==>
      var g := s.grants[UnitAt(p).value];
      && (Announcing(p) ==> p.notice.key == g.key && (p.next.ThenSettled? ==> WarnPaid(c, s, g)))
      && (p.Settled? ==> WarnPaid(c, s, g) && StopPaid(c, s, g))
  }

  ghost predicate Duties(c: Config, s: State) {
    && (forall u :: 0 <= u < |s.grants| ==> GrantDuty(c, s, u))
    && (forall t :: 0 <= t < |s.tasks| ==> TaskDuty(c, s, t))
  }

  lemma DutiesKept(c: Config, s: State, t: TaskId, m: Move)
    requires t < |s.tasks| && Shapes(c, s) && Units(c, s) && Notices(s) && Duties(c, s)
    requires LocalUnit(c, s, s.tasks[t], m) && LocalNotice(c, s, s.tasks[t], m)
    ensures Duties(c, Apply(c, s, t, m))
  {
    var s' := Apply(c, s, t, m);
    TasksAfter(c, s, t, m);
    assert UnitOk(s, t) && TaskDuty(c, s, t);
    forall u | 0 <= u < |s'.grants| ensures GrantDuty(c, s', u) {
      if u < |s.grants| {
        assert GrantDuty(c, s, u);
      }
      GrantDutyKept(c, s, t, m, u);
    }
    forall u | 0 <= u < |s'.tasks| ensures TaskDuty(c, s', u) {
      if u == t {
        assert TellsOwn(s, t) && Shape(c, s.tasks[t]);
        assert Announcing(s.tasks[t].at) ==> NoticeOk(s, s.tasks[t].at.notice);
        assert UnitAt(s.tasks[t].at).Some? ==> GrantOk(c, s, UnitAt(s.tasks[t].at).value);
        ActorDutyKept(c, s, t, m);
      } else if u < |s.tasks| {
        assert TaskDuty(c, s, u) && UnitOk(s, u);
        OtherDutyKept(c, s, t, m, u);
      }
    }
  }

  /** Marks stay, so what was paid stays paid. */
  lemma PaidStays(c: Config, s: State, t: TaskId, m: Move, g: Grant)
    requires t < |s.tasks|
    ensures var s' := Apply(c, s, t, m);
            && (WarnPaid(c, s, g) ==> WarnPaid(c, s', g)) && (StopPaid(c, s, g) ==> StopPaid(c, s', g))
  {
    MarksAfter(c, s, t, m, Notice(Warn, g.key));
    MarksAfter(c, s, t, m, Notice(Stop, g.key));
  }

  lemma GrantDutyKept(c: Config, s: State, t: TaskId, m: Move, u: nat)
    requires t < |s.tasks| && UnitOk(s, t) && TaskDuty(c, s, t) && LocalUnit(c, s, s.tasks[t], m)
    requires u < |s.grants| ==> GrantDuty(c, s, u)
    requires u < |Apply(c, s, t, m).grants|
    ensures GrantDuty(c, Apply(c, s, t, m), u)
  {
    GrantsAfter(c, s, t, m);
    if u < |s.grants| {
      PaidStays(c, s, t, m, s.grants[u]);
      GrantsKeepTotals(c, s, t, m, u);
    }
  }

  lemma OtherDutyKept(c: Config, s: State, t: TaskId, m: Move, u: TaskId)
    requires t < |s.tasks| && u < |s.tasks| && u != t && TaskDuty(c, s, u) && UnitOk(s, u)
    ensures u < |Apply(c, s, t, m).tasks| && TaskDuty(c, Apply(c, s, t, m), u)
  {
    TasksAfter(c, s, t, m);
    var unit := UnitAt(s.tasks[u].at);
    if unit.Some? {
      PaidStays(c, s, t, m, s.grants[unit.value]);
      GrantsKeepTotals(c, s, t, m, unit.value);
    }
  }

  /** A mark statement leaves the mark set, by this call or an earlier one: the row is there, for it holds the unit. */
  lemma MarkingMarks(c: Config, s: State, t: TaskId, m: Move)
    requires t < |s.tasks| && m.effect.Marks? && m.effect.notice.key in s.rows
    ensures Marked(Apply(c, s, t, m), m.effect.notice)
  {
    MarksAfter(c, s, t, m, m.effect.notice);
  }

  lemma ActorDutyKept(c: Config, s: State, t: TaskId, m: Move)
    requires t < |s.tasks| && Shape(c, s.tasks[t]) && UnitOk(s, t) && TaskDuty(c, s, t) && TellsOwn(s, t)
    requires Announcing(s.tasks[t].at) ==> NoticeOk(s, s.tasks[t].at.notice)
    requires UnitAt(s.tasks[t].at).Some? ==> GrantOk(c, s, UnitAt(s.tasks[t].at).value)
    requires LocalUnit(c, s, s.tasks[t], m) && LocalNotice(c, s, s.tasks[t], m)
    ensures t < |Apply(c, s, t, m).tasks| && TaskDuty(c, Apply(c, s, t, m), t)
  {
    TasksAfter(c, s, t, m);
    var task := s.tasks[t];
    var unit := UnitAt(task.at);
    if unit.Some? {
      PaidStays(c, s, t, m, s.grants[unit.value]);
      GrantsKeepTotals(c, s, t, m, unit.value);
      if task.at.Marking? {
        MarkingMarks(c, s, t, m);
      } else if task.at.Noticing? {
        MarksAfter(c, s, t, m, task.at.notice);
      }
      ActorDutyCarried(c, s, t, m);
    }
  }

  /** The cases of the actor, once what it has just marked is known. */
  lemma ActorDutyCarried(c: Config, s: State, t: TaskId, m: Move)
    requires t < |s.tasks| && Shape(c, s.tasks[t]) && UnitOk(s, t) && TaskDuty(c, s, t) && UnitAt(s.tasks[t].at).Some?
    requires LocalUnit(c, s, s.tasks[t], m) && LocalNotice(c, s, s.tasks[t], m)
    requires var s' := Apply(c, s, t, m);
             var g := s.grants[UnitAt(s.tasks[t].at).value];
             && UnitAt(s.tasks[t].at).value < |s'.grants|
             && s'.grants[UnitAt(s.tasks[t].at).value].key == g.key
             && s'.grants[UnitAt(s.tasks[t].at).value].recorded == g.recorded
             && (Announcing(s.tasks[t].at) ==> Marked(s', s.tasks[t].at.notice))
             && (WarnPaid(c, s, g) ==> WarnPaid(c, s', g)) && (StopPaid(c, s, g) ==> StopPaid(c, s', g))
    ensures t < |Apply(c, s, t, m).tasks| && TaskDuty(c, Apply(c, s, t, m), t)
  {
    TasksAfter(c, s, t, m);
  }

  // ---------------------------------------------------------------------------
  // Exactly once.
  // ---------------------------------------------------------------------------

  /** Every unit of this key has been settled or given back, and no notice about it is being told. */
  ghost predicate Quiet(s: State, key: Stores.Key) {
    && (forall u :: 0 <= u < |s.grants| && s.grants[u].key == key ==> s.grants[u].status.Settled? || s.grants[u].status.GivenBack?)
    && (forall t :: 0 <= t < |s.tasks| && s.tasks[t].at.Noticing? ==> s.tasks[t].at.notice.key != key)
  }

  /** A marked notice nobody is in the middle of telling has been told exactly once. */
  lemma MarkedIsTold(s: State, n: Notice)
    requires Notices(s) && Quiet(s, n.key) && Marked(s, n)
    ensures s.notices[n] == 1
  {
    assert NoticeOk(s, n);
  }

  /**
   EXACTLY ONCE: with every unit of a period dealt with, in whatever order, the
   warning has been told once if the counter crosses the fraction, and the stop
   once if it stands at the limit; the last unit not given back recorded as much.
   */
  lemma QuietMeansTold(c: Config, s: State, key: Stores.Key)
    requires c.Valid() && c.Metered(key.source)
    requires Totals(c, s) && Notices(s) && Duties(c, s) && Quiet(s, key)
    ensures var a := c.sources[key.source].allowance.value;
            var consumed := Stores.View(s.rows, key).consumed;
            && (consumed as real >= a.warnFraction * a.limit as real ==> s.notices[Notice(Warn, key)] == 1)
            && (consumed == a.limit ==> s.notices[Notice(Stop, key)] == 1)
  {
    var a := c.Allowance(key.source);
    var consumed := Stores.View(s.rows, key).consumed;
    CrossesWarnIff(a, consumed);
    assert TotalOk(c, s, key);
    if consumed > 0 {
      var u := CounterIsRecorded(c, s, key);
      assert GrantDuty(c, s, u);
      if CrossesWarn(a, consumed) {
        MoreCrossesToo(a, consumed, s.grants[u].recorded);
        MarkedIsTold(s, Notice(Warn, key));
      }
      if consumed == a.limit {
        MarkedIsTold(s, Notice(Stop, key));
      }
    } else {
      NothingCrossesNothing(a, consumed);
    }
  }

  /** The fraction, multiplied out. */
  lemma CrossesWarnIff(a: AllowanceSettings, consumed: int)
    requires a.limit >= 1
    ensures CrossesWarn(a, consumed) <==> consumed as real >= a.warnFraction * a.limit as real
  {
    var q, d := consumed as real / a.limit as real, a.limit as real;
    assert q * d == consumed as real;
    if q >= a.warnFraction {
      assert q * d >= a.warnFraction * d;
    } else {
      assert q * d < a.warnFraction * d;
    }
  }

  lemma MoreCrossesToo(a: AllowanceSettings, less: int, more: int)
    requires less <= more && CrossesWarn(a, less)
    ensures CrossesWarn(a, more)
  {
    var d := a.limit as real;
    assert more as real / d - less as real / d == (more - less) as real / d;
  }

  lemma NothingCrossesNothing(a: AllowanceSettings, consumed: int)
    requires consumed <= 0 && a.limit >= 1 && a.warnFraction > 0.0
    ensures !CrossesWarn(a, consumed)
  {
    assert consumed as real / a.limit as real <= 0.0;
  }
}
