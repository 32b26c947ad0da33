/**
 The allowance, in every reachable state: every unit from its grant to what became of
 it, the departure each one backs, and the counter of each source and period as the
 units still open. Conservation, and most of what is said about notices, is read off
 these invariants; `GovernorMoves` says which moves touch a unit, and how.
 */
module GovernorLedger {
  import opened Prelude
  import opened Governor
  import opened GovernorMoves
  import opened GovernorTables
  import Stores = AllowanceStores

  /** What leaves the grants and the departures alone. */
  lemma GrantsAfter(c: Config, s: State, t: TaskId, m: Move)
    requires t < |s.tasks|
    ensures var s' := Apply(c, s, t, m);
            && (m.effect.Reserves? || m.effect.Departs? || m.effect.Returns? || m.effect.Finishes? || s'.grants == s.grants)
            && (m.effect.Departs? || m.effect.Hears? || s'.wire == s.wire)
  {
  }

  /** What leaves the store and the notices alone. */
  lemma RowsAfter(c: Config, s: State, t: TaskId, m: Move)
    requires t < |s.tasks|
    ensures var s' := Apply(c, s, t, m);
            && (m.effect.Reserves? || m.effect.FailsToReserve? || m.effect.Returns? || m.effect.Marks? || s'.rows == s.rows)
            && (m.effect.Marks? || s'.marker == s.marker)
            && (m.effect.Notifies? || s'.notices == s.notices)
  {
  }

  // ---------------------------------------------------------------------------
  // Every unit, from its grant to what became of it.
  // ---------------------------------------------------------------------------

  /** A task's unit is granted, its own, and pending or sent as the task's point says. */
  predicate UnitOk(s: State, t: TaskId)
    requires t < |s.tasks|
  {
    var task := s.tasks[t];
    UnitAt(task.at).Some? ==>
      var unit := UnitAt(task.at).value;
      && unit < |s.grants|
      && s.grants[unit].owner == t && s.grants[unit].key.source == task.source
      && s.grants[unit].status == if PendingAt(task.at) then Pending else Sent
  }

  /** A grant that is pending or sent is in its owner's hands; one that left, and only one that left, backs a departure. */
  predicate GrantOk(c: Config, s: State, unit: nat)
    requires unit < |s.grants|
  {
    var g := s.grants[unit];
    && g.owner < |s.tasks| && g.key in s.rows && c.Metered(g.key.source)
    && Aligned(g.key.periodStart, c.Allowance(g.key.source).periodMs)
    && (g.status.Pending? || g.status.Sent? ==>
          UnitAt(s.tasks[g.owner].at) == Some(unit) && (PendingAt(s.tasks[g.owner].at) <==> g.status.Pending?))
    && (g.sentAs.Some? <==> g.status.Sent? || g.status.Settled?)
    && (g.sentAs.Some? ==>
          && g.sentAs.value < |s.wire| && s.wire[g.sentAs.value].unit == Some(unit)
          && s.wire[g.sentAs.value].task == g.owner)
  }

  /** A departure of a metered source, and only of one, is backed by a unit, and no two by the same. */
  predicate DepartureOk(c: Config, s: State, i: nat)
    requires i < |s.wire|
  {
    var d := s.wire[i];
    && (d.unit.Some? <==> c.Metered(d.source)) && (d.key.Some? <==> d.unit.Some?)
    && (d.unit.Some? ==>
          && d.unit.value < |s.grants| && s.grants[d.unit.value].sentAs == Some(i)
          && d.key == Some(s.grants[d.unit.value].key) && d.key.value.source == d.source)
  }

  ghost predicate Units(c: Config, s: State) {
    && (forall t :: 0 <= t < |s.tasks| ==> UnitOk(s, t))
    && (forall u :: 0 <= u < |s.grants| ==> GrantOk(c, s, u))
    && (forall i :: 0 <= i < |s.wire| ==> DepartureOk(c, s, i))
  }

  lemma UnitsOwn(c: Config, s: State, t: TaskId)
    requires t < |s.tasks| && Units(c, s)
    ensures OwnUnit(s, s.tasks[t])
  {
    assert UnitOk(s, t);
  }

  lemma UnitsKept(c: Config, s: State, t: TaskId, m: Move)
    requires t < |s.tasks| && Shapes(c, s) && Units(c, s) && Local(c, s, t, s.tasks[t], m)
    ensures Units(c, Apply(c, s, t, m))
  {
    var s' := Apply(c, s, t, m);
    forall u | 0 <= u < |s'.tasks| ensures UnitOk(s', u) {
      UnitKept(c, s, t, m, u);
    }
    forall u | 0 <= u < |s'.grants| ensures GrantOk(c, s', u) {
      GrantKept(c, s, t, m, u);
    }
    forall i | 0 <= i < |s'.wire| ensures DepartureOk(c, s', i) {
      DepartureKept(c, s, t, m, i);
    }
  }

  lemma UnitKept(c: Config, s: State, t: TaskId, m: Move, u: TaskId)
    requires t < |s.tasks| && Shapes(c, s) && Units(c, s) && SameCall(s.tasks[t], m.next) && LocalUnit(c, s, s.tasks[t], m)
    requires u < |Apply(c, s, t, m).tasks|
    ensures UnitOk(Apply(c, s, t, m), u)
  {
    TasksAfter(c, s, t, m);
    assert UnitOk(s, t);
    if u == t {
      ActorUnitKept(c, s, t, m);
    } else if u < |s.tasks| {
      assert UnitOk(s, u);
      OtherUnitKept(c, s, t, m, u);
    }
  }

  lemma ActorUnitKept(c: Config, s: State, t: TaskId, m: Move)
    requires t < |s.tasks| && UnitOk(s, t) && SameCall(s.tasks[t], m.next) && LocalUnit(c, s, s.tasks[t], m)
    ensures t < |Apply(c, s, t, m).tasks| && UnitOk(Apply(c, s, t, m), t)
  {
    TasksAfter(c, s, t, m);
    GrantsAfter(c, s, t, m);
  }

  lemma OtherUnitKept(c: Config, s: State, t: TaskId, m: Move, u: TaskId)
    requires t < |s.tasks| && UnitOk(s, t) && LocalUnit(c, s, s.tasks[t], m)
    requires u < |s.tasks| && u != t && UnitOk(s, u)
    ensures u < |Apply(c, s, t, m).tasks| && UnitOk(Apply(c, s, t, m), u)
  {
    TasksAfter(c, s, t, m);
    GrantsAfter(c, s, t, m);
  }

  lemma GrantKept(c: Config, s: State, t: TaskId, m: Move, u: nat)
    requires t < |s.tasks| && Units(c, s) && SameCall(s.tasks[t], m.next) && LocalUnit(c, s, s.tasks[t], m)
    requires u < |Apply(c, s, t, m).grants|
    ensures GrantOk(c, Apply(c, s, t, m), u)
  {
    GrantsAfter(c, s, t, m);
    if m.effect.Reserves? {
      GrantTaken(c, s, t, m, u);
    } else if m.effect.Departs? {
      GrantDeparts(c, s, t, m, u);
    } else if m.effect.Returns? || m.effect.Finishes? {
      GrantEnds(c, s, t, m, u);
    } else {
      GrantStays(c, s, t, m, u);
    }
  }

  lemma GrantTaken(c: Config, s: State, t: TaskId, m: Move, u: nat)
    requires t < |s.tasks| && Units(c, s) && SameCall(s.tasks[t], m.next) && LocalUnit(c, s, s.tasks[t], m)
    requires u < |Apply(c, s, t, m).grants|
    requires m.effect.Reserves?
    ensures GrantOk(c, Apply(c, s, t, m), u)
  {
    TasksAfter(c, s, t, m);
    assert UnitOk(s, t);
    if u < |s.grants| {
      assert GrantOk(c, s, u);
    }
  }

  lemma GrantDeparts(c: Config, s: State, t: TaskId, m: Move, u: nat)
    requires t < |s.tasks| && Units(c, s) && SameCall(s.tasks[t], m.next) && LocalUnit(c, s, s.tasks[t], m)
    requires u < |Apply(c, s, t, m).grants|
    requires m.effect.Departs?
    ensures GrantOk(c, Apply(c, s, t, m), u)
  {
    TasksAfter(c, s, t, m);
    assert UnitOk(s, t);
    if u < |s.grants| {
      assert GrantOk(c, s, u);
    }
  }

  lemma GrantEnds(c: Config, s: State, t: TaskId, m: Move, u: nat)
    requires t < |s.tasks| && Units(c, s) && SameCall(s.tasks[t], m.next) && LocalUnit(c, s, s.tasks[t], m)
    requires u < |Apply(c, s, t, m).grants|
    requires m.effect.Returns? || m.effect.Finishes?
    ensures GrantOk(c, Apply(c, s, t, m), u)
  {
    TasksAfter(c, s, t, m);
    assert UnitOk(s, t);
    if u < |s.grants| {
      assert GrantOk(c, s, u);
    }
  }

  lemma GrantStays(c: Config, s: State, t: TaskId, m: Move, u: nat)
    requires t < |s.tasks| && Units(c, s) && SameCall(s.tasks[t], m.next) && LocalUnit(c, s, s.tasks[t], m)
    requires u < |s.grants| && Apply(c, s, t, m).grants == s.grants
    requires !m.effect.Reserves? && !m.effect.Departs? && !m.effect.Returns? && !m.effect.Finishes?
    ensures GrantOk(c, Apply(c, s, t, m), u)
  {
    TasksAfter(c, s, t, m);
    GrantsAfter(c, s, t, m);
    RowsAfter(c, s, t, m);
    assert UnitOk(s, t) && GrantOk(c, s, u);
  }

  lemma DepartureKept(c: Config, s: State, t: TaskId, m: Move, i: nat)
    requires t < |s.tasks| && Shapes(c, s) && Units(c, s) && SameCall(s.tasks[t], m.next) && LocalUnit(c, s, s.tasks[t], m)
    requires i < |Apply(c, s, t, m).wire|
    ensures DepartureOk(c, Apply(c, s, t, m), i)
  {
    GrantsAfter(c, s, t, m);
    assert UnitOk(s, t) && Shape(c, s.tasks[t]);
    if i < |s.wire| {
      assert DepartureOk(c, s, i);
      assert s.wire[i].unit.Some? ==> GrantOk(c, s, s.wire[i].unit.value);
      EarlierDepartureKept(c, s, t, m, i);
    } else {
      NewDepartureKept(c, s, t, m);
    }
  }

  lemma EarlierDepartureKept(c: Config, s: State, t: TaskId, m: Move, i: nat)
    requires t < |s.tasks| && UnitOk(s, t) && LocalUnit(c, s, s.tasks[t], m)
    requires i < |s.wire| && DepartureOk(c, s, i)
    requires s.wire[i].unit.Some? ==> GrantOk(c, s, s.wire[i].unit.value)
    ensures i < |Apply(c, s, t, m).wire| && DepartureOk(c, Apply(c, s, t, m), i)
  {
    GrantsAfter(c, s, t, m);
  }

  lemma NewDepartureKept(c: Config, s: State, t: TaskId, m: Move)
    requires t < |s.tasks| && UnitOk(s, t) && Shape(c, s.tasks[t]) && m.effect.Departs?
    requires SameCall(s.tasks[t], m.next) && LocalUnit(c, s, s.tasks[t], m)
    ensures |s.wire| < |Apply(c, s, t, m).wire| && DepartureOk(c, Apply(c, s, t, m), |s.wire|)
  {
  }

  // ---------------------------------------------------------------------------
  // The counter.
  // ---------------------------------------------------------------------------

  /** Does this grant count for `key`: while still pending, or as long as it has not been given back? */
  predicate Counts(g: Grant, key: Stores.Key, pendingOnly: bool) {
    g.key == key && if pendingOnly then g.status.Pending? else !g.status.GivenBack?
  }

  function CountGrants(grants: seq<Grant>, n: nat, key: Stores.Key, pendingOnly: bool): nat
    requires n <= |grants|
  {
    if n == 0 then 0 else CountGrants(grants, n - 1, key, pendingOnly) + if Counts(grants[n - 1], key, pendingOnly) then 1 else 0
  }

  /** How many requests left backed by a unit of `key`. */
  function CountLeft(wire: seq<Departure>, n: nat, key: Stores.Key): nat
    requires n <= |wire|
  {
    if n == 0 then 0 else CountLeft(wire, n - 1, key) + if wire[n - 1].key == Some(key) then 1 else 0
  }

  /** These count what they say: the departures on a unit of the period, and its units still pending. */
  lemma {:induction false} DeparturesAreCounted(wire: seq<Departure>, key: Stores.Key)
    ensures CountLeft(wire, |wire|, key) == |set k: nat | k < |wire| && wire[k].key == Some(key)|
  {
    var left := (k: nat) => k < |wire| && wire[k].key == Some(key);
    CountIsCardinality((k: nat) => if k <= |wire| then CountLeft(wire, k, key) else 0, left, |wire|);
    assert (set k: nat | k < |wire| && left(k)) == set k: nat | k < |wire| && wire[k].key == Some(key);
  }

  lemma {:induction false} PendingUnitsAreCounted(grants: seq<Grant>, key: Stores.Key)
    ensures CountGrants(grants, |grants|, key, true) == |set u: nat | u < |grants| && grants[u].key == key && grants[u].status == Pending|
  {
    var pending := (u: nat) => u < |grants| && grants[u].key == key && grants[u].status == Pending;
    CountIsCardinality((k: nat) => if k <= |grants| then CountGrants(grants, k, key, true) else 0, pending, |grants|);
    assert (set u: nat | u < |grants| && pending(u)) == set u: nat | u < |grants| && grants[u].key == key && grants[u].status == Pending;
  }

  function Weight(g: Grant, key: Stores.Key, pendingOnly: bool): int { if Counts(g, key, pendingOnly) then 1 else 0 }

  lemma {:induction false} CountAfterChange(grants: seq<Grant>, u: nat, g: Grant, n: nat, key: Stores.Key, pendingOnly: bool)
    requires u < |grants| && n <= |grants|
    ensures CountGrants(grants[u := g], n, key, pendingOnly) ==
            CountGrants(grants, n, key, pendingOnly) +
            if u < n then Weight(g, key, pendingOnly) - Weight(grants[u], key, pendingOnly) else 0
  {
    if n > 0 {
      CountAfterChange(grants, u, g, n - 1, key, pendingOnly);
    }
  }

  lemma {:induction false} CountAfterPush(grants: seq<Grant>, g: Grant, n: nat, key: Stores.Key, pendingOnly: bool)
    requires n <= |grants|
    ensures CountGrants(grants + [g], n, key, pendingOnly) == CountGrants(grants, n, key, pendingOnly)
  {
    if n > 0 {
      CountAfterPush(grants, g, n - 1, key, pendingOnly);
    }
  }

  lemma {:induction false} CountLeftAlike(a: seq<Departure>, b: seq<Departure>, n: nat, key: Stores.Key)
    requires n <= |a| && n <= |b| && forall i :: 0 <= i < n ==> a[i].key == b[i].key
    ensures CountLeft(a, n, key) == CountLeft(b, n, key)
  {
    if n > 0 {
      CountLeftAlike(a, b, n - 1, key);
    }
  }

  lemma {:induction false} CountIsPositive(grants: seq<Grant>, u: nat, n: nat, key: Stores.Key, pendingOnly: bool)
    requires u < n <= |grants| && Counts(grants[u], key, pendingOnly)
    ensures CountGrants(grants, n, key, pendingOnly) >= 1
    decreases n
  {
    if u < n - 1 {
      CountIsPositive(grants, u, n - 1, key, pendingOnly);
    }
  }

  function OpenOf(s: State, key: Stores.Key): nat { CountGrants(s.grants, |s.grants|, key, false) }
  function PendingOf(s: State, key: Stores.Key): nat { CountGrants(s.grants, |s.grants|, key, true) }
  function LeftOf(s: State, key: Stores.Key): nat { CountLeft(s.wire, |s.wire|, key) }

  /** The counter is what left plus what is pending, and never above the limit. */
  predicate TotalOk(c: Config, s: State, key: Stores.Key) {
    && Stores.View(s.rows, key).consumed == OpenOf(s, key) == PendingOf(s, key) + LeftOf(s, key)
    && (c.Metered(key.source) ==> OpenOf(s, key) <= c.Allowance(key.source).limit)
  }

  /** The total a grant was answered with still covers every unit up to it that was not given back. */
  predicate RecordedOk(c: Config, s: State, u: nat)
    requires u < |s.grants|
  {
    var g := s.grants[u];
    && (c.Metered(g.key.source) ==> g.recorded <= c.Allowance(g.key.source).limit)
    && (!g.status.GivenBack? ==> g.recorded >= CountGrants(s.grants, u + 1, g.key, false))
  }

  ghost predicate Totals(c: Config, s: State) {
    && (forall key :: TotalOk(c, s, key))
    && (forall u :: 0 <= u < |s.grants| ==> RecordedOk(c, s, u))
  }

  lemma TotalsKept(c: Config, s: State, t: TaskId, m: Move)
    requires c.Valid() && t < |s.tasks| && Units(c, s) && Totals(c, s) && LocalUnit(c, s, s.tasks[t], m)
    ensures Totals(c, Apply(c, s, t, m))
  {
    var s' := Apply(c, s, t, m);
    GrantsAfter(c, s, t, m);
    forall key ensures TotalOk(c, s', key) {
      TotalKept(c, s, t, m, key);
    }
    forall u | 0 <= u < |s'.grants| ensures RecordedOk(c, s', u) {
      RecordedKept(c, s, t, m, u);
    }
  }

  lemma TotalKept(c: Config, s: State, t: TaskId, m: Move, key: Stores.Key)
    requires c.Valid() && t < |s.tasks| && Units(c, s) && Totals(c, s) && LocalUnit(c, s, s.tasks[t], m)
    ensures TotalOk(c, Apply(c, s, t, m), key)
  {
    assert UnitOk(s, t) && TotalOk(c, s, key);
    if m.effect.Reserves? {
      TotalReserved(c, s, t, m, key);
    } else if m.effect.FailsToReserve? || m.effect.Marks? {
      TotalRefused(c, s, t, m, key);
    } else if m.effect.Departs? {
      TotalDeparted(c, s, t, m, key);
    } else if m.effect.Returns? {
      assert GrantOk(c, s, m.effect.back);
      TotalReturned(c, s, t, m, key);
    } else if m.effect.Finishes? {
      TotalFinished(c, s, t, m, key);
    } else {
      TotalStays(c, s, t, m, key);
    }
  }

  lemma TotalReserved(c: Config, s: State, t: TaskId, m: Move, key: Stores.Key)
    requires t < |s.tasks| && TotalOk(c, s, key) && LocalUnit(c, s, s.tasks[t], m) && m.effect.Reserves?
    requires c.Valid()
    ensures TotalOk(c, Apply(c, s, t, m), key)
  {
    var s' := Apply(c, s, t, m);
    CountAfterPush(s.grants, s'.grants[|s.grants|], |s.grants|, key, false);
    CountAfterPush(s.grants, s'.grants[|s.grants|], |s.grants|, key, true);
    assert s'.wire == s.wire;
  }

  lemma TotalRefused(c: Config, s: State, t: TaskId, m: Move, key: Stores.Key)
    requires t < |s.tasks| && TotalOk(c, s, key) && LocalUnit(c, s, s.tasks[t], m)
    requires m.effect.FailsToReserve? || m.effect.Marks?
    ensures TotalOk(c, Apply(c, s, t, m), key)
  {
    var s' := Apply(c, s, t, m);
    assert s'.wire == s.wire && s'.grants == s.grants;
  }

  lemma TotalDeparted(c: Config, s: State, t: TaskId, m: Move, key: Stores.Key)
    requires t < |s.tasks| && UnitOk(s, t) && TotalOk(c, s, key) && LocalUnit(c, s, s.tasks[t], m) && m.effect.Departs?
    ensures TotalOk(c, Apply(c, s, t, m), key)
  {
    var s' := Apply(c, s, t, m);
    assert s'.rows == s.rows;
    OneMoreLeft(c, s, t, m, key);
    OneLessPending(c, s, t, m, key);
  }

  lemma OneMoreLeft(c: Config, s: State, t: TaskId, m: Move, key: Stores.Key)
    requires t < |s.tasks| && UnitOk(s, t) && LocalUnit(c, s, s.tasks[t], m) && m.effect.Departs?
    ensures var unit := m.effect.unit;
            && (unit.Some? ==> unit.value < |s.grants|)
            && LeftOf(Apply(c, s, t, m), key) == LeftOf(s, key) + if unit.Some? && s.grants[unit.value].key == key then 1 else 0
  {
    CountLeftAlike(Apply(c, s, t, m).wire, s.wire, |s.wire|, key);
  }

  lemma OneLessPending(c: Config, s: State, t: TaskId, m: Move, key: Stores.Key)
    requires t < |s.tasks| && UnitOk(s, t) && LocalUnit(c, s, s.tasks[t], m) && m.effect.Departs?
    ensures var unit := m.effect.unit;
            var s' := Apply(c, s, t, m);
            && (unit.Some? ==> unit.value < |s.grants|)
            && OpenOf(s', key) == OpenOf(s, key)
            && PendingOf(s', key) == PendingOf(s, key) - if unit.Some? && s.grants[unit.value].key == key then 1 else 0
  {
    var s' := Apply(c, s, t, m);
    if m.effect.unit.Some? {
      CountBothAfterChange(s, s', m.effect.unit.value, key);
    }
  }

  lemma TotalReturned(c: Config, s: State, t: TaskId, m: Move, key: Stores.Key)
    requires t < |s.tasks| && UnitOk(s, t) && TotalOk(c, s, key) && LocalUnit(c, s, s.tasks[t], m) && m.effect.Returns?
    requires UnitAt(s.tasks[t].at).Some? && s.grants[UnitAt(s.tasks[t].at).value].key in s.rows
    ensures TotalOk(c, Apply(c, s, t, m), key)
  {
    var s' := Apply(c, s, t, m);
    assert s'.wire == s.wire;
    CountBothAfterChange(s, s', m.effect.back, key);
    CountReturned(s, m.effect.back, key);
  }

  lemma TotalFinished(c: Config, s: State, t: TaskId, m: Move, key: Stores.Key)
    requires t < |s.tasks| && UnitOk(s, t) && TotalOk(c, s, key) && LocalUnit(c, s, s.tasks[t], m) && m.effect.Finishes?
    ensures TotalOk(c, Apply(c, s, t, m), key)
  {
    var s' := Apply(c, s, t, m);
    assert s'.wire == s.wire && s'.rows == s.rows;
    if m.effect.unit.Some? {
      CountBothAfterChange(s, s', m.effect.unit.value, key);
    }
  }

  lemma TotalStays(c: Config, s: State, t: TaskId, m: Move, key: Stores.Key)
    requires t < |s.tasks| && TotalOk(c, s, key)
    requires !m.effect.Reserves? && !m.effect.FailsToReserve? && !m.effect.Marks?
    requires !m.effect.Departs? && !m.effect.Returns? && !m.effect.Finishes?
    ensures TotalOk(c, Apply(c, s, t, m), key)
  {
    var s' := Apply(c, s, t, m);
    GrantsAfter(c, s, t, m);
    RowsAfter(c, s, t, m);
    if m.effect.Hears? {
      CountLeftAlike(s'.wire, s.wire, |s.wire|, key);
    }
  }

  lemma CountBothAfterChange(s: State, s': State, u: nat, key: Stores.Key)
    requires u < |s.grants| && |s'.grants| == |s.grants| && s'.grants == s.grants[u := s'.grants[u]]
    ensures forall pendingOnly :: CountGrants(s'.grants, |s'.grants|, key, pendingOnly) ==
              CountGrants(s.grants, |s.grants|, key, pendingOnly) +
              Weight(s'.grants[u], key, pendingOnly) - Weight(s.grants[u], key, pendingOnly)
  {
    CountAfterChange(s.grants, u, s'.grants[u], |s.grants|, key, false);
    CountAfterChange(s.grants, u, s'.grants[u], |s.grants|, key, true);
  }

  lemma CountReturned(s: State, back: nat, key: Stores.Key)
    requires back < |s.grants| && s.grants[back].status.Pending?
    ensures s.grants[back].key == key ==> OpenOf(s, key) >= 1
  {
    if s.grants[back].key == key {
      CountIsPositive(s.grants, back, |s.grants|, key, false);
    }
  }

  lemma RecordedKept(c: Config, s: State, t: TaskId, m: Move, u: nat)
    requires c.Valid() && t < |s.tasks| && Units(c, s) && Totals(c, s) && LocalUnit(c, s, s.tasks[t], m)
    requires u < |Apply(c, s, t, m).grants|
    ensures RecordedOk(c, Apply(c, s, t, m), u)
  {
    GrantsAfter(c, s, t, m);
    assert UnitOk(s, t);
    assert u < |s.grants| ==> RecordedOk(c, s, u);
    if m.effect.Reserves? {
      assert TotalOk(c, s, m.effect.key);
      RecordedReserved(c, s, t, m, u);
    } else if m.effect.Departs? || m.effect.Returns? || m.effect.Finishes? {
      RecordedChanged(c, s, t, m, u);
    }
  }

  lemma RecordedReserved(c: Config, s: State, t: TaskId, m: Move, u: nat)
    requires t < |s.tasks| && LocalUnit(c, s, s.tasks[t], m) && m.effect.Reserves?
    requires c.Valid() && TotalOk(c, s, m.effect.key) && (u < |s.grants| ==> RecordedOk(c, s, u))
    requires u <= |s.grants|
    ensures u < |Apply(c, s, t, m).grants| && RecordedOk(c, Apply(c, s, t, m), u)
  {
    var g := Apply(c, s, t, m).grants[|s.grants|];
    if u < |s.grants| {
      CountAfterPush(s.grants, g, u + 1, s.grants[u].key, false);
    } else {
      CountAfterPush(s.grants, g, u, g.key, false);
    }
  }

  lemma RecordedChanged(c: Config, s: State, t: TaskId, m: Move, u: nat)
    requires t < |s.tasks| && UnitOk(s, t) && LocalUnit(c, s, s.tasks[t], m) && u < |s.grants| && RecordedOk(c, s, u)
    requires m.effect.Departs? || m.effect.Returns? || m.effect.Finishes?
    ensures u < |Apply(c, s, t, m).grants| && RecordedOk(c, Apply(c, s, t, m), u)
  {
    var unit := UnitAt(s.tasks[t].at);
    OneGrantChanges(c, s, t, m);
    if unit.Some? {
      CountAfterChange(s.grants, unit.value, Apply(c, s, t, m).grants[unit.value], u + 1, s.grants[u].key, false);
    }
  }

  /** A unit that leaves, is given back or is settled changes in status alone, and no other changes; none comes back. */
  lemma OneGrantChanges(c: Config, s: State, t: TaskId, m: Move)
    requires t < |s.tasks| && UnitOk(s, t) && LocalUnit(c, s, s.tasks[t], m)
    requires m.effect.Departs? || m.effect.Returns? || m.effect.Finishes?
    ensures var s', unit := Apply(c, s, t, m), UnitAt(s.tasks[t].at);
            if unit == None then s'.grants == s.grants
            else && |s'.grants| == |s.grants| && s'.grants == s.grants[unit.value := s'.grants[unit.value]]
                 && s'.grants[unit.value].key == s.grants[unit.value].key
                 && s'.grants[unit.value].recorded == s.grants[unit.value].recorded
                 && !s.grants[unit.value].status.GivenBack?
  {
  }
}
