/** Per-host release accounting. */
module HostScheduling {
  // Per-host release accounting (packages/governor/src/host-scheduler.ts).
  //
  // The code keeps a PRUNED list of release instants. Everything stated here is
  // about the host's FULL history, which the class carries as a ghost field.

  import opened Prelude

  datatype HostCeiling = HostCeiling(maxRequests: nat, intervalMs: nat, minDelayMs: nat, jitterMs: nat)
  {
    /** What the configuration reader accepts: every bound is an integer of at least 1. */
    predicate Valid() {
      maxRequests >= 1 && intervalMs >= 1 && minDelayMs >= 1 && jitterMs >= 1
    }
  }

  datatype HostState = HostState(releases: seq<int>, lastRelease: Option<int>, holdUntil: int)

  const FRESH_HOST := HostState([], None, 0)

  datatype Release = Released(host: Host, at: int, delayMs: int, waitedMs: int)

  /** The instants of `rs` later than `bound`, in order. */
  function After(rs: seq<int>, bound: int): seq<int> {
    AfterAmong(rs, |rs|, bound)
  }

  function AfterAmong(rs: seq<int>, n: nat, bound: int): seq<int>
    requires n <= |rs|
  {
    if n == 0 then []
    else if rs[n - 1] > bound then AfterAmong(rs, n - 1, bound) + [rs[n - 1]]
    else AfterAmong(rs, n - 1, bound)
  }

  /** `#earliestRelease`: the instant the wait loop aims for. */
  function Earliest(st: HostState, c: HostCeiling, delayMs: int, offeredAt: int, now: int): int
    requires c.Valid()
  {
    var since := if st.lastRelease.Some? then st.lastRelease.value else offeredAt;
    var target := Max(now, since + delayMs);
    var inWindow := After(st.releases, now - c.intervalMs);
    var paced := if |inWindow| >= c.maxRequests
                 then Max(target, inWindow[|inWindow| - c.maxRequests] + c.intervalMs)
                 else target;
    Max(paced, st.holdUntil)
  }

  /** The release recorded and the list pruned, as `release` does once the wait is over. */
  function Granted(st: HostState, c: HostCeiling, at: int): HostState {
    st.(releases := After(st.releases + [at], at - c.intervalMs), lastRelease := Some(at))
  }

  /** `hold`: never shortens a hold already in place. */
  function Held(st: HostState, until: int): HostState {
    st.(holdUntil := Max(st.holdUntil, until))
  }

  // ---------------------------------------------------------------------------
  // The full history, and what it means for the pruned state to account for it.
  // ---------------------------------------------------------------------------

  ghost predicate Ascending(h: seq<int>) {
    forall i: nat, j: nat :: InOrder(h, i, j)
  }

  ghost predicate InOrder(h: seq<int>, i: nat, j: nat) {
    i <= j < |h| ==> h[i] <= h[j]
  }

  lemma AscendingSlice(h: seq<int>, a: nat, b: nat)
    requires Ascending(h) && a <= b <= |h|
    ensures Ascending(h[a..b])
  {
    forall i: nat, j: nat ensures InOrder(h[a..b], i, j) {
      assert InOrder(h, a + i, a + j);
    }
  }

  /** Consecutive releases at least `minDelayMs` apart; `maxRequests + 1` of them never inside `intervalMs`. */
  ghost predicate Paced(h: seq<int>, c: HostCeiling) {
    && (forall i: nat :: GapAt(h, i, 1, c.minDelayMs))
    && (forall i: nat :: GapAt(h, i, c.maxRequests, c.intervalMs))
  }

  ghost predicate GapAt(h: seq<int>, i: nat, n: nat, d: int) {
    i + n < |h| ==> h[i + n] - h[i] >= d
  }

  ghost predicate Accounts(st: HostState, h: seq<int>, c: HostCeiling, now: int) {
    && Ascending(h)
    && Paced(h, c)
    && Pruned(st, h, c)
    && (h != [] ==> h[|h| - 1] <= now)
  }

  /** The list is the history cut at the last release's window, and the last release is the history's last. */
  ghost predicate Pruned(st: HostState, h: seq<int>, c: HostCeiling) {
    if h == [] then st.releases == [] && st.lastRelease == None
    else st.lastRelease == Some(h[|h| - 1]) && st.releases == After(h, h[|h| - 1] - c.intervalMs)
  }

  /** How many instants of `h` fall in the half-open interval (lo, hi]. */
  function CountWithin(h: seq<int>, lo: int, hi: int): nat {
    CountAmong(h, |h|, lo, hi)
  }

  function CountAmong(h: seq<int>, n: nat, lo: int, hi: int): nat
    requires n <= |h|
  {
    if n == 0 then 0
    else CountAmong(h, n - 1, lo, hi) + if lo < h[n - 1] <= hi then 1 else 0
  }

  /** It counts what it says. */
  lemma {:induction false} ReleasesAreCounted(h: seq<int>, lo: int, hi: int)
    ensures CountWithin(h, lo, hi) == |set i: nat | i < |h| && lo < h[i] <= hi|
  {
    var within := (i: nat) => i < |h| && lo < h[i] <= hi;
    CountIsCardinality((k: nat) => if k <= |h| then CountAmong(h, k, lo, hi) else 0, within, |h|);
    assert (set i: nat | i < |h| && within(i)) == set i: nat | i < |h| && lo < h[i] <= hi;
  }

  /** The three independent conditions of a release, over the full history. */
  ghost predicate Permitted(h: seq<int>, holdUntil: int, c: HostCeiling, delayMs: int, offeredAt: int, t: int) {
    && t >= (if h == [] then offeredAt else h[|h| - 1]) + delayMs
    && t >= holdUntil
    && CountWithin(h, t - c.intervalMs, t) < c.maxRequests
  }

  /** `k` separates the instants of `h` at or before `bound` from those after it. */
  ghost predicate CutsAt(h: seq<int>, bound: int, k: nat) {
    && k <= |h|
    && (forall i :: 0 <= i < k ==> h[i] <= bound)
    && (forall i :: k <= i < |h| ==> h[i] > bound)
  }

  lemma CutSays(h: seq<int>, bound: int, k: nat, i: int)
    requires CutsAt(h, bound, k)
    ensures 0 <= i < |h| ==> (h[i] > bound <==> i >= k)
  {
  }

  lemma SliceSays(h: seq<int>, k: nat, i: int)
    ensures k <= i < |h| ==> h[k..][i - k] == h[i]
  {
  }

  lemma CutIsUnique(h: seq<int>, bound: int, a: nat, b: nat)
    requires CutsAt(h, bound, a) && CutsAt(h, bound, b)
    ensures a == b
  {
    CutSays(h, bound, a, a);
    CutSays(h, bound, a, b);
    CutSays(h, bound, b, a);
    CutSays(h, bound, b, b);
  }

  /** On an ascending list `After` is a suffix. */
  lemma AfterIsSuffix(h: seq<int>, bound: int) returns (k: nat)
    requires Ascending(h)
    ensures CutsAt(h, bound, k) && After(h, bound) == h[k..]
  {
    k := AfterAmongIsSlice(h, |h|, bound);
  }

  lemma {:induction false} AfterAmongIsSlice(h: seq<int>, n: nat, bound: int) returns (k: nat)
    requires Ascending(h) && n <= |h|
    ensures k <= n && AfterAmong(h, n, bound) == h[k..n]
    ensures forall i :: 0 <= i < k ==> h[i] <= bound
    ensures forall i :: k <= i < n ==> h[i] > bound
  {
    if n == 0 {
      k := 0;
    } else {
      k := AfterAmongIsSlice(h, n - 1, bound);
      assert InOrder(h, k, n - 1);
      if h[n - 1] <= bound {
        k := n;
      }
    }
  }

  /** Pruning at an earlier instant never changes what a later window contains. */
  lemma PruningIsInvisible(h: seq<int>, early: int, late: int)
    requires Ascending(h) && early <= late
    ensures After(After(h, early), late) == After(h, late)
  {
    var k := AfterIsSuffix(h, early);
    var m := AfterIsSuffix(h, late);
    AscendingSlice(h, k, |h|);
    assert h[k..|h|] == h[k..];
    var n := AfterIsSuffix(h[k..], late);
    assert CutsAt(h, late, k + n) by {
      assert forall i :: k <= i < |h| ==> h[i] == h[k..][i - k];
    }
    CutIsUnique(h, late, m, k + n);
  }

  lemma CountIsSlice(h: seq<int>, lo: int, hi: int) returns (a: nat, b: nat)
    requires Ascending(h) && lo <= hi
    ensures CutsAt(h, lo, a) && CutsAt(h, hi, b) && a <= b && CountWithin(h, lo, hi) == b - a
  {
    a, b := CountAmongIsSlice(h, |h|, lo, hi);
  }

  lemma {:induction false} CountAmongIsSlice(h: seq<int>, n: nat, lo: int, hi: int) returns (a: nat, b: nat)
    requires Ascending(h) && n <= |h| && lo <= hi
    ensures a <= b <= n && CountAmong(h, n, lo, hi) == b - a
    ensures forall i :: 0 <= i < a ==> h[i] <= lo
    ensures forall i :: a <= i < n ==> h[i] > lo
    ensures forall i :: 0 <= i < b ==> h[i] <= hi
    ensures forall i :: b <= i < n ==> h[i] > hi
  {
    if n == 0 {
      a, b := 0, 0;
    } else {
      a, b := CountAmongIsSlice(h, n - 1, lo, hi);
      assert InOrder(h, a, n - 1) && InOrder(h, b, n - 1);
      a := if h[n - 1] <= lo then n else a;
      b := if h[n - 1] <= hi then n else b;
    }
  }

  /** THE CEILING: whatever the instant, the window ending there holds at most `maxRequests`. */
  lemma WindowNeverExceedsCeiling(h: seq<int>, c: HostCeiling, t: int)
    requires c.Valid() && Ascending(h) && Paced(h, c)
    ensures CountWithin(h, t - c.intervalMs, t) <= c.maxRequests
  {
    var a, b := CountIsSlice(h, t - c.intervalMs, t);
    assert GapAt(h, a, c.maxRequests, c.intervalMs);
  }

  /** THE DELAY over any stretch: `n` steps along the history take at least `n * minDelayMs`. */
  lemma {:induction false} StretchTakesDelays(h: seq<int>, c: HostCeiling, i: nat, n: nat)
    requires Paced(h, c) && i + n < |h|
    ensures h[i + n] - h[i] >= n * c.minDelayMs
    decreases n
  {
    if n > 0 {
      StretchTakesDelays(h, c, i, n - 1);
      assert GapAt(h, i + n - 1, 1, c.minDelayMs);
    }
  }

  /** What the pruned window says about the full history at any instant not before the last release. */
  lemma WindowOf(st: HostState, h: seq<int>, c: HostCeiling, last: int, now: int) returns (k: nat)
    requires c.Valid() && Accounts(st, h, c, last) && last <= now
    ensures CutsAt(h, now - c.intervalMs, k)
    ensures After(st.releases, now - c.intervalMs) == h[k..]
    ensures CountWithin(h, now - c.intervalMs, now) == |h| - k
  {
    k := AfterIsSuffix(h, now - c.intervalMs);
    var a, b := CountIsSlice(h, now - c.intervalMs, now);
    if h != [] {
      PruningIsInvisible(h, h[|h| - 1] - c.intervalMs, now - c.intervalMs);
      assert InOrder(h, b, |h| - 1);
      CutIsUnique(h, now - c.intervalMs, a, k);
    }
  }

  /**
   EARLIEST RELEASE: from `now` on, an instant is permitted by the delay, the
   full-history window and the hold exactly when it is not before the target.
   */
  lemma EarliestIsLeastPermitted(st: HostState, h: seq<int>, c: HostCeiling, delayMs: int, offeredAt: int, now: int, t: int)
    requires c.Valid() && Accounts(st, h, c, now) && now <= t
    ensures t >= Earliest(st, c, delayMs, offeredAt, now) <==> Permitted(h, st.holdUntil, c, delayMs, offeredAt, t)
  {
    var k := WindowOf(st, h, c, now, now);
    var m := WindowOf(st, h, c, now, t);
    var o := |h| - c.maxRequests;
    assert o >= k ==> h[k..][o - k] == h[o];
    assert o >= 0 && m < |h| ==> InOrder(h, o, m) && InOrder(h, m, o);
  }

  /** Waiting past the target keeps it met, as long as no hold arrives. */
  lemma TargetStaysMet(st: HostState, h: seq<int>, c: HostCeiling, delayMs: int, offeredAt: int, now: int, t: int)
    requires c.Valid() && Accounts(st, h, c, now)
    requires now <= t && Earliest(st, c, delayMs, offeredAt, now) <= t
    ensures Earliest(st, c, delayMs, offeredAt, t) <= t
  {
    EarliestIsLeastPermitted(st, h, c, delayMs, offeredAt, now, t);
    assert Accounts(st, h, c, t);
    EarliestIsLeastPermitted(st, h, c, delayMs, offeredAt, t, t);
  }

  lemma AfterPush(h: seq<int>, at: int, bound: int)
    ensures After(h + [at], bound) == if at > bound then After(h, bound) + [at] else After(h, bound)
  {
    AfterAmongPush(h, at, |h|, bound);
  }

  lemma {:induction false} AfterAmongPush(h: seq<int>, at: int, n: nat, bound: int)
    requires n <= |h|
    ensures AfterAmong(h + [at], n, bound) == AfterAmong(h, n, bound)
  {
    if n > 0 {
      AfterAmongPush(h, at, n - 1, bound);
    }
  }

  lemma AscendingPush(h: seq<int>, at: int)
    requires Ascending(h) && (h != [] ==> h[|h| - 1] <= at)
    ensures Ascending(h + [at])
  {
    forall i: nat, j: nat ensures InOrder(h + [at], i, j) {
      assert InOrder(h, i, j);
      assert h != [] ==> InOrder(h, i, |h| - 1);
    }
  }

  lemma PacedExtends(h: seq<int>, c: HostCeiling, now: int)
    requires Paced(h, c)
    requires h != [] ==> now - h[|h| - 1] >= c.minDelayMs
    requires 1 <= c.maxRequests <= |h| ==> now - h[|h| - c.maxRequests] >= c.intervalMs
    requires c.Valid()
    ensures Paced(h + [now], c)
  {
    forall i: nat ensures GapAt(h + [now], i, 1, c.minDelayMs) {
      assert GapAt(h, i, 1, c.minDelayMs);
    }
    forall i: nat ensures GapAt(h + [now], i, c.maxRequests, c.intervalMs) {
      assert GapAt(h, i, c.maxRequests, c.intervalMs);
    }
  }

  /** Meeting the target means meeting the delay and the window over the full history. */
  lemma MetTargetIsPaced(st: HostState, h: seq<int>, c: HostCeiling, delayMs: int, offeredAt: int, now: int)
    requires c.Valid() && Accounts(st, h, c, now) && delayMs >= c.minDelayMs
    requires Earliest(st, c, delayMs, offeredAt, now) <= now
    ensures h != [] ==> now - h[|h| - 1] >= c.minDelayMs
    ensures c.maxRequests <= |h| ==> now - h[|h| - c.maxRequests] >= c.intervalMs
  {
    var k := WindowOf(st, h, c, now, now);
    SliceSays(h, k, |h| - c.maxRequests);
  }

  lemma GrantKeepsPruned(st: HostState, h: seq<int>, c: HostCeiling, now: int)
    requires Ascending(h) && Pruned(st, h, c) && (h != [] ==> h[|h| - 1] <= now)
    ensures Pruned(Granted(st, c, now), h + [now], c)
  {
    AfterPush(st.releases, now, now - c.intervalMs);
    AfterPush(h, now, now - c.intervalMs);
    if h != [] {
      PruningIsInvisible(h, h[|h| - 1] - c.intervalMs, now - c.intervalMs);
    }
  }

  /** A grant at a permitted instant extends the history and keeps it paced. */
  lemma GrantKeepsAccounts(st: HostState, h: seq<int>, c: HostCeiling, delayMs: int, offeredAt: int, now: int)
    requires c.Valid() && Accounts(st, h, c, now) && delayMs >= c.minDelayMs
    requires Earliest(st, c, delayMs, offeredAt, now) <= now
    ensures Accounts(Granted(st, c, now), h + [now], c, now)
  {
    AscendingPush(h, now);
    MetTargetIsPaced(st, h, c, delayMs, offeredAt, now);
    PacedExtends(h, c, now);
    GrantKeepsPruned(st, h, c, now);
  }

  // ---------------------------------------------------------------------------
  // The class. One sleep is one element of `wakes`: how late the timer fires and
  // which holds other requests' responses placed on this host meanwhile. Sleeps
  // beyond the list are exact and undisturbed.
  // ---------------------------------------------------------------------------

  datatype Wake = Wake(late: nat, holds: seq<int>)

  /** `hold` for each of `holds`, in order. */
  function HeldAll(st: HostState, holds: seq<int>): (r: HostState)
    ensures r == st.(holdUntil := r.holdUntil) && r.holdUntil >= st.holdUntil
    decreases |holds|
  {
    if holds == [] then st else HeldAll(Held(st, holds[0]), holds[1..])
  }

  /** How many of the first `k` sleeps were disturbed by a hold. */
  function Disturbed(wakes: seq<Wake>, k: nat): nat
    requires k <= |wakes|
  {
    if k == 0 then 0 else Disturbed(wakes, k - 1) + if wakes[k - 1].holds != [] then 1 else 0
  }

  /** No sleep overruns its timer and no hold arrives during one. */
  ghost predicate Undisturbed(wakes: seq<Wake>) {
    forall i :: 0 <= i < |wakes| ==> wakes[i] == Wake(0, [])
  }

  lemma {:induction false} DisturbedIsMonotone(wakes: seq<Wake>, k: nat)
    requires k <= |wakes|
    ensures Disturbed(wakes, k) <= Disturbed(wakes, |wakes|)
    decreases |wakes| - k
  {
    if k < |wakes| {
      DisturbedIsMonotone(wakes, k + 1);
    }
  }

  /** What one sleep leaves: the target met if no hold arrived in it, and met exactly if the timer was exact. */
  lemma AfterOneSleep(st: HostState, h: seq<int>, c: HostCeiling, delayMs: int, offeredAt: int, now: int, wake: Wake)
    requires c.Valid() && Accounts(st, h, c, now)
    ensures var target := Earliest(st, c, delayMs, offeredAt, now);
            var later := Earliest(HeldAll(st, wake.holds), c, delayMs, offeredAt, target + wake.late);
            && (wake.holds == [] ==> later <= target + wake.late)
            && (wake == Wake(0, []) ==> later == target)
  {
    var target := Earliest(st, c, delayMs, offeredAt, now);
    TargetStaysMet(st, h, c, delayMs, offeredAt, now, target + wake.late);
  }

  ghost predicate AllAccount(hosts: map<Host, HostState>, history: map<Host, seq<int>>,
                             ceilings: map<Host, HostCeiling>, now: int)
  {
    && hosts.Keys == history.Keys && hosts.Keys <= ceilings.Keys
    && forall h :: h in hosts ==> Accounts(hosts[h], history[h], ceilings[h], now)
  }

  lemma AllAccountAt(hosts: map<Host, HostState>, history: map<Host, seq<int>>, ceilings: map<Host, HostCeiling>,
                     now: int, later: int, host: Host, st: HostState, past: seq<int>)
    requires AllAccount(hosts, history, ceilings, now) && now <= later
    requires host in ceilings && Accounts(st, past, ceilings[host], later)
    ensures AllAccount(hosts[host := st], history[host := past], ceilings, later)
  {
  }

  /**
   One whole turn at the head of a host's queue: what it may do to the host's state.
   The release is permitted by delay, window and hold over the full history; a
   hold is never shortened; every sleep after the first is charged to a sleep a
   hold arrived in; and an undisturbed turn releases at the earliest instant.
   */
  ghost predicate Turn(before: HostState, past: seq<int>, c: HostCeiling, delayMs: int, startedAt: int, wakes: seq<Wake>,
                       after: HostState, at: int, sleeps: nat)
    requires c.Valid()
  {
    && startedAt <= at
    && before.holdUntil <= after.holdUntil
    && after == Granted(before.(holdUntil := after.holdUntil), c, at)
    && Permitted(past, after.holdUntil, c, delayMs, startedAt, at)
    && sleeps <= 1 + Disturbed(wakes, |wakes|)
    && (Undisturbed(wakes) ==> at == Earliest(before, c, delayMs, startedAt, startedAt))
  }

  lemma TurnEnds(before: HostState, past: seq<int>, c: HostCeiling, delayMs: int, startedAt: int, wakes: seq<Wake>,
                 waited: HostState, at: int, sleeps: nat)
    requires c.Valid() && delayMs >= c.minDelayMs
    requires startedAt <= at && Accounts(waited, past, c, at)
    requires waited == before.(holdUntil := waited.holdUntil) && waited.holdUntil >= before.holdUntil
    requires Earliest(waited, c, delayMs, startedAt, at) <= at
    requires sleeps <= 1 + Disturbed(wakes, |wakes|)
    requires Undisturbed(wakes) ==> at == Earliest(before, c, delayMs, startedAt, startedAt)
    ensures Turn(before, past, c, delayMs, startedAt, wakes, Granted(waited, c, at), at, sleeps)
    ensures Accounts(Granted(waited, c, at), past + [at], c, at)
  {
    EarliestIsLeastPermitted(waited, past, c, delayMs, startedAt, at, at);
    GrantKeepsAccounts(waited, past, c, delayMs, startedAt, at);
  }

  class HostScheduler {
    var now: int
    var hosts: map<Host, HostState>
    ghost const ceilings: map<Host, HostCeiling>
    ghost var history: map<Host, seq<int>>

    ghost predicate Valid()
      reads this
    {
      && (forall h :: h in ceilings ==> ceilings[h].Valid())
      && AllAccount(hosts, history, ceilings, now)
    }

    ghost function Past(host: Host): seq<int>
      reads this
    {
      if host in history then history[host] else []
    }

    function StateOf(host: Host): HostState
      reads this
    {
      if host in hosts then hosts[host] else FRESH_HOST
    }

    constructor (now: int, ghost ceilings: map<Host, HostCeiling>)
      requires forall h :: h in ceilings ==> ceilings[h].Valid()
      ensures Valid() && this.now == now && this.ceilings == ceilings && hosts == map[] && history == map[]
    {
      this.now, this.ceilings, this.hosts, this.history := now, ceilings, map[], map[];
    }

    method Hold(host: Host, until: int)
      requires Valid() && host in ceilings
      modifies this
      ensures Valid() && now == old(now)
      ensures Past(host) == old(Past(host))
      ensures hosts == old(hosts)[host := old(StateOf(host)).(holdUntil := Max(old(StateOf(host)).holdUntil, until))]
      ensures history == old(history)[host := old(Past(host))]
    {
      AllAccountAt(hosts, history, ceilings, now, now, host, Held(StateOf(host), until), Past(host));
      hosts := hosts[host := Held(StateOf(host), until)];
      history := history[host := Past(host)];
    }

    method HeldUntil(host: Host) returns (until: int)
      ensures until == StateOf(host).holdUntil
      ensures host !in hosts ==> until == 0
    {
      until := if host in hosts then hosts[host].holdUntil else 0;
    }

    /** The wait loop of one turn, over this host's state and the clock, then the release recorded and the list pruned. */
    static method AwaitTurn(before: HostState, ghost past: seq<int>, ceiling: HostCeiling, delayMs: int, startedAt: int,
                            wakes: seq<Wake>)
      returns (state: HostState, at: int, sleeps: nat)
      requires ceiling.Valid() && delayMs >= ceiling.minDelayMs && Accounts(before, past, ceiling, startedAt)
      ensures Turn(before, past, ceiling, delayMs, startedAt, wakes, state, at, sleeps)
      ensures Accounts(state, past + [at], ceiling, at)
    {
      state, at, sleeps := before, startedAt, 0;
      var target := Earliest(state, ceiling, delayMs, startedAt, at);
      ghost var first := target;
      var k := 0;
      while target > at
        invariant at >= startedAt && Accounts(state, past, ceiling, at)
        invariant state == before.(holdUntil := state.holdUntil) && state.holdUntil >= before.holdUntil
        invariant k <= |wakes| && target == Earliest(state, ceiling, delayMs, startedAt, at)
        invariant sleeps <= Disturbed(wakes, k) + if target <= at then 1 else 0
        invariant Undisturbed(wakes) ==> target == first && state == before && (at == startedAt || at == first)
        decreases |wakes| - k, target - at
      {
        var wake := if k < |wakes| then wakes[k] else Wake(0, []);
        AfterOneSleep(state, past, ceiling, delayMs, startedAt, at, wake);
        k := if k < |wakes| then k + 1 else k;
        at := target + wake.late;
        state := HeldAll(state, wake.holds);
        sleeps := sleeps + 1;
        target := Earliest(state, ceiling, delayMs, startedAt, at);
      }
      DisturbedIsMonotone(wakes, k);
      TurnEnds(before, past, ceiling, delayMs, startedAt, wakes, state, at, sleeps);
      state := Granted(state, ceiling, at);
    }

    method Release(host: Host, ceiling: HostCeiling, jitter: nat, wakes: seq<Wake>)
      returns (release: Release, sleeps: nat)
      requires Valid() && host in ceilings && ceiling == ceilings[host] && jitter <= ceiling.jitterMs
      modifies this
      ensures Valid()
      ensures release == Released(host, now, ceiling.minDelayMs + jitter, now - old(now))
      ensures Turn(old(StateOf(host)), old(Past(host)), ceiling, release.delayMs, old(now), wakes, StateOf(host), now, sleeps)
      ensures host in hosts && hosts == old(hosts)[host := hosts[host]]
      ensures history == old(history)[host := old(Past(host)) + [now]]
    {
      var startedAt := now;
      var delayMs := ceiling.minDelayMs + jitter;
      ghost var past := Past(host);
      var state, at, slept := AwaitTurn(StateOf(host), past, ceiling, delayMs, startedAt, wakes);
      AllAccountAt(hosts, history, ceilings, startedAt, at, host, state, past + [at]);
      now, sleeps := at, slept;
      hosts := hosts[host := state];
      history := history[host := past + [at]];
      assert StateOf(host) == state;
      release := Released(host, at, delayMs, at - startedAt);
    }
  }
}
