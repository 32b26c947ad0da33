/** The start-up check. */
module Registry {
  // The start-up check of a governor's configuration against the vendors' published limits (packages/sources/src/registry.ts).

  import opened Prelude
  import opened HostScheduling
  import opened Governor

  const DAY_MS: nat := 86400000

  /** What a vendor publishes: calls per second, and calls per day. */
  datatype Terms = Terms(perSecond: Option<real>, perDay: Option<real>)

  datatype SourceEntry = SourceEntry(host: Host, terms: Option<Terms>)

  /** No documented limit is no limit. */
  datatype LimitCheck = LimitCheck(source: Source, host: Host, perSecond: real, documentedPerSecond: Option<real>,
                                   perDay: real, documentedPerDay: Option<real>)

  datatype Fault =
    | NoCeiling(source: Source) | NoSettings(source: Source) | TooFast(source: Source)
    | Unmetered(source: Source) | TooMany(source: Source)

  datatype Result = Passed(checks: seq<LimitCheck>) | Refuses(fault: Fault)

  predicate Limited(entry: SourceEntry) {
    entry.terms.Some? && (entry.terms.value.perSecond.Some? || entry.terms.value.perDay.Some?)
  }

  predicate Exceeds(configured: real, documented: Option<real>) { documented.Some? && configured > documented.value }

  function WindowRate(ceiling: HostCeiling): real
    requires ceiling.intervalMs >= 1
  {
    (ceiling.maxRequests * 1000) as real / ceiling.intervalMs as real
  }

  function DelayRate(ceiling: HostCeiling): real
    requires ceiling.minDelayMs >= 1
  {
    1000.0 / ceiling.minDelayMs as real
  }

  function DayRate(a: AllowanceSettings): real
    requires a.periodMs >= 1
  {
    (a.limit * DAY_MS) as real / a.periodMs as real
  }

  /** What a source that publishes limits needs of the governor: a ceiling and an allowance, each within its limit. */
  predicate Compliant(c: Config, source: Source, entry: SourceEntry)
    requires c.Valid()
  {
    Limited(entry) ==>
      && entry.host in c.hosts && c.Metered(source)
      && !Exceeds(WindowRate(c.hosts[entry.host]), entry.terms.value.perSecond)
      && !Exceeds(DelayRate(c.hosts[entry.host]), entry.terms.value.perSecond)
      && !Exceeds(DayRate(c.Allowance(source)), entry.terms.value.perDay)
  }

  /** The first thing wrong with a source's configuration is what is reported. */
  predicate Explains(c: Config, source: Source, entry: SourceEntry, fault: Fault)
    requires c.Valid()
  {
    && Limited(entry) && fault.source == source
    && match fault
       case NoCeiling(_) => entry.host !in c.hosts
       case NoSettings(_) => entry.host in c.hosts && source !in c.sources
       case TooFast(_) =>
         && entry.host in c.hosts && source in c.sources
         && (|| Exceeds(WindowRate(c.hosts[entry.host]), entry.terms.value.perSecond)
             || Exceeds(DelayRate(c.hosts[entry.host]), entry.terms.value.perSecond))
       case Unmetered(_) =>
         && entry.host in c.hosts && source in c.sources && !c.Metered(source)
         && !Exceeds(WindowRate(c.hosts[entry.host]), entry.terms.value.perSecond)
         && !Exceeds(DelayRate(c.hosts[entry.host]), entry.terms.value.perSecond)
       case TooMany(_) =>
         && entry.host in c.hosts && c.Metered(source)
         && !Exceeds(WindowRate(c.hosts[entry.host]), entry.terms.value.perSecond)
         && !Exceeds(DelayRate(c.hosts[entry.host]), entry.terms.value.perSecond)
         && Exceeds(DayRate(c.Allowance(source)), entry.terms.value.perDay)
  }

  function Larger(a: real, b: real): real { if a >= b then a else b }

  /** The rates a compliant source's configuration was found to permit, beside those its vendor publishes. */
  function CheckOf(c: Config, source: Source, entry: SourceEntry): LimitCheck
    requires c.Valid() && Limited(entry) && Compliant(c, source, entry)
  {
    LimitCheck(source, entry.host, Larger(WindowRate(c.hosts[entry.host]), DelayRate(c.hosts[entry.host])),
               entry.terms.value.perSecond, DayRate(c.Allowance(source)), entry.terms.value.perDay)
  }

  ghost predicate AllCompliant(c: Config, ids: seq<Source>, entries: map<Source, SourceEntry>, n: nat)
    requires c.Valid() && n <= |ids|
  {
    forall i :: 0 <= i < n ==> ids[i] in entries && Compliant(c, ids[i], entries[ids[i]])
  }

  /** One check for each source that publishes a limit, in order. */
  ghost function ChecksOf(c: Config, ids: seq<Source>, entries: map<Source, SourceEntry>, n: nat): seq<LimitCheck>
    requires c.Valid() && n <= |ids| && AllCompliant(c, ids, entries, n)
  {
    if n == 0 then []
    else if Limited(entries[ids[n - 1]]) then ChecksOf(c, ids, entries, n - 1) + [CheckOf(c, ids[n - 1], entries[ids[n - 1]])]
    else ChecksOf(c, ids, entries, n - 1)
  }

  /** The `i`th source is the first that does not comply, and `fault` says why. */
  ghost predicate FirstFault(c: Config, ids: seq<Source>, entries: map<Source, SourceEntry>, i: nat, fault: Fault)
    requires c.Valid()
  {
    i < |ids| && AllCompliant(c, ids, entries, i) && ids[i] in entries && Explains(c, ids[i], entries[ids[i]], fault)
  }

  method AssertGovernorWithinDocumentedLimits(ids: seq<Source>, entries: map<Source, SourceEntry>, c: Config) returns (result: Result)
    requires c.Valid() && forall i :: 0 <= i < |ids| ==> ids[i] in entries
    ensures result.Passed? <==> AllCompliant(c, ids, entries, |ids|)
    ensures result.Passed? ==> result.checks == ChecksOf(c, ids, entries, |ids|)
    ensures result.Refuses? ==> exists i :: FirstFault(c, ids, entries, i, result.fault)
  {
    var checks := [];
    for i := 0 to |ids|
      invariant AllCompliant(c, ids, entries, i)
      invariant checks == ChecksOf(c, ids, entries, i)
    {
      var source := ids[i];
      var entry := entries[source];
      if entry.terms.None? {
        continue;
      }
      var terms := entry.terms.value;
      if terms.perSecond.None? && terms.perDay.None? {
        continue;
      }
      if entry.host !in c.hosts {
        assert FirstFault(c, ids, entries, i, NoCeiling(source));
        return Refuses(NoCeiling(source));
      }
      var ceiling := c.hosts[entry.host];
      if source !in c.sources {
        assert FirstFault(c, ids, entries, i, NoSettings(source));
        return Refuses(NoSettings(source));
      }
      var windowRate := (ceiling.maxRequests * 1000) as real / ceiling.intervalMs as real;
      var delayRate := 1000.0 / ceiling.minDelayMs as real;
      var perSecond := Larger(windowRate, delayRate);
      if terms.perSecond.Some? && perSecond > terms.perSecond.value {
        assert FirstFault(c, ids, entries, i, TooFast(source));
        return Refuses(TooFast(source));
      }
      var allowance := c.sources[source].allowance;
      if allowance.None? {
        assert FirstFault(c, ids, entries, i, Unmetered(source));
        return Refuses(Unmetered(source));
      }
      var perDay := (allowance.value.limit * DAY_MS) as real / allowance.value.periodMs as real;
      if terms.perDay.Some? && perDay > terms.perDay.value {
        assert FirstFault(c, ids, entries, i, TooMany(source));
        return Refuses(TooMany(source));
      }
      checks := checks + [LimitCheck(source, entry.host, perSecond, terms.perSecond, perDay, terms.perDay)];
    }
    result := Passed(checks);
  }

  // ---------------------------------------------------------------------------
  // The same, written out and multiplied out.
  // ---------------------------------------------------------------------------

  lemma QuotientBelow(a: real, b: real, r: real)
    requires b > 0.0
    ensures a / b <= r <==> a <= r * b
  {
    var q := a / b;
    assert q * b == a;
    if q <= r {
      assert q * b <= r * b;
    } else {
      assert q * b > r * b;
    }
  }

  /** Calls a window lets through, and calls the delay lets through, against those published for as long. */
  ghost predicate SecondsKept(h: HostCeiling, published: Option<real>) {
    published.Some? ==>
      && (h.maxRequests * 1000) as real <= published.value * h.intervalMs as real
      && 1000.0 <= published.value * h.minDelayMs as real
  }

  /** The allowance for as long as a day times a period, against what is published for as long. */
  ghost predicate DaysKept(a: AllowanceSettings, published: Option<real>) {
    published.Some? ==> (a.limit * 86400000) as real <= published.value * a.periodMs as real
  }

  /** A source with no published limit, or one that is configured, metered and within both. */
  ghost predicate Keeps(c: Config, source: Source, entry: SourceEntry) {
    || entry.terms == None
    || entry.terms == Some(Terms(None, None))
    || (&& entry.host in c.hosts && source in c.sources && c.sources[source].allowance.Some?
        && SecondsKept(c.hosts[entry.host], entry.terms.value.perSecond)
        && DaysKept(c.sources[source].allowance.value, entry.terms.value.perDay))
  }

  lemma SecondsKeptIff(h: HostCeiling, published: Option<real>)
    requires h.Valid()
    ensures SecondsKept(h, published) <==> !Exceeds(WindowRate(h), published) && !Exceeds(DelayRate(h), published)
  {
    if published.Some? {
      QuotientBelow((h.maxRequests * 1000) as real, h.intervalMs as real, published.value);
      QuotientBelow(1000.0, h.minDelayMs as real, published.value);
    }
  }

  lemma DaysKeptIff(a: AllowanceSettings, published: Option<real>)
    requires a.periodMs >= 1
    ensures DaysKept(a, published) <==> !Exceeds(DayRate(a), published)
  {
    if published.Some? {
      QuotientBelow((a.limit * DAY_MS) as real, a.periodMs as real, published.value);
    }
  }

  lemma CompliantIff(c: Config, source: Source, entry: SourceEntry)
    requires c.Valid()
    ensures Compliant(c, source, entry) <==> Keeps(c, source, entry)
  {
    if Limited(entry) && entry.host in c.hosts && c.Metered(source) {
      SecondsKeptIff(c.hosts[entry.host], entry.terms.value.perSecond);
      DaysKeptIff(c.Allowance(source), entry.terms.value.perDay);
    }
  }

  /** PASSING: a configuration passes if and only if every source keeps what its vendor publishes. */
  lemma PassesIff(c: Config, ids: seq<Source>, entries: map<Source, SourceEntry>)
    requires c.Valid() && forall i :: 0 <= i < |ids| ==> ids[i] in entries
    ensures AllCompliant(c, ids, entries, |ids|) <==> forall i :: 0 <= i < |ids| ==> Keeps(c, ids[i], entries[ids[i]])
  {
    forall i | 0 <= i < |ids| ensures Compliant(c, ids[i], entries[ids[i]]) <==> Keeps(c, ids[i], entries[ids[i]]) {
      CompliantIff(c, ids[i], entries[ids[i]]);
    }
  }

  /** REFUSING: the fault named is there, those looked for before it are not, and the source does not keep its limits. */
  lemma FaultIsThere(c: Config, source: Source, entry: SourceEntry, fault: Fault)
    requires c.Valid() && Explains(c, source, entry, fault)
    ensures fault.source == source && !Keeps(c, source, entry)
    ensures fault.NoCeiling? <==> entry.host !in c.hosts
    ensures fault.NoSettings? <==> entry.host in c.hosts && source !in c.sources
    ensures fault.TooFast? ==> !SecondsKept(c.hosts[entry.host], entry.terms.value.perSecond)
    ensures fault.Unmetered? ==> c.sources[source].allowance == None && SecondsKept(c.hosts[entry.host], entry.terms.value.perSecond)
    ensures fault.TooMany? ==>
              && c.sources[source].allowance.Some? && SecondsKept(c.hosts[entry.host], entry.terms.value.perSecond)
              && !DaysKept(c.sources[source].allowance.value, entry.terms.value.perDay)
  {
    CompliantIff(c, source, entry);
    if entry.host in c.hosts {
      SecondsKeptIff(c.hosts[entry.host], entry.terms.value.perSecond);
    }
    if c.Metered(source) {
      DaysKeptIff(c.Allowance(source), entry.terms.value.perDay);
    }
  }

  /** REPORTING: the rates reported are the faster of window and delay, and the allowance, by the second and by the day. */
  lemma ReportedRates(c: Config, source: Source, entry: SourceEntry)
    requires c.Valid() && Limited(entry) && Compliant(c, source, entry)
    ensures var check, h, a := CheckOf(c, source, entry), c.hosts[entry.host], c.sources[source].allowance.value;
            && check.source == source && check.host == entry.host
            && check.documentedPerSecond == entry.terms.value.perSecond && check.documentedPerDay == entry.terms.value.perDay
            && check.perSecond * h.intervalMs as real >= (h.maxRequests * 1000) as real
            && check.perSecond * h.minDelayMs as real >= 1000.0
            && (|| check.perSecond * h.intervalMs as real == (h.maxRequests * 1000) as real
                || check.perSecond * h.minDelayMs as real == 1000.0)
            && check.perDay * a.periodMs as real == (a.limit * 86400000) as real
  {
    var check, h, a := CheckOf(c, source, entry), c.hosts[entry.host], c.sources[source].allowance.value;
    QuotientBelow((h.maxRequests * 1000) as real, h.intervalMs as real, check.perSecond);
    QuotientBelow(1000.0, h.minDelayMs as real, check.perSecond);
    assert WindowRate(h) * h.intervalMs as real == (h.maxRequests * 1000) as real;
    assert DelayRate(h) * h.minDelayMs as real == 1000.0;
    assert DayRate(a) * a.periodMs as real == (a.limit * DAY_MS) as real;
  }

  /** How many of the first `n` sources publish a limit. */
  ghost function LimitedAmong(ids: seq<Source>, entries: map<Source, SourceEntry>, n: nat): set<nat>
    requires n <= |ids| && forall i :: 0 <= i < n ==> ids[i] in entries
  {
    set j: nat | j < n && Limited(entries[ids[j]])
  }

  lemma {:induction false} ChecksAreCounted(c: Config, ids: seq<Source>, entries: map<Source, SourceEntry>, n: nat)
    requires c.Valid() && n <= |ids| && AllCompliant(c, ids, entries, n)
    ensures |ChecksOf(c, ids, entries, n)| == |LimitedAmong(ids, entries, n)|
  {
    if n > 0 {
      ChecksAreCounted(c, ids, entries, n - 1);
      var fewer := LimitedAmong(ids, entries, n - 1);
      assert LimitedAmong(ids, entries, n) == if Limited(entries[ids[n - 1]]) then fewer + {n - 1} else fewer;
    }
  }

  lemma {:induction false} ChecksGrow(c: Config, ids: seq<Source>, entries: map<Source, SourceEntry>, i: nat, n: nat)
    requires c.Valid() && i <= n <= |ids| && AllCompliant(c, ids, entries, n)
    ensures AllCompliant(c, ids, entries, i) && ChecksOf(c, ids, entries, i) <= ChecksOf(c, ids, entries, n)
    decreases n
  {
    if i < n {
      ChecksGrow(c, ids, entries, i, n - 1);
    }
  }

  /**
   In the order of the sources: each that publishes a limit has its check behind those of the ones
   before it, and no other has any.
   */
  lemma {:induction false} ChecksFollowTheSources(c: Config, ids: seq<Source>, entries: map<Source, SourceEntry>, n: nat, i: nat)
    requires c.Valid() && i < n <= |ids| && AllCompliant(c, ids, entries, n) && Limited(entries[ids[i]])
    ensures var checks, k := ChecksOf(c, ids, entries, n), |LimitedAmong(ids, entries, i)|;
            |checks| == |LimitedAmong(ids, entries, n)| && k < |checks| && checks[k] == CheckOf(c, ids[i], entries[ids[i]])
  {
    ChecksAreCounted(c, ids, entries, n);
    ChecksGrow(c, ids, entries, i + 1, n);
    ChecksAreCounted(c, ids, entries, i);
  }
}
