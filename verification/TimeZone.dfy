/** Local times read as instants. */
module TimeZone {
  // A local time read as an instant (packages/sources/src/time-zone.ts), over any zone with at most one transition near it.

  /** A zone: its offset from UTC, in milliseconds, at each instant. */
  type Zone = int -> int

  /** What a clock in the zone shows at an instant. */
  function Reading(zone: Zone, instant: int): int { instant + zone(instant) }

  /** Two passes: the offset at a guess, and the offset at the corrected guess. */
  function ZonedNaiveToInstant(naive: int, zone: Zone): int {
    var first := zone(naive);
    var guess := naive - first;
    var second := zone(guess);
    if second == first then guess else naive - second
  }

  /**
   No offset exceeds `bound`, and within `bound` of `naive` the offset changes at most once, from
   `before` to `after` at `at`.
   */
  ghost predicate OneTransition(zone: Zone, naive: int, bound: int, at: int, before: int, after: int) {
    && (forall x :: -bound <= zone(x) <= bound)
    && (forall x :: naive - bound <= x <= naive + bound ==> zone(x) == if x < at then before else after)
    && -bound <= before <= bound && -bound <= after <= bound
  }

  /** Some instant reads as `naive`: it is not a local time the transition skips. */
  ghost predicate Exists(zone: Zone, naive: int) { exists x :: Reading(zone, x) == naive }

  /** Only an instant within `bound` of `naive` can read as `naive`, and then by one of the two offsets. */
  lemma ReadersAreNear(zone: Zone, naive: int, bound: int, at: int, before: int, after: int)
    requires OneTransition(zone, naive, bound, at, before, after)
    ensures Exists(zone, naive) <==> naive - before < at || naive - after >= at
  {
    if Exists(zone, naive) {
      var x :| Reading(zone, x) == naive;
      assert naive - bound <= x <= naive + bound;
    }
    if naive - before < at {
      assert Reading(zone, naive - before) == naive;
    } else if naive - after >= at {
      assert Reading(zone, naive - after) == naive;
    }
  }

  /**
   TWO PASSES SUFFICE: the result reads back as the local time exactly when any
   instant does; when none does, it misreads by exactly the size of the jump.
   */
  lemma ReadsBackIffItExists(zone: Zone, naive: int, bound: int, at: int, before: int, after: int)
    requires OneTransition(zone, naive, bound, at, before, after)
    ensures var back := Reading(zone, ZonedNaiveToInstant(naive, zone));
            && (back == naive <==> Exists(zone, naive))
            && (!Exists(zone, naive) ==> back - naive == if naive < at then before - after else after - before)
            && (!Exists(zone, naive) ==> after - before > 0)
  {
    ReadersAreNear(zone, naive, bound, at, before, after);
    assert zone(naive - before) == if naive - before < at then before else after;
    assert zone(naive - after) == if naive - after < at then before else after;
  }

  /** A third pass would change the answer after all, and exactly for the local times that do not exist. */
  lemma ThirdPassMattersIffSkipped(zone: Zone, naive: int, bound: int, at: int, before: int, after: int)
    requires OneTransition(zone, naive, bound, at, before, after)
    ensures naive - zone(ZonedNaiveToInstant(naive, zone)) != ZonedNaiveToInstant(naive, zone) <==> !Exists(zone, naive)
  {
    ReadsBackIffItExists(zone, naive, bound, at, before, after);
  }

  /** A local time that happens twice is read as one of its two instants. */
  lemma AmbiguousTimesAreRead(zone: Zone, naive: int, bound: int, at: int, before: int, after: int)
    requires OneTransition(zone, naive, bound, at, before, after)
    requires naive - before < at <= naive - after
    ensures ZonedNaiveToInstant(naive, zone) == if naive < at then naive - before else naive - after
    ensures Reading(zone, naive - before) == naive == Reading(zone, naive - after)
  {
    assert zone(naive - before) == before && zone(naive - after) == after;
  }

  /** A zone with one jump. */
  function Jumps(at: int, before: int, after: int): Zone { x => if x < at then before else after }

  /**
   Such local times do occur: the sixty units after a jump forward by sixty are skipped, and after
   one back they come twice.
   */
  lemma SkippedAndDoubledTimesOccur()
    ensures OneTransition(Jumps(100, 0, 60), 120, 60, 100, 0, 60) && !Exists(Jumps(100, 0, 60), 120)
    ensures OneTransition(Jumps(100, 60, 0), 120, 60, 100, 60, 0)
    ensures Reading(Jumps(100, 60, 0), 60) == 120 == Reading(Jumps(100, 60, 0), 120)
    ensures var skipped := Jumps(100, 0, 60);
            120 - skipped(ZonedNaiveToInstant(120, skipped)) != ZonedNaiveToInstant(120, skipped)
  {
    ReadersAreNear(Jumps(100, 0, 60), 120, 60, 100, 0, 60);
  }
}
