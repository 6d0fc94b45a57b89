/** The fixed-phase weekly cycle. Instants are whole seconds. */
module Cycles {
  import opened Sums

  type Instant = int

  const WEEK: int := 7 * 24 * 3600

  function AlignedCycleStart(weekStart: Instant, now: Instant): Instant {
    if now < weekStart then weekStart
    else
      var k := (now - weekStart) / WEEK;
      weekStart + k * WEEK
  }

  /** s is the start of an anchor-aligned week, of 604800 seconds, that contains now. */
  ghost predicate IsCycleOf(weekStart: Instant, now: Instant, s: Instant) {
    && s <= now < s + 604800
    && weekStart <= s
    && (s - weekStart) % 604800 == 0
  }

  lemma AlignedIsTheCycle(weekStart: Instant, now: Instant)
    ensures now < weekStart ==> AlignedCycleStart(weekStart, now) == weekStart
    ensures weekStart <= now ==>
      forall s :: IsCycleOf(weekStart, now, s) <==> s == AlignedCycleStart(weekStart, now)
  {
    if weekStart <= now {
      forall s ensures IsCycleOf(weekStart, now, s) <==> s == AlignedCycleStart(weekStart, now) {}
    }
  }

  lemma AlignedIsMonotone(weekStart: Instant, t1: Instant, t2: Instant)
    requires t1 <= t2
    ensures AlignedCycleStart(weekStart, t1) <= AlignedCycleStart(weekStart, t2)
  {
  }

  /** The bucket rolled forward one week at a time, as long as a whole week has passed. */
  function RollWeekly(start: Instant, now: Instant): Instant
    decreases if now < start then 0 else now - start
  {
    if now - start < WEEK then start else RollWeekly(start + WEEK, now)
  }

  lemma {:induction false} OneJumpIsManyRolls(weekStart: Instant, now: Instant)
    ensures AlignedCycleStart(weekStart, now) == RollWeekly(weekStart, now)
    decreases if now < weekStart then 0 else now - weekStart
  {
    if now - weekStart >= WEEK {
      OneJumpIsManyRolls(weekStart + WEEK, now);
      assert (now - weekStart) / WEEK == (now - (weekStart + WEEK)) / WEEK + 1;
    }
  }

  /** A jump taken from any stored cycle start lands where a jump from the anchor does. */
  lemma JumpFromAnyCycle(weekStart: Instant, t: Instant, now: Instant)
    requires t <= now
    ensures AlignedCycleStart(AlignedCycleStart(weekStart, t), now) == AlignedCycleStart(weekStart, now)
  {
    if weekStart <= t {
      var k := (t - weekStart) / WEEK;
      assert (now - (weekStart + k * WEEK)) / WEEK == (now - weekStart) / WEEK - k;
    }
  }

  /** The next weekly reset the panel shows; an empty or unparseable anchor shows none. */
  function ComputeWeekResetAt(weekStart: Option<Instant>, now: Instant): Option<Instant> {
    match weekStart
    case None => None
    case Some(t) => Some(AlignedCycleStart(t, now) + WEEK)
  }

  /** The shown reset time is the first instant at which the gate's cycle differs from now's. */
  lemma WeekResetIsFirstChange(weekStart: Instant, now: Instant, t: Instant)
    requires now <= t
    ensures ComputeWeekResetAt(Some(weekStart), now).Some? && ComputeWeekResetAt(None, now).None?
    ensures
      var reset := ComputeWeekResetAt(Some(weekStart), now).value;
      && now < reset
      && (AlignedCycleStart(weekStart, t) == AlignedCycleStart(weekStart, now) <==> t < reset)
  {
    var c, c' := AlignedCycleStart(weekStart, now), AlignedCycleStart(weekStart, t);
    AlignedIsTheCycle(weekStart, now);
    AlignedIsTheCycle(weekStart, t);
    if t < c + WEEK {
      if weekStart <= t {
        assert IsCycleOf(weekStart, t, c);
      }
    } else {
      assert IsCycleOf(weekStart, t, c');
    }
  }
}
