/** The scheduler's ticks: when the five-hour counters are reset, and what they hold afterwards. */
module Scheduling {
  import opened Cycles
  import opened Database
  import opened Ledger

  class Scheduler {
    const db: Db
    const resetHours: int

    constructor (db: Db, resetHours: int)
      requires resetHours > 0
      ensures this.db == db && this.resetHours == resetHours
    {
      this.db, this.resetHours := db, resetHours;
    }

    method TryReset(now: Instant)
      requires resetHours > 0
      modifies db`rows
      ensures db.rows.Keys == old(db.rows).Keys
      ensures Fires(now, resetHours) ==>
        forall u :: u in db.rows ==> db.rows[u] == Reset5h(old(db.rows)[u], now, resetHours)
      ensures !Fires(now, resetHours) ==> db.rows == old(db.rows)
    {
      if Hour(now) % resetHours != 0 || Minute(now) != 0 { return; }
      db.Reset5hQuota(now, resetHours);
    }

    /** Run once at start-up. */
    method Compensate(now: Instant)
      requires resetHours > 0
      modifies db`rows
      ensures db.rows.Keys == old(db.rows).Keys
      ensures forall u :: u in db.rows ==> db.rows[u] == Ledger.Compensate(old(db.rows)[u], now, resetHours)
    {
      db.CompensateQuotaReset(now, resetHours);
    }
  }

  // ----- no boundary is missed, no reset is stray

  /** The start of an hour of the day that is a multiple of the reset interval. */
  predicate IsBoundary(b: Instant, resetHours: int)
    requires resetHours > 0
  {
    b % 3600 == 0 && Hour(b) % resetHours == 0
  }

  /** A tick resets exactly in the first minute after a window boundary. */
  lemma HourIs(b: Instant)
    ensures Hour(b) == b % 86400 / 3600
  {
  }

  /** In seconds since a local midnight: a boundary is a full hour, the number of which since midnight is a
      multiple of the reset interval. */
  lemma BoundaryIs(b: Instant, resetHours: int)
    requires resetHours > 0
    ensures IsBoundary(b, resetHours) <==> b % 3600 == 0 && b % 86400 / 3600 % resetHours == 0
  {
    HourIs(b);
  }

  lemma FiresInBoundaryMinute(now: Instant, resetHours: int)
    requires resetHours > 0
    ensures Fires(now, resetHours) <==> exists b :: IsBoundary(b, resetHours) && b <= now < b + 60
  {
    if Fires(now, resetHours) {
      FullHourMinute(now);
      assert IsBoundary(now / 60 * 60, resetHours);
    }
    if b :| IsBoundary(b, resetHours) && b <= now < b + 60 { FirstMinute(b, now); }
  }

  lemma FirstMinute(b: Instant, now: Instant)
    requires b % 3600 == 0 && b <= now < b + 60
    ensures Minute(now) == 0 && Hour(now) == Hour(b)
  {
    assert now / 3600 == b / 3600;
    assert now / 60 == b / 60 == b / 3600 * 60;
  }

  lemma FullHourMinute(now: Instant)
    requires Minute(now) == 0
    ensures
      var b := now / 60 * 60;
      b % 3600 == 0 && b <= now < b + 60 && Hour(b) == Hour(now)
  {
    var h := now / 60 / 60;
    assert now / 60 == h * 60;
    assert now / 3600 == h;
  }

  /** The window start is the latest boundary that has passed. */
  lemma WindowStartIsLastBoundary(now: Instant, resetHours: int)
    requires resetHours > 0
    ensures IsBoundary(WindowStart(now, resetHours), resetHours) && WindowStart(now, resetHours) <= now
    ensures forall b :: IsBoundary(b, resetHours) && b <= now ==> b <= WindowStart(now, resetHours)
  {
    var h := Hour(now);
    WindowContainsNow(now, resetHours);
    FirstHour(h, resetHours);
    HourOfDay(now / DAY, h / resetHours * resetHours);
    forall b | IsBoundary(b, resetHours) && b <= now ensures b <= WindowStart(now, resetHours) {
      var x := b / 3600 - now / DAY * 24;
      SameDay(now, b, x);
      if x >= 0 { NoBoundaryInside(x, h, resetHours); }
      BoundaryOrder(now / DAY, x, h / resetHours * resetHours);
    }
  }

  lemma SameDay(now: Instant, b: Instant, x: int)
    requires b % 3600 == 0 && b <= now && x == b / 3600 - now / DAY * 24
    ensures b == now / DAY * DAY + x * 3600 && x <= Hour(now)
    ensures x >= 0 ==> Hour(b) == x
  {
  }

  lemma BoundaryOrder(day: int, x: int, w: int)
    requires x <= w || (x < 0 <= w)
    ensures day * DAY + x * 3600 <= day * DAY + w * 3600
  {
  }

  lemma HourOfDay(day: int, x: int)
    requires 0 <= x < 24
    ensures Hour(day * DAY + x * 3600) == x
    ensures (day * DAY + x * 3600) % 3600 == 0
  {
    assert (day * DAY + x * 3600) / 3600 == day * 24 + x;
  }

  lemma FirstHour(h: int, d: int)
    requires 0 <= h && d > 0
    ensures 0 <= h / d * d <= h && h / d * d % d == 0
  {
    RoundDown(h, d);
    MulMono(0, h / d, d);
    RoundDown(h / d * d, d);
    Quotient(h / d, h / d * d / d, d, h / d * d % d);
  }

  /** a * d is no more than b * d plus a remainder only if its remainder is none. */
  lemma Quotient(a: int, b: int, d: int, r: int)
    requires 0 <= r < d && a * d == b * d + r
    ensures a == b && r == 0
  {
    if a > b { MulMono(b + 1, a, d); } else if a < b { MulMono(a + 1, b, d); }
  }

  lemma NoBoundaryInside(x: int, h: int, d: int)
    requires d > 0 && x <= h && x % d == 0
    ensures x <= h / d * d
  {
    RoundDown(h, d);
    RoundDown(x, d);
    if x / d > h / d { MulMono(h / d + 1, x / d, d); } else { MulMono(x / d, h / d, d); }
  }

  lemma MulMono(x: int, y: int, d: int)
    requires d > 0 && x <= y
    ensures x * d <= y * d
  {
  }

  /** Compensation resets a row if and only if a window boundary passed since the row's window began. */
  lemma CompensationIff(row: Row, now: Instant, resetHours: int)
    requires resetHours > 0
    ensures
      var missed := exists b :: IsBoundary(b, resetHours) && row.windowStart < b <= now;
      Ledger.Compensate(row, now, resetHours) == if missed then ResetWindow(row, now) else row
  {
    WindowStartIsLastBoundary(now, resetHours);
    if row.windowStart < WindowStart(now, resetHours) {
      assert IsBoundary(WindowStart(now, resetHours), resetHours);
    }
  }

  /** Ticks in order, none more than a minute after the one before. */
  predicate TicksOften(ticks: seq<Instant>) {
    forall i :: 0 < i < |ticks| ==> ticks[i - 1] <= ticks[i] <= ticks[i - 1] + 60
  }

  lemma {:induction false} NoBoundaryMissed(ticks: seq<Instant>, b: Instant, resetHours: int) returns (t: Instant)
    requires resetHours > 0 && IsBoundary(b, resetHours)
    requires TicksOften(ticks) && |ticks| > 0 && ticks[0] <= b <= ticks[|ticks| - 1]
    ensures t in ticks && b <= t < b + 60 && Fires(t, resetHours)
    decreases |ticks|
  {
    if ticks[0] == b {
      t := b;
      FiresInBoundaryMinute(t, resetHours);
    } else if ticks[1] >= b {
      t := ticks[1];
      FiresInBoundaryMinute(t, resetHours);
    } else {
      t := NoBoundaryMissed(ticks[1..], b, resetHours);
    }
  }
}
