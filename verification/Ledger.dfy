/** A user's row of the quotas table, and what each SQL statement on it computes. */
module Ledger {
  import opened Cycles
  import opened Sums

  const MONTH: int := 30 * 24 * 3600
  const DAY: int := 24 * 3600

  /** weekStart is None when the stored text is not an RFC 3339 instant. */
  datatype Row = Row(
    calls5hLimit: int, calls5hUsed: int,
    callsTotalLimit: int, callsTotalUsed: int,
    tokens5hLimit: int, tokens5hUsed: int,
    weekLimit: int, weekUsed: int,
    monthLimit: int, monthUsed: int,
    weekStart: Option<Instant>, weekCycleStart: Instant,
    monthStart: Instant, windowStart: Instant)

  datatype CallCounter = FiveHourCalls | TotalCalls

  datatype Bucket = FiveHour | Week | Month

  function CallsUsed(row: Row, w: CallCounter): int {
    match w
    case FiveHourCalls => row.calls5hUsed
    case TotalCalls => row.callsTotalUsed
  }

  function CallsLimit(row: Row, w: CallCounter): int {
    match w
    case FiveHourCalls => row.calls5hLimit
    case TotalCalls => row.callsTotalLimit
  }

  function TokensUsed(row: Row, b: Bucket): int {
    match b
    case FiveHour => row.tokens5hUsed
    case Week => row.weekUsed
    case Month => row.monthUsed
  }

  function TokensLimit(row: Row, b: Bucket): int {
    match b
    case FiveHour => row.tokens5hLimit
    case Week => row.weekLimit
    case Month => row.monthLimit
  }

  /** A new user's row: the anchors start at the creation instant, nothing is used. */
  predicate Fresh(row: Row, now: Instant) {
    && (forall w: CallCounter :: CallsUsed(row, w) == 0)
    && (forall b: Bucket :: TokensUsed(row, b) == 0)
    && row.weekStart == Some(now) && row.weekCycleStart == now && row.monthStart == now
  }

  // ----- the gate: a read of week_start, then one guarded UPDATE

  /** What the gate carries from its read to its UPDATE. */
  datatype Ticket = Ticket(cycle: Instant, monthCutoff: Instant, stamp: Instant)

  function GateCycle(weekStart: Option<Instant>, now: Instant): Instant {
    match weekStart
    case Some(t) => AlignedCycleStart(t, now)
    case None => AlignedCycleStart(now, now)
  }

  function TicketAt(row: Row, now: Instant): Ticket {
    Ticket(GateCycle(row.weekStart, now), now - MONTH, now)
  }

  /** The weekly usage a gate for the given cycle sees: a bucket of another cycle counts as empty. */
  function VisibleWeek(row: Row, cycle: Instant): int {
    if row.weekCycleStart != cycle then 0 else row.weekUsed
  }

  function VisibleMonth(row: Row, monthCutoff: Instant): int {
    if row.monthStart < monthCutoff then 0 else row.monthUsed
  }

  predicate GateOpen(row: Row, calls: int, t: Ticket) {
    && (row.calls5hLimit == 0 || row.calls5hUsed + calls <= row.calls5hLimit)
    && (row.callsTotalLimit == 0 || row.callsTotalUsed + calls <= row.callsTotalLimit)
    && (row.monthLimit == 0 || VisibleMonth(row, t.monthCutoff) < row.monthLimit)
    && (row.tokens5hLimit == 0 || row.tokens5hUsed < row.tokens5hLimit)
    && (row.weekLimit == 0 || VisibleWeek(row, t.cycle) < row.weekLimit)
  }

  /** The guarded UPDATE: all of its SET clause, or nothing. */
  function Gate(row: Row, calls: int, t: Ticket): Row {
    if !GateOpen(row, calls, t) then row
    else
      row.(
        calls5hUsed := row.calls5hUsed + calls,
        callsTotalUsed := row.callsTotalUsed + calls,
        weekUsed := VisibleWeek(row, t.cycle),
        weekCycleStart := t.cycle,
        monthUsed := VisibleMonth(row, t.monthCutoff),
        monthStart := if row.monthStart < t.monthCutoff then t.stamp else row.monthStart)
  }

  // ----- the other statements

  function Max(a: int, b: int): int { if a >= b then a else b }

  function Min(a: int, b: int): int { if a <= b then a else b }

  function Refund(row: Row, calls: int): Row {
    if calls <= 0 then row
    else
      row.(calls5hUsed := Max(0, row.calls5hUsed - calls),
           callsTotalUsed := Max(0, row.callsTotalUsed - calls))
  }

  function AddTokens(row: Row, delta: int): Row {
    if delta <= 0 then row
    else
      row.(monthUsed := row.monthUsed + delta,
           tokens5hUsed := row.tokens5hUsed + delta,
           weekUsed := row.weekUsed + delta)
  }

  /** Local hour of the day; instants are in the server's fixed local offset. */
  function Hour(now: Instant): int { (now / 3600) % 24 }

  function Minute(now: Instant): int { (now / 60) % 60 }

  /** The start of the reset window that contains now. */
  function WindowStart(now: Instant, resetHours: int): Instant
    requires resetHours > 0
  {
    now / DAY * DAY + Hour(now) / resetHours * resetHours * 3600
  }

  /** The scheduler resets at this tick. */
  predicate Fires(now: Instant, resetHours: int)
    requires resetHours > 0
  {
    Hour(now) % resetHours == 0 && Minute(now) == 0
  }

  function ResetWindow(row: Row, windowStart: Instant): Row {
    row.(calls5hUsed := 0, tokens5hUsed := 0, windowStart := windowStart)
  }

  function Reset5h(row: Row, now: Instant, resetHours: int): Row
    requires resetHours > 0
  {
    ResetWindow(row, WindowStart(now, resetHours))
  }

  function Compensate(row: Row, now: Instant, resetHours: int): Row
    requires resetHours > 0
  {
    if row.windowStart < WindowStart(now, resetHours) then ResetWindow(row, now) else row
  }

  function ResetCalls(row: Row, now: Instant): Row {
    row.(calls5hUsed := 0, callsTotalUsed := 0, windowStart := now)
  }

  function ResetTokens(row: Row, now: Instant): Row {
    row.(tokens5hUsed := 0, weekUsed := 0, monthUsed := 0,
         weekStart := Some(now), weekCycleStart := now, monthStart := now)
  }

  function MoveAnchor(row: Row, t: Instant): Row {
    row.(weekStart := Some(t))
  }

  function Reanchor(row: Row, t: Instant, cycle: Instant): Row {
    row.(weekStart := Some(t), weekCycleStart := cycle, weekUsed := 0)
  }

  /** SetQuotaWeekStart, with t the parsed anchor. */
  function SetWeekStart(row: Row, t: Instant, now: Instant): Row {
    var cycle := AlignedCycleStart(t, now);
    if cycle == row.weekCycleStart then
      if row.weekStart == Some(t) then row else MoveAnchor(row, t)
    else Reanchor(row, t, cycle)
  }

  // ----- when the gate opens and what it writes, in terms of the columns

  /** A limit other than zero is reached. What belongs to another cycle, or to a month begun before the cutoff,
      does not count. */
  ghost predicate SomeLimitReached(row: Row, calls: int, cycle: Instant, monthCutoff: Instant) {
    || (row.calls5hLimit != 0 && row.calls5hUsed + calls > row.calls5hLimit)
    || (row.callsTotalLimit != 0 && row.callsTotalUsed + calls > row.callsTotalLimit)
    || (row.tokens5hLimit != 0 && row.tokens5hUsed >= row.tokens5hLimit)
    || (row.weekLimit != 0 && row.weekLimit <= if row.weekCycleStart == cycle then row.weekUsed else 0)
    || (row.monthLimit != 0 && row.monthLimit <= if row.monthStart >= monthCutoff then row.monthUsed else 0)
  }

  /** What an admission writes: the two charges, and the start of a new week or month where one is due. */
  ghost predicate AdmissionWrites(
    row: Row, after: Row, calls: int, cycle: Instant, monthCutoff: Instant, now: Instant)
  {
    && after.calls5hUsed == row.calls5hUsed + calls && after.callsTotalUsed == row.callsTotalUsed + calls
    && after.weekCycleStart == cycle
    && after.weekUsed == (if row.weekCycleStart == cycle then row.weekUsed else 0)
    && after.monthStart == (if row.monthStart >= monthCutoff then row.monthStart else now)
    && after.monthUsed == (if row.monthStart >= monthCutoff then row.monthUsed else 0)
    && row == after.(
         calls5hUsed := row.calls5hUsed, callsTotalUsed := row.callsTotalUsed, weekUsed := row.weekUsed,
         weekCycleStart := row.weekCycleStart, monthUsed := row.monthUsed, monthStart := row.monthStart)
  }

  /** The gate is refused if and only if some limit is reached, and what an exhausted week or month of the past
      holds never refuses it. */
  lemma GateRefusedIff(row: Row, calls: int, t: Ticket)
    ensures !GateOpen(row, calls, t) <==> SomeLimitReached(row, calls, t.cycle, t.monthCutoff)
    ensures GateOpen(row, calls, t) ==>
      AdmissionWrites(row, Gate(row, calls, t), calls, t.cycle, t.monthCutoff, t.stamp)
  {
  }

  // ----- what the gate does

  /** Admission respects every positive limit and hides no usage: each token bucket shows the same
      usage after the UPDATE as before it. A refused gate changes nothing. */
  lemma GateEffect(row: Row, calls: int, t: Ticket)
    requires t.monthCutoff <= t.stamp
    ensures !GateOpen(row, calls, t) ==> Gate(row, calls, t) == row
    ensures GateOpen(row, calls, t) ==>
      var after := Gate(row, calls, t);
      && (forall w: CallCounter :: CallsUsed(after, w) == CallsUsed(row, w) + calls)
      && (forall w: CallCounter :: CallsLimit(row, w) == 0 || CallsUsed(after, w) <= CallsLimit(row, w))
      && (forall b: Bucket :: TokensLimit(row, b) == 0 || TokensUsed(after, b) < TokensLimit(row, b))
      && VisibleWeek(after, t.cycle) == VisibleWeek(row, t.cycle) == TokensUsed(after, Week)
      && VisibleMonth(after, t.monthCutoff) == VisibleMonth(row, t.monthCutoff) == TokensUsed(after, Month)
      && TokensUsed(after, FiveHour) == TokensUsed(row, FiveHour)
  {
  }

  /** The gate's UPDATE with a ticket read earlier, and a later bill in the current cycle: a gate then sees the
      usage of before plus the bill if and only if the ticket's cycle is the current one, or both are nothing.
      With another cycle's ticket it sees nothing: usage is wiped, and the bill goes to a bucket with the old
      cycle's tag. */
  lemma StaleTicketLosesWeek(row: Row, calls: int, t: Ticket, now: Instant, delta: nat)
    requires GateOpen(row, calls, t)
    ensures
      var cycle := GateCycle(row.weekStart, now);
      var seen := VisibleWeek(AddTokens(Gate(row, calls, t), delta), cycle);
      && (seen == VisibleWeek(row, cycle) + delta <==> t.cycle == cycle || VisibleWeek(row, cycle) + delta == 0)
      && (t.cycle != cycle ==> seen == 0)
  {
  }

  /** A refund with nothing in between takes back exactly what admission took. */
  lemma RefundUndoesGate(row: Row, calls: int, t: Ticket)
    requires calls >= 0 && row.calls5hUsed >= 0 && row.callsTotalUsed >= 0
    requires GateOpen(row, calls, t)
    ensures forall w: CallCounter :: CallsUsed(Refund(Gate(row, calls, t), calls), w) == CallsUsed(row, w)
  {
  }

  /** "every quota gate re-opens immediately on the next request": after both resets, whatever the ticket, if
      and only if the charge of that request fits every positive call limit. */
  lemma FullResetReopensIff(row: Row, now: Instant, calls: int, t: Ticket)
    requires forall b: Bucket :: TokensLimit(row, b) >= 0
    ensures GateOpen(ResetTokens(ResetCalls(row, now), now), calls, t) <==>
      forall w: CallCounter :: CallsLimit(row, w) == 0 || calls <= CallsLimit(row, w)
  {
    assert TokensLimit(row, FiveHour) >= 0 && TokensLimit(row, Week) >= 0 && TokensLimit(row, Month) >= 0;
    if forall w: CallCounter :: CallsLimit(row, w) == 0 || calls <= CallsLimit(row, w) {
      assert CallsLimit(row, FiveHourCalls) == 0 || calls <= CallsLimit(row, FiveHourCalls);
      assert CallsLimit(row, TotalCalls) == 0 || calls <= CallsLimit(row, TotalCalls);
    }
  }

  /** A token reset starts a new week and a new month: what is billed afterwards is all a gate sees, exactly
      until a week, or thirty days, have passed. */
  lemma TokenResetStartsAfresh(row: Row, now: Instant, delta: nat, later: Instant)
    requires now <= later
    ensures
      var after := AddTokens(ResetTokens(row, now), delta);
      && TokensUsed(after, FiveHour) == delta
      && (VisibleWeek(after, GateCycle(after.weekStart, later)) == delta <==> later < now + WEEK || delta == 0)
      && (VisibleMonth(after, TicketAt(after, later).monthCutoff) == delta <==> later <= now + MONTH || delta == 0)
      && (forall w: CallCounter :: CallsUsed(after, w) == CallsUsed(row, w))
      && after.windowStart == row.windowStart
  {
  }

  // ----- the other statements, in terms of the columns

  /** A refund of back calls and a bill: counters fall by the refund but not below zero, buckets grow by the
      bill, neither counts below zero, and nothing else moves. */
  ghost predicate RowMoved(row: Row, after: Row, back: int, bill: int) {
    && after.calls5hUsed == Returned(row.calls5hUsed, back)
    && after.callsTotalUsed == Returned(row.callsTotalUsed, back)
    && after.tokens5hUsed == row.tokens5hUsed + (if bill > 0 then bill else 0)
    && after.weekUsed == row.weekUsed + (if bill > 0 then bill else 0)
    && after.monthUsed == row.monthUsed + (if bill > 0 then bill else 0)
    && row == after.(
         calls5hUsed := row.calls5hUsed, callsTotalUsed := row.callsTotalUsed,
         tokens5hUsed := row.tokens5hUsed, weekUsed := row.weekUsed, monthUsed := row.monthUsed)
  }

  ghost function Returned(used: int, back: int): int {
    if back <= 0 then used else if used < back then 0 else used - back
  }

  lemma RefundMoves(row: Row, calls: int)
    ensures RowMoved(row, Refund(row, calls), calls, 0)
  {
  }

  lemma RefundThenBill(row: Row, mid: Row, after: Row, back: int, bill: int)
    requires RowMoved(row, mid, back, 0) && RowMoved(mid, after, 0, bill)
    ensures RowMoved(row, after, back, bill)
  {
  }

  lemma BillMoves(row: Row, delta: int)
    ensures RowMoved(row, AddTokens(row, delta), 0, delta)
  {
  }

  ghost predicate WindowRestarts(row: Row, after: Row, windowStart: Instant) {
    && after.calls5hUsed == 0 && after.tokens5hUsed == 0 && after.windowStart == windowStart
    && row == after.(calls5hUsed := row.calls5hUsed, tokens5hUsed := row.tokens5hUsed, windowStart := row.windowStart)
  }

  // ----- re-anchoring

  /** The weekly bucket belongs to the new anchor's current cycle; its usage survives if and only if the
      bucket was already the bucket of that cycle (or was empty). Nothing else moves. */
  lemma SetWeekStartEffect(row: Row, t: Instant, now: Instant)
    ensures
      var after := SetWeekStart(row, t, now);
      && after.weekStart == Some(t)
      && after.weekCycleStart == AlignedCycleStart(t, now) == GateCycle(after.weekStart, now)
      && after.weekUsed == (if row.weekCycleStart == AlignedCycleStart(t, now) then row.weekUsed else 0)
      && VisibleWeek(after, GateCycle(after.weekStart, now)) == VisibleWeek(row, AlignedCycleStart(t, now))
      && after.(weekStart := row.weekStart, weekCycleStart := row.weekCycleStart, weekUsed := row.weekUsed) == row
  {
  }

  /** Two calls in one cycle of the new anchor are one call, whatever was billed in between. */
  lemma SetWeekStartTwice(row: Row, t: Instant, now1: Instant, delta: int, now2: Instant)
    requires AlignedCycleStart(t, now1) == AlignedCycleStart(t, now2)
    ensures SetWeekStart(AddTokens(SetWeekStart(row, t, now1), delta), t, now2)
         == AddTokens(SetWeekStart(row, t, now1), delta)
  {
  }

  /** Re-submitting the current anchor does not change the weekly usage a gate sees now. It changes what a
      gate sees later in one case only: usage stored for a cycle yet to come, which that later gate is in. */
  lemma ResubmitKeepsVisibleWeek(row: Row, t: Instant, now: Instant, later: Instant)
    requires row.weekStart == Some(t) && now <= later
    ensures
      var after := SetWeekStart(row, t, now);
      var cycle, next := GateCycle(row.weekStart, now), GateCycle(row.weekStart, later);
      && GateCycle(after.weekStart, now) == cycle && GateCycle(after.weekStart, later) == next
      && VisibleWeek(after, cycle) == VisibleWeek(row, cycle)
      && (VisibleWeek(after, next) != VisibleWeek(row, next) <==>
            cycle < row.weekCycleStart == next && row.weekUsed != 0)
  {
    AlignedIsMonotone(t, now, later);
  }

  /** What SetQuotaWeekStart's SELECT reads. */
  datatype Anchor = Anchor(weekStart: Option<Instant>, cycle: Instant)

  function AnchorOf(row: Row): Anchor { Anchor(row.weekStart, row.weekCycleStart) }

  /** Its UPDATE, or none, chosen by what was read, on the row as it is by then. */
  function SetWeekStartFrom(read: Anchor, row: Row, t: Instant, now: Instant): Row {
    var cycle := AlignedCycleStart(t, now);
    if cycle == read.cycle then
      if read.weekStart == Some(t) then row else MoveAnchor(row, t)
    else Reanchor(row, t, cycle)
  }

  /** The row may have changed in any way between the two statements, by gates, bills, resets or another
      administrator. Compared with the call made on the present row: the stored cycle is the new anchor's
      unless a row read in that cycle has left it; the weekly usage a gate sees is the same unless a row read
      in another cycle has entered it and been billed; and the anchor is the new one unless the call saw it in
      place already and another has been set since. */
  lemma SetWeekStartRace(read: Anchor, row: Row, t: Instant, now: Instant)
    ensures
      var cycle := AlignedCycleStart(t, now);
      var after, alone := SetWeekStartFrom(read, row, t, now), SetWeekStart(row, t, now);
      && (read == AnchorOf(row) ==> after == alone)
      && (after.weekCycleStart == cycle <==> read.cycle != cycle || row.weekCycleStart == cycle)
      && (VisibleWeek(after, cycle) == VisibleWeek(alone, cycle) <==>
            read.cycle == cycle || row.weekCycleStart != cycle || row.weekUsed == 0)
      && (after.weekStart == Some(t) <==> read != Anchor(Some(t), cycle) || row.weekStart == Some(t))
  {
  }

  // ----- window arithmetic

  lemma WindowContainsNow(now: Instant, resetHours: int)
    requires resetHours > 0
    ensures WindowStart(now, resetHours) <= now
  {
    RoundDown(Hour(now), resetHours);
    assert now / 3600 == now / DAY * 24 + Hour(now);
  }

  lemma RoundDown(h: int, d: int)
    requires d > 0
    ensures h - d < h / d * d <= h
    ensures h / d * d == h - h % d
  {
  }

  /** Compensation has nothing left to do in a window whose counters have been reset already, by
      compensation, a tick or the administrator: any later use of the row survives it. */
  lemma CompensateTwice(row: Row, used: Row, now1: Instant, now2: Instant, resetHours: int)
    requires resetHours > 0 && now1 <= now2
    requires WindowStart(now1, resetHours) == WindowStart(now2, resetHours)
    requires used.windowStart in
      {Compensate(row, now1, resetHours).windowStart, Reset5h(row, now1, resetHours).windowStart,
       ResetCalls(row, now1).windowStart}
    ensures Compensate(used, now2, resetHours) == used
  {
    WindowContainsNow(now1, resetHours);
  }
}
