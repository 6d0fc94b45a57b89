/** Two runs in which billed tokens leave a bucket although nobody asked for a reset. */
module GatewayLosses {
  import opened Billing
  import opened Cycles
  import opened Gateway
  import opened GatewayCalls
  import opened GatewayWeek
  import opened Ledger
  import opened Lifecycle
  import opened Sums

  /** Request r is admitted and served for one token. */
  function UseOne(r: nat): seq<Action> { Admit(r) + Serve(r, 1) }

  function Served(s: State): Request { Admitted(s).(phase := Closing([])) }

  lemma AdmitUnlimited(s: State, r: nat)
    requires r !in s.requests && Unlimited(s.row)
    ensures
      var t := TicketAt(s.row, s.clock);
      var after := Run(s, Admit(r));
      && after.row == Gate(s.row, 1, t) && Unlimited(after.row)
      && after.requests == s.requests[r := Admitted(s)]
      && after.clock == s.clock && after.user == s.user && after.logs == s.logs
  {
    CeilOne();
    UnlimitedIsOpen(s.row, 1, TicketAt(s.row, s.clock));
    AdmitEffect(s, r);
  }

  lemma UseOneEffect(s: State, r: nat)
    requires r !in s.requests && Unlimited(s.row)
    ensures
      var after := Run(s, UseOne(r));
      && after.row == AddTokens(Gate(s.row, 1, TicketAt(s.row, s.clock)), 1) && Unlimited(after.row)
      && after.requests == s.requests[r := Served(s)]
      && after.clock == s.clock && after.user == s.user
      && after.logs == s.logs + [LogRowOf(Admitted(s).ctx, 1, 0, 200, s.clock)]
  {
    AdmitUnlimited(s, r);
    var s1 := Run(s, Admit(r));
    RunAppend(s, Admit(r), Serve(r, 1));
    BilledOne();
    ServeEffect(s1, r, 1);
    AddKeepsUnlimited(s1.row, 1);
  }

  lemma BillInNewWeek(row: Row, now: Instant)
    requires Fresh(row, now) && Unlimited(row)
    ensures
      var billed := AddTokens(Gate(row, 1, TicketAt(row, now + WEEK)), 1);
      billed.weekStart == Some(now) && billed.weekCycleStart == now + WEEK && billed.weekUsed == 1
  {
    assert TokensUsed(row, Week) == 0;
    UnlimitedIsOpen(row, 1, TicketAt(row, now + WEEK));
  }

  lemma GateInNewMonth(row: Row, now: Instant)
    requires Fresh(row, now) && Unlimited(row)
    ensures
      var billed := AddTokens(Gate(row, 1, TicketAt(row, now)), 1);
      Gate(billed, 1, TicketAt(billed, now + MONTH + 1)).monthUsed == 0
  {
    var billed := AddTokens(Gate(row, 1, TicketAt(row, now)), 1);
    UnlimitedIsOpen(row, 1, TicketAt(row, now));
    AddKeepsUnlimited(Gate(row, 1, TicketAt(row, now)), 1);
    UnlimitedIsOpen(billed, 1, TicketAt(billed, now + MONTH + 1));
  }

  /** "Re-submitting the SAME weekly anchor must NOT wipe the in-progress weekly Token usage": in a new week the
      call reads last week's cycle, a request is admitted and billed, and the UPDATE wipes the bill. */
  lemma ResubmitWipesBill(user: int, row: Row, now: Instant, r: nat) returns (schedule: seq<Action>)
    requires Fresh(row, now) && Unlimited(row)
    ensures schedule == ([Tick(now + WEEK)] + UseOne(r)) + [Do(AnchorReset(now, now + WEEK))]
    ensures
      var read := Run(Init(user, row, now), [Tick(now + WEEK)]);
      var billed := Run(Init(user, row, now), [Tick(now + WEEK)] + UseOne(r));
      var s := Run(Init(user, row, now), schedule);
      && read.row.weekStart == billed.row.weekStart == s.row.weekStart == Some(now)
      && s.row == SetWeekStartFrom(AnchorOf(read.row), billed.row, now, now + WEEK)
      && VisibleWeek(billed.row, GateCycle(Some(now), billed.clock)) == 1
      && VisibleWeek(s.row, GateCycle(Some(now), s.clock)) == 0
  {
    var s0 := Init(user, row, now);
    schedule := ([Tick(now + WEEK)] + UseOne(r)) + [Do(AnchorReset(now, now + WEEK))];
    RunOne(s0, Tick(now + WEEK));
    var s1 := Run(s0, [Tick(now + WEEK)]);
    UseOneEffect(s1, r);
    BillInNewWeek(row, now);
    RunAppend(s0, [Tick(now + WEEK)], UseOne(r));
    var s2 := Run(s1, UseOne(r));
    RunAppend(s0, [Tick(now + WEEK)] + UseOne(r), [Do(AnchorReset(now, now + WEEK))]);
    RunOne(s2, Do(AnchorReset(now, now + WEEK)));
  }

  lemma TwoServed(s: State, a: nat, b: nat, first: Request, second: Request)
    requires s.requests == map[][a := first][b := second]
    requires first.phase == Closing([]) && second.phase.Upstream?
    ensures Total(s, Unsettled) == 0
  {
    SumZero(s.requests, Weigh(Unsettled));
  }

  lemma OneRow(logs: seq<LogRow>, l: LogRow, user: int)
    requires logs == [l] && l.userId == user && Billed(l.prompt, l.completion, l.multiplier) == 1
    ensures SeqSum(logs, ChargedTo(user)) == 1
  {
    assert logs == [] + [l];
    SeqSumSnoc([], l, ChargedTo(user));
  }

  lemma LateAdmission(s: State, to: Instant, r: nat)
    requires r !in s.requests && Unlimited(s.row) && s.clock <= to
    ensures
      var after := Run(s, [Tick(to)] + Admit(r));
      && after.row == Gate(s.row, 1, TicketAt(s.row, to)) && after.logs == s.logs
      && r in after.requests && after.requests[r].phase.Upstream?
      && after.requests == s.requests[r := after.requests[r]]
  {
    RunAppend(s, [Tick(to)], Admit(r));
    RunOne(s, Tick(to));
    AdmitUnlimited(s.(clock := to), r);
  }

  /** More than thirty days after a user's creation the next gate empties the month bucket, and the bucket no
      longer agrees with the log, without any token reset. */
  lemma MonthLeavesTheLog(user: int, row: Row, now: Instant, a: nat, b: nat) returns (schedule: seq<Action>)
    requires Fresh(row, now) && Unlimited(row) && a != b
    ensures schedule == UseOne(a) + ([Tick(now + MONTH + 1)] + Admit(b))
    ensures
      var s := Run(Init(user, row, now), schedule);
      && s.row.monthUsed == 0 && Total(s, Unsettled) == 0
      && SeqSum(s.logs, ChargedTo(user)) == 1
  {
    var s0 := Init(user, row, now);
    schedule := UseOne(a) + ([Tick(now + MONTH + 1)] + Admit(b));
    UseOneEffect(s0, a);
    var s1 := Run(s0, UseOne(a));
    RunAppend(s0, UseOne(a), [Tick(now + MONTH + 1)] + Admit(b));
    LateAdmission(s1, now + MONTH + 1, b);
    GateInNewMonth(row, now);
    var s := Run(s1, [Tick(now + MONTH + 1)] + Admit(b));
    TwoServed(s, a, b, Served(s0), s.requests[b]);
    BilledOne();
    OneRow(s.logs, LogRowOf(Admitted(s0).ctx, 1, 0, 200, now), user);
  }
}
