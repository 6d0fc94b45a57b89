/** The five-hour window over whole runs: what its counters hold after a window boundary. */
module GatewayWindow {
  import opened Billing
  import opened Cycles
  import opened Gateway
  import opened GatewayCalls
  import opened GatewayHistory
  import opened Ledger
  import opened Lifecycle
  import opened Scheduling

  /** Tokens billed at or after b. */
  ghost function BilledFrom(events: seq<Event>, b: Instant): nat {
    if events == [] then 0
    else
      var last := events[|events| - 1];
      BilledFrom(events[..|events| - 1], b) + if last.Billing? && last.at >= b then last.amount else 0
  }

  /** Calls charged at admissions at or after b. */
  ghost function AdmittedFrom(events: seq<Event>, b: Instant): int {
    if events == [] then 0
    else
      var last := events[|events| - 1];
      AdmittedFrom(events[..|events| - 1], b) + if last.Admission? && last.at >= b then last.calls else 0
  }

  lemma FromSnoc(events: seq<Event>, e: Event, b: Instant)
    ensures BilledFrom(events + [e], b) == BilledFrom(events, b) + if e.Billing? && e.at >= b then e.amount else 0
    ensures AdmittedFrom(events + [e], b) == AdmittedFrom(events, b) + if e.Admission? && e.at >= b then e.calls else 0
  {
    assert (events + [e])[..|events|] == events;
  }

  /** The counters hold nothing older than b. */
  ghost predicate NothingOlder(s: State, b: Instant) {
    && 0 <= s.row.calls5hUsed <= AdmittedFrom(s.events, b)
    && s.row.tokens5hUsed <= BilledFrom(s.events, b)
  }

  lemma GateOnWindow(s: State, r: nat, q: Request, t: Ticket, b: Instant)
    requires RequestOk(s, q) && q.phase == GateRead(t)
    ensures AdmittedFrom(PassGate(s, r, q, t).events, b) >= AdmittedFrom(s.events, b)
    ensures NothingOlder(s, b) && s.clock >= b ==> NothingOlder(PassGate(s, r, q, t), b)
  {
    var calls := Calls(q.ctx.multiplier);
    if GateOpen(s.row, calls, t) {
      assert PassGate(s, r, q, t).events == s.events + [AdmissionOf(s, calls, t)];
      FromSnoc(s.events, AdmissionOf(s, calls, t), b);
    }
  }

  lemma ExecuteOnWindow(s: State, r: nat, q: Request, todo: seq<Stmt>, b: Instant)
    requires RequestOk(s, q) && q.phase == Closing(todo) && todo != []
    ensures AdmittedFrom(Execute(s, r, q, todo).events, b) >= AdmittedFrom(s.events, b)
    ensures NothingOlder(s, b) && s.clock >= b ==> NothingOlder(Execute(s, r, q, todo), b)
  {
    var stmt := todo[0];
    assert Refunds(todo) == (if stmt.RefundCalls? then 1 else 0) + Refunds(todo[1..]);
    if stmt.BillTokens? {
      var amount := Charged(Billed(stmt.prompt, stmt.completion, q.ctx.multiplier));
      assert Execute(s, r, q, todo).events == s.events + [Billing(s.clock, amount, q.admittedAt)];
      FromSnoc(s.events, Billing(s.clock, amount, q.admittedAt), b);
    }
  }

  lemma AdvanceOnWindow(s: State, r: nat, q: Request, move: Move, b: Instant)
    requires r in s.requests && s.requests[r] == q && RequestOk(s, q)
    ensures AdmittedFrom(Advance(s, r, q, move).events, b) >= AdmittedFrom(s.events, b)
    ensures NothingOlder(s, b) && s.clock >= b ==> NothingOlder(Advance(s, r, q, move), b)
  {
    match (move, q.phase)
    case (ExecGate, GateRead(t)) => GateOnWindow(s, r, q, t, b);
    case (RunStmt, Closing(todo)) =>
      if todo != [] { ExecuteOnWindow(s, r, q, todo, b); } else { QuietMove(s, r, q, move); }
    case _ => QuietMove(s, r, q, move);
  }

  /** Every operation of the scheduler and the administrator lowers the counters or leaves them. */
  lemma AdminOnWindow(s: State, op: Op, b: Instant)
    requires AdmittedFrom(s.events, b) >= 0
    ensures AdmittedFrom(Admin(s, op).events, b) == AdmittedFrom(s.events, b)
    ensures NothingOlder(s, b) ==> NothingOlder(Admin(s, op), b)
    ensures op.SchedulerTick? && op.resetHours > 0 && Fires(s.clock, op.resetHours) ==> NothingOlder(Admin(s, op), b)
  {
    FromSnoc(s.events, Reset(s.clock, op), b);
  }

  lemma StepOnWindow(s: State, a: Action, b: Instant)
    requires Ok(s) && AdmittedFrom(s.events, b) >= 0
    ensures AdmittedFrom(Step(s, a).events, b) >= 0 && Step(s, a).clock >= s.clock
    ensures NothingOlder(s, b) && s.clock >= b ==> NothingOlder(Step(s, a), b)
    ensures a.Do? && a.op.SchedulerTick? && a.op.resetHours > 0 && Fires(s.clock, a.op.resetHours) ==>
      NothingOlder(Step(s, a), b)
  {
    match a
    case Act(r, move) =>
      if r in s.requests {
        AdvanceOnWindow(s, r, s.requests[r], move, b);
        ActKeepsClock(s, r, s.requests[r], move);
      }
    case Do(op) => AdminOnWindow(s, op, b);
    case _ =>
  }

  lemma {:induction false} RunOnWindow(s: State, schedule: seq<Action>, b: Instant)
    requires Ok(s) && AdmittedFrom(s.events, b) >= 0 && NothingOlder(s, b) && s.clock >= b
    ensures NothingOlder(Run(s, schedule), b)
    decreases |schedule|
  {
    if schedule != [] {
      StepOk(s, schedule[0]);
      StepOnWindow(s, schedule[0], b);
      RunOnWindow(Step(s, schedule[0]), schedule[1..], b);
    }
  }

  /** The instants at which the scheduler ticks. */
  ghost function TicksOf(s: State, schedule: seq<Action>, resetHours: int): seq<Instant>
    decreases |schedule|
  {
    if schedule == [] then []
    else
      (if schedule[0] == Do(SchedulerTick(resetHours)) then [s.clock] else [])
      + TicksOf(Step(s, schedule[0]), schedule[1..], resetHours)
  }

  lemma {:induction false} NothingOlderThanTick(
    s: State, schedule: seq<Action>, t: Instant, b: Instant, resetHours: int)
    requires Ok(s) && AdmittedFrom(s.events, b) >= 0 && resetHours > 0
    requires t in TicksOf(s, schedule, resetHours) && Fires(t, resetHours) && t >= b
    ensures NothingOlder(Run(s, schedule), b)
    decreases |schedule|
  {
    var next := Step(s, schedule[0]);
    StepOk(s, schedule[0]);
    StepOnWindow(s, schedule[0], b);
    if schedule[0] == Do(SchedulerTick(resetHours)) && s.clock == t {
      RunOnWindow(next, schedule[1..], b);
    } else {
      NothingOlderThanTick(next, schedule[1..], t, b, resetHours);
    }
  }

  /** If the scheduler ticks at most a minute apart around a window boundary, the five-hour counters hold
      nothing admitted or billed before that boundary, whatever else requests, the scheduler, compensation
      and the administrator did before or after, and whatever the row held at first. */
  lemma NothingOlderThanBoundary(
    user: int, row: Row, now: Instant, schedule: seq<Action>, b: Instant, resetHours: int)
    requires resetHours > 0 && IsBoundary(b, resetHours)
    requires
      var ticks := TicksOf(Init(user, row, now), schedule, resetHours);
      TicksOften(ticks) && |ticks| > 0 && ticks[0] <= b <= ticks[|ticks| - 1]
    ensures
      var s := Run(Init(user, row, now), schedule);
      && 0 <= s.row.calls5hUsed <= AdmittedFrom(s.events, b)
      && s.row.tokens5hUsed <= BilledFrom(s.events, b)
  {
    var s0 := Init(user, row, now);
    var t := NoBoundaryMissed(TicksOf(s0, schedule, resetHours), b, resetHours);
    NothingOlderThanTick(s0, schedule, t, b, resetHours);
  }

  /** A charge survives a tick if and only if that tick is outside every boundary minute. */
  lemma ChargeSurvivesTickIff(s: State, resetHours: int)
    requires resetHours > 0 && s.row.calls5hUsed > 0
    ensures Step(s, Do(SchedulerTick(resetHours))).row.calls5hUsed == s.row.calls5hUsed <==>
      !exists b :: IsBoundary(b, resetHours) && b <= s.clock < b + 60
  {
    FiresInBoundaryMinute(s.clock, resetHours);
  }

  // ----- two ticks in one boundary minute

  /** Tick, admit one request, tick again half a minute later. */
  function TwoTicks(r: nat, b: Instant, resetHours: int): seq<Action> {
    [Do(SchedulerTick(resetHours))] + (Admit(r) + ([Tick(b + 30)] + [Do(SchedulerTick(resetHours))]))
  }

  lemma AdmitOpen(s: State, r: nat)
    requires r !in s.requests && GateOpen(s.row, 1, TicketAt(s.row, s.clock))
    ensures
      var after := Run(s, Admit(r));
      && after.row == Gate(s.row, 1, TicketAt(s.row, s.clock)) && after.clock == s.clock
      && after.events == s.events + [AdmissionOf(s, 1, TicketAt(s.row, s.clock))]
  {
    CeilOne();
    AdmitEffect(s, r);
  }

  lemma LateTick(s: State, b: Instant, resetHours: int)
    requires resetHours > 0 && IsBoundary(b, resetHours) && s.clock == b
    ensures
      var after := Run(s, [Tick(b + 30)] + [Do(SchedulerTick(resetHours))]);
      && after.row == Reset5h(s.row, b + 30, resetHours)
      && after.events == s.events + [Reset(b + 30, SchedulerTick(resetHours))]
  {
    FiresInBoundaryMinute(b + 30, resetHours);
    RunAppend(s, [Tick(b + 30)], [Do(SchedulerTick(resetHours))]);
    RunOne(s, Tick(b + 30));
    RunOne(s.(clock := b + 30), Do(SchedulerTick(resetHours)));
  }

  /** The scheduler checks twice a minute, so a boundary minute is reset twice: a call admitted between the
      two resets belongs to the new window and is lost from its counter. */
  lemma SecondTickWipesNewCalls(user: int, row: Row, b: Instant, resetHours: int, r: nat)
    requires resetHours > 0 && IsBoundary(b, resetHours)
    requires GateOpen(Reset5h(row, b, resetHours), 1, TicketAt(row, b))
    ensures
      var s := Run(Init(user, row, b), TwoTicks(r, b, resetHours));
      s.row.calls5hUsed == 0 && AdmittedFrom(s.events, b) == 1
  {
    var s0 := Init(user, row, b);
    var tick := Do(SchedulerTick(resetHours));
    FiresInBoundaryMinute(b, resetHours);
    RunAppend(s0, [tick], Admit(r) + ([Tick(b + 30)] + [tick]));
    RunOne(s0, tick);
    var s1 := Step(s0, tick);
    AdmitOpen(s1, r);
    RunAppend(s1, Admit(r), [Tick(b + 30)] + [tick]);
    var s2 := Run(s1, Admit(r));
    LateTick(s2, b, resetHours);
    OneAdmission(s1, s2, b, resetHours);
  }

  lemma OneAdmission(s1: State, s2: State, b: Instant, resetHours: int)
    requires s1.events == [Reset(b, SchedulerTick(resetHours))] && s1.clock == b
    requires s2.events == s1.events + [AdmissionOf(s1, 1, TicketAt(s1.row, b))]
    ensures AdmittedFrom(s2.events + [Reset(b + 30, SchedulerTick(resetHours))], b) == 1
  {
    FromSnoc(s2.events, Reset(b + 30, SchedulerTick(resetHours)), b);
    FromSnoc(s1.events, AdmissionOf(s1, 1, TicketAt(s1.row, b)), b);
    FromSnoc([], Reset(b, SchedulerTick(resetHours)), b);
    assert s1.events == [] + [Reset(b, SchedulerTick(resetHours))];
  }
}
