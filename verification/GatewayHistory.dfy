/** What the buckets and call counters of a row hold, in terms of the recorded events. */
module GatewayHistory {
  import opened Billing
  import opened Cycles
  import opened Gateway
  import opened GatewayTokens
  import opened Ledger
  import opened Lifecycle
  import opened Sums

  // ----- events that empty a bucket or a call counter

  predicate EmptiesWindow(op: Op) { op.SchedulerTick? || op.WindowReset? || op.Compensation? }

  predicate Empties(e: Event, b: Bucket) {
    match e
    case Admission(_, _, _, newWeek, newMonth) => (b.Week? && newWeek) || (b.Month? && newMonth)
    case Billing(_, _, _) => false
    case Reset(_, op) => op.TokensReset? || (b.FiveHour? && EmptiesWindow(op)) || (b.Week? && op.AnchorReset?)
  }

  predicate EmptiesCalls(e: Event, w: CallCounter) {
    e.Reset? && (e.op.CallsReset? || (w.FiveHourCalls? && EmptiesWindow(e.op)))
  }

  /** Tokens billed since bucket b was last emptied. */
  ghost function BilledSince(events: seq<Event>, b: Bucket): nat {
    if events == [] then 0
    else
      var last := events[|events| - 1];
      if Empties(last, b) then 0
      else BilledSince(events[..|events| - 1], b) + if last.Billing? then last.amount else 0
  }

  /** Tokens billed in the whole run. */
  ghost function BilledEver(events: seq<Event>): nat {
    if events == [] then 0
    else
      var last := events[|events| - 1];
      BilledEver(events[..|events| - 1]) + if last.Billing? then last.amount else 0
  }

  /** Calls charged at admissions since counter w was last emptied. */
  ghost function AdmittedSince(events: seq<Event>, w: CallCounter): int {
    if events == [] then 0
    else
      var last := events[|events| - 1];
      if EmptiesCalls(last, w) then 0
      else AdmittedSince(events[..|events| - 1], w) + if last.Admission? then last.calls else 0
  }

  lemma HistorySnoc(events: seq<Event>, e: Event, b: Bucket, w: CallCounter)
    ensures BilledSince(events + [e], b) ==
      if Empties(e, b) then 0 else BilledSince(events, b) + if e.Billing? then e.amount else 0
    ensures BilledEver(events + [e]) == BilledEver(events) + if e.Billing? then e.amount else 0
    ensures AdmittedSince(events + [e], w) ==
      if EmptiesCalls(e, w) then 0 else AdmittedSince(events, w) + if e.Admission? then e.calls else 0
  {
    assert (events + [e])[..|events|] == events;
  }

  // ----- the buckets

  /** The bucket holds what was billed since it was emptied, and resets took out the rest. */
  ghost predicate BucketHistory(s: State, b: Bucket) {
    && TokensUsed(s.row, b) == BilledSince(s.events, b)
    && TokensUsed(s.row, b) + Wiped(s.wiped, b) == BilledEver(s.events)
  }

  /** One recorded event, or none, and the matching change of the bucket. */
  ghost predicate BucketEffect(s: State, after: State, b: Bucket) {
    || (after.events == s.events && TokensUsed(after.row, b) == TokensUsed(s.row, b)
        && Wiped(after.wiped, b) == Wiped(s.wiped, b))
    || exists e :: after.events == s.events + [e] && Explains(s, after, e, b)
  }

  ghost predicate Explains(s: State, after: State, e: Event, b: Bucket) {
    && TokensUsed(after.row, b) ==
         (if Empties(e, b) then 0 else TokensUsed(s.row, b) + if e.Billing? then e.amount else 0)
    && TokensUsed(after.row, b) + Wiped(after.wiped, b) ==
         TokensUsed(s.row, b) + Wiped(s.wiped, b) + if e.Billing? then e.amount else 0
  }

  lemma EffectKeepsHistory(s: State, after: State, b: Bucket)
    requires BucketHistory(s, b) && BucketEffect(s, after, b)
    ensures BucketHistory(after, b)
  {
    if !(after.events == s.events && TokensUsed(after.row, b) == TokensUsed(s.row, b)
         && Wiped(after.wiped, b) == Wiped(s.wiped, b)) {
      var e :| after.events == s.events + [e] && Explains(s, after, e, b);
      HistorySnoc(s.events, e, b, TotalCalls);
    }
  }

  lemma GateOnBucket(s: State, r: nat, q: Request, t: Ticket, b: Bucket)
    ensures BucketEffect(s, PassGate(s, r, q, t), b)
  {
    var calls := Calls(q.ctx.multiplier);
    if GateOpen(s.row, calls, t) {
      var e := AdmissionOf(s, calls, t);
      assert PassGate(s, r, q, t).events == s.events + [e];
      assert Explains(s, PassGate(s, r, q, t), e, b);
    }
  }

  lemma ExecuteOnBucket(s: State, r: nat, q: Request, todo: seq<Stmt>, b: Bucket)
    requires todo != []
    ensures BucketEffect(s, Execute(s, r, q, todo), b)
  {
    var stmt := todo[0];
    if stmt.BillTokens? {
      var e := Billing(s.clock, Charged(Billed(stmt.prompt, stmt.completion, q.ctx.multiplier)), q.admittedAt);
      assert Execute(s, r, q, todo).events == s.events + [e];
      assert Explains(s, Execute(s, r, q, todo), e, b);
    }
  }

  /** Moves other than an open gate and a statement leave the row, the clock and the record alone. */
  lemma QuietMove(s: State, r: nat, q: Request, move: Move)
    requires r in s.requests && s.requests[r] == q
    requires !(move.RunStmt? && q.phase.Closing? && q.phase.todo != [])
    requires !(move.ExecGate? && q.phase.GateRead? && GateOpen(s.row, Calls(q.ctx.multiplier), q.phase.ticket))
    ensures
      var after := Advance(s, r, q, move);
      && after.row == s.row && after.events == s.events && after.clock == s.clock && after.wiped == s.wiped
      && after.requests[r].deducted == q.deducted && after.requests[r].admittedAt == q.admittedAt
      && after.requests[r].refunded == q.refunded
  {
  }

  lemma AdvanceOnBucket(s: State, r: nat, q: Request, move: Move, b: Bucket)
    requires r in s.requests && s.requests[r] == q
    ensures BucketEffect(s, Advance(s, r, q, move), b)
  {
    match (move, q.phase)
    case (ExecGate, GateRead(t)) => GateOnBucket(s, r, q, t, b);
    case (RunStmt, Closing(todo)) =>
      if todo != [] { ExecuteOnBucket(s, r, q, todo, b); } else { QuietMove(s, r, q, move); }
    case _ => QuietMove(s, r, q, move);
  }

  lemma AdminOnBucket(s: State, op: Op, b: Bucket)
    ensures BucketEffect(s, Admin(s, op), b)
  {
    var after := Admin(s, op);
    if after.events != s.events {
      assert after.events == s.events + [Reset(s.clock, op)];
      assert Explains(s, after, Reset(s.clock, op), b);
    }
  }

  lemma StepHistory(s: State, a: Action, b: Bucket)
    requires BucketHistory(s, b)
    ensures BucketHistory(Step(s, a), b)
  {
    match a
    case Act(r, move) =>
      if r in s.requests {
        AdvanceOnBucket(s, r, s.requests[r], move, b);
        EffectKeepsHistory(s, Step(s, a), b);
      }
    case Do(op) =>
      AdminOnBucket(s, op, b);
      EffectKeepsHistory(s, Step(s, a), b);
    case _ =>
  }

  lemma {:induction false} RunHistory(s: State, schedule: seq<Action>, b: Bucket)
    requires BucketHistory(s, b)
    ensures BucketHistory(Run(s, schedule), b)
    decreases |schedule|
  {
    if schedule != [] {
      StepHistory(s, schedule[0], b);
      RunHistory(Step(s, schedule[0]), schedule[1..], b);
    }
  }

  /** For a fresh user, in every schedule, each bucket holds the bills since the step that last emptied it,
      and resets removed all the others. */
  lemma BucketIsBilledSince(user: int, row: Row, now: Instant, schedule: seq<Action>, b: Bucket)
    requires Fresh(row, now)
    ensures
      var s := Run(Init(user, row, now), schedule);
      && TokensUsed(s.row, b) == BilledSince(s.events, b)
      && Wiped(s.wiped, b) == BilledEver(s.events) - BilledSince(s.events, b)
  {
    RunHistory(Init(user, row, now), schedule, b);
  }

  /** No token was billed before a step that emptied b. */
  ghost predicate NothingEmptied(events: seq<Event>, b: Bucket) {
    forall i, j :: 0 <= i < j < |events| && events[i].Billing? && Empties(events[j], b) ==> events[i].amount == 0
  }

  lemma {:induction false} NothingBilledIff(events: seq<Event>)
    ensures BilledEver(events) == 0 <==> forall i :: 0 <= i < |events| && events[i].Billing? ==> events[i].amount == 0
  {
    if events != [] {
      var n := |events| - 1;
      NothingBilledIff(events[..n]);
      assert forall i :: 0 <= i < n ==> events[..n][i] == events[i];
    }
  }

  lemma {:induction false} KeptIff(events: seq<Event>, b: Bucket)
    ensures BilledSince(events, b) <= BilledEver(events)
    ensures BilledSince(events, b) == BilledEver(events) <==> NothingEmptied(events, b)
  {
    if events != [] {
      var n := |events| - 1;
      KeptIff(events[..n], b);
      NothingBilledIff(events[..n]);
      EmptiedSnoc(events, b);
    }
  }

  lemma EmptiedSnoc(events: seq<Event>, b: Bucket)
    requires events != []
    ensures
      var n := |events| - 1;
      NothingEmptied(events, b) <==>
        && NothingEmptied(events[..n], b)
        && (Empties(events[n], b) ==>
              forall i :: 0 <= i < n && events[..n][i].Billing? ==> events[..n][i].amount == 0)
  {
    var n := |events| - 1;
    assert forall i :: 0 <= i < n ==> events[..n][i] == events[i];
  }

  /** A bucket plus what is logged but not charged is the charged log of the whole run if and only if no
      token was billed before a step that emptied the bucket, that is, if resets took nothing out of it. */
  lemma BucketAgreesWithLogIff(user: int, row: Row, now: Instant, schedule: seq<Action>, b: Bucket)
    requires Fresh(row, now)
    ensures
      var s := Run(Init(user, row, now), schedule);
      && (TokensUsed(s.row, b) + Total(s, Unsettled) == SeqSum(s.logs, ChargedTo(s.user)) <==>
            NothingEmptied(s.events, b))
      && (NothingEmptied(s.events, b) <==> Wiped(s.wiped, b) == 0)
  {
    TokenConservation(user, row, now, schedule, b);
    BucketIsBilledSince(user, row, now, schedule, b);
    KeptIff(Run(Init(user, row, now), schedule).events, b);
  }

  /** The month bucket in every schedule: it agrees with the charged log exactly when no billed token was
      emptied from it, and then with the panel's sum exactly when no logged row bills below zero. */
  lemma MonthAgreesWithLog(user: int, row: Row, now: Instant, schedule: seq<Action>)
    requires Fresh(row, now)
    ensures
      var s := Run(Init(user, row, now), schedule);
      var accounted := s.row.monthUsed + Total(s, Unsettled);
      && (accounted == SeqSum(s.logs, ChargedTo(s.user)) <==> NothingEmptied(s.events, Month))
      && (NothingEmptied(s.events, Month) ==>
            (accounted == SeqSum(s.logs, BilledTo(s.user)) <==>
               forall l :: l in s.logs && l.userId == s.user ==> Billed(l.prompt, l.completion, l.multiplier) >= 0))
  {
    BucketAgreesWithLogIff(user, row, now, schedule, Month);
    var s := Run(Init(user, row, now), schedule);
    ChargedSumAgreesIff(s.logs, s.user);
  }

  // ----- the first thirty days

  lemma {:induction false} ClockMonotone(s: State, schedule: seq<Action>)
    ensures s.clock <= Run(s, schedule).clock
    decreases |schedule|
  {
    if schedule != [] {
      if schedule[0].Act? && schedule[0].r in s.requests {
        ActKeepsClock(s, schedule[0].r, s.requests[schedule[0].r], schedule[0].move);
      }
      ClockMonotone(Step(s, schedule[0]), schedule[1..]);
    }
  }

  lemma ActKeepsClock(s: State, r: nat, q: Request, move: Move)
    ensures Advance(s, r, q, move).clock == s.clock
  {
  }

  ghost predicate MonthUntouched(s: State, start: Instant) {
    && s.row.monthStart == start
    && s.wiped.month == 0
    && forall r :: r in s.requests && s.requests[r].phase.GateRead? ==> s.requests[r].phase.ticket.monthCutoff <= start
  }

  /** The actor's part of MonthUntouched. */
  ghost predicate MonthPart(s: State, q: Request, start: Instant) {
    && s.row.monthStart == start
    && s.wiped.month == 0
    && (q.phase.GateRead? ==> q.phase.ticket.monthCutoff <= start)
  }

  lemma AdvanceOnMonth(s: State, r: nat, q: Request, move: Move, start: Instant)
    requires r in s.requests && s.requests[r] == q && MonthPart(s, q, start) && s.clock <= start + MONTH
    ensures MonthPart(Advance(s, r, q, move), Advance(s, r, q, move).requests[r], start)
  {
    match move
    case ReadGate(_, _, _) =>
    case ExecGate =>
    case Respond(_) =>
    case RunStmt =>
    case _ => SlotMoveOnMonth(s, r, q, move);
  }

  lemma SlotMoveOnMonth(s: State, r: nat, q: Request, move: Move)
    requires r in s.requests && s.requests[r] == q && !IsLedgerMove(move)
    ensures
      var after := Advance(s, r, q, move);
      && after.row == s.row && after.wiped == s.wiped
      && (after.requests[r] == q || !after.requests[r].phase.GateRead?)
  {
  }

  lemma StepMonthUntouched(s: State, a: Action, start: Instant)
    requires MonthUntouched(s, start) && s.clock <= start + MONTH
    requires a.Do? ==> !a.op.TokensReset?
    ensures MonthUntouched(Step(s, a), start)
  {
    match a
    case Act(r, move) =>
      if r in s.requests {
        AdvanceOnMonth(s, r, s.requests[r], move, start);
        AdvanceWritesActor(s, r, s.requests[r], move);
      }
    case _ => StepWritesActor(s, a);
  }

  lemma {:induction false} RunMonthUntouched(s: State, schedule: seq<Action>, start: Instant)
    requires MonthUntouched(s, start) && Run(s, schedule).clock <= start + MONTH
    requires forall a :: a in schedule && a.Do? ==> !a.op.TokensReset?
    ensures MonthUntouched(Run(s, schedule), start)
    decreases |schedule|
  {
    if schedule != [] {
      ClockMonotone(s, schedule);
      StepMonthUntouched(s, schedule[0], start);
      RunMonthUntouched(Step(s, schedule[0]), schedule[1..], start);
    }
  }

  /** Without a token reset nothing is emptied from the month bucket in the first thirty days. */
  lemma ThirtyDaysKeepTheMonth(user: int, row: Row, now: Instant, schedule: seq<Action>)
    requires Fresh(row, now)
    requires forall a :: a in schedule && a.Do? ==> !a.op.TokensReset?
    requires Run(Init(user, row, now), schedule).clock <= now + MONTH
    ensures NothingEmptied(Run(Init(user, row, now), schedule).events, Month)
  {
    RunMonthUntouched(Init(user, row, now), schedule, now);
    BucketIsBilledSince(user, row, now, schedule, Month);
    KeptIff(Run(Init(user, row, now), schedule).events, Month);
  }

  // ----- the call counters

  /** Nobody was refunded since counter w was last emptied. */
  ghost predicate NoRefunds(s: State, w: CallCounter) {
    forall r :: r in s.requests ==> NotRefundedIn(s.requests[r], w, EpochOf(s.epochs, w))
  }

  ghost predicate NotRefundedIn(q: Request, w: CallCounter, epoch: nat) {
    q.refunded.Some? ==> EpochOf(q.refunded.value, w) != epoch
  }

  ghost predicate CountsAdmissions(s: State, w: CallCounter) {
    NoRefunds(s, w) ==> CallsUsed(s.row, w) == AdmittedSince(s.events, w)
  }

  /** A move leaves the epochs alone and forgets no refund; without a refund the counter follows the record. */
  ghost predicate ChargeEffect(s: State, after: State, q: Request, q': Request, w: CallCounter) {
    var epoch := EpochOf(s.epochs, w);
    && after.epochs == s.epochs
    && (NotRefundedIn(q', w, epoch) ==>
          && NotRefundedIn(q, w, epoch)
          && CallsUsed(after.row, w) - CallsUsed(s.row, w) ==
               AdmittedSince(after.events, w) - AdmittedSince(s.events, w))
  }

  lemma GateOnCharges(s: State, r: nat, q: Request, t: Ticket, w: CallCounter)
    ensures ChargeEffect(s, PassGate(s, r, q, t), q, PassGate(s, r, q, t).requests[r], w)
  {
    if GateOpen(s.row, Calls(q.ctx.multiplier), t) {
      HistorySnoc(s.events, AdmissionOf(s, Calls(q.ctx.multiplier), t), Week, w);
    }
  }

  lemma ExecuteOnCharges(s: State, r: nat, q: Request, todo: seq<Stmt>, w: CallCounter)
    requires todo != []
    ensures ChargeEffect(s, Execute(s, r, q, todo), q, Execute(s, r, q, todo).requests[r], w)
  {
    if todo[0].BillTokens? { BillOnCharges(s, r, q, todo, w); } else { OtherStmtOnCharges(s, r, q, todo, w); }
  }

  lemma BillOnCharges(s: State, r: nat, q: Request, todo: seq<Stmt>, w: CallCounter)
    requires todo != [] && todo[0].BillTokens?
    ensures
      var after := Execute(s, r, q, todo);
      && CallsUsed(after.row, w) == CallsUsed(s.row, w)
      && AdmittedSince(after.events, w) == AdmittedSince(s.events, w)
      && after.requests[r].refunded == q.refunded && after.epochs == s.epochs
  {
    var amount := Charged(Billed(todo[0].prompt, todo[0].completion, q.ctx.multiplier));
    var e := Billing(s.clock, amount, q.admittedAt);
    assert Execute(s, r, q, todo).events == s.events + [e];
    BillingAdmitsNobody(s.events, e, w);
  }

  lemma BillingAdmitsNobody(events: seq<Event>, e: Event, w: CallCounter)
    requires e.Billing?
    ensures AdmittedSince(events + [e], w) == AdmittedSince(events, w)
  {
    HistorySnoc(events, e, Week, w);
  }

  lemma OtherStmtOnCharges(s: State, r: nat, q: Request, todo: seq<Stmt>, w: CallCounter)
    requires todo != [] && !todo[0].BillTokens?
    ensures
      var after := Execute(s, r, q, todo);
      && (todo[0].LogCall? ==>
            CallsUsed(after.row, w) == CallsUsed(s.row, w) && after.requests[r].refunded == q.refunded)
      && (todo[0].RefundCalls? ==> after.requests[r].refunded == Some(s.epochs))
      && after.events == s.events && after.epochs == s.epochs
  {
  }

  lemma AdvanceOnCharges(s: State, r: nat, q: Request, move: Move, w: CallCounter)
    requires r in s.requests && s.requests[r] == q
    ensures ChargeEffect(s, Advance(s, r, q, move), q, Advance(s, r, q, move).requests[r], w)
  {
    match (move, q.phase)
    case (ExecGate, GateRead(t)) => GateOnCharges(s, r, q, t, w);
    case (RunStmt, Closing(todo)) =>
      if todo != [] { ExecuteOnCharges(s, r, q, todo, w); } else { QuietMove(s, r, q, move); }
    case _ => QuietMove(s, r, q, move);
  }

  lemma EffectCounts(s: State, after: State, r: nat, w: CallCounter)
    requires CountsAdmissions(s, w) && r in s.requests && r in after.requests
    requires after.requests == s.requests || after.requests == s.requests[r := after.requests[r]]
    requires ChargeEffect(s, after, s.requests[r], after.requests[r], w)
    ensures CountsAdmissions(after, w)
  {
    forall x | NoRefunds(after, w) && x in s.requests
      ensures NotRefundedIn(s.requests[x], w, EpochOf(s.epochs, w))
    {
      assert x in after.requests && NotRefundedIn(after.requests[x], w, EpochOf(after.epochs, w));
    }
  }

  /** A step that empties the counter starts a new epoch for it; any other leaves counter and epoch. */
  lemma AdminOnCharges(s: State, op: Op, w: CallCounter)
    requires CountsAdmissions(s, w)
    ensures CountsAdmissions(Admin(s, op), w)
  {
    HistorySnoc(s.events, Reset(s.clock, op), Week, w);
    var after := Admin(s, op);
    if !(after.events != s.events && EmptiesCalls(Reset(s.clock, op), w)) {
      assert EpochOf(after.epochs, w) == EpochOf(s.epochs, w) && after.requests == s.requests;
      assert NoRefunds(after, w) ==> NoRefunds(s, w);
    }
  }

  lemma ArrivalCounts(s: State, a: Action, w: CallCounter)
    requires CountsAdmissions(s, w) && a.Arrive?
    ensures CountsAdmissions(Step(s, a), w)
  {
    forall x | NoRefunds(Step(s, a), w) && x in s.requests
      ensures NotRefundedIn(s.requests[x], w, EpochOf(s.epochs, w))
    {
      assert x in Step(s, a).requests;
    }
  }

  lemma StepCounts(s: State, a: Action, w: CallCounter)
    requires Ok(s) && CountsAdmissions(s, w)
    ensures CountsAdmissions(Step(s, a), w)
  {
    match a
    case Act(r, move) =>
      if r in s.requests {
        AdvanceOnCharges(s, r, s.requests[r], move, w);
        AdvanceWritesActor(s, r, s.requests[r], move);
        EffectCounts(s, Step(s, a), r, w);
      }
    case Do(op) => AdminOnCharges(s, op, w);
    case Arrive(_, _, _) => ArrivalCounts(s, a, w);
    case Tick(_) => assert Step(s, a).requests == s.requests && Step(s, a).epochs == s.epochs;
  }

  lemma {:induction false} RunCounts(s: State, schedule: seq<Action>, w: CallCounter)
    requires Ok(s) && CountsAdmissions(s, w)
    ensures CountsAdmissions(Run(s, schedule), w)
    decreases |schedule|
  {
    if schedule != [] {
      StepOk(s, schedule[0]);
      StepCounts(s, schedule[0], w);
      RunCounts(Step(s, schedule[0]), schedule[1..], w);
    }
  }

  /** If nobody was refunded since the step that last emptied a call counter, such as a firing tick of the
      scheduler, the counter is exactly the calls admitted since that step. */
  lemma CounterIsAdmittedSince(user: int, row: Row, now: Instant, schedule: seq<Action>, w: CallCounter)
    requires Fresh(row, now) && NoRefunds(Run(Init(user, row, now), schedule), w)
    ensures
      var s := Run(Init(user, row, now), schedule);
      CallsUsed(s.row, w) == AdmittedSince(s.events, w)
  {
    RunCounts(Init(user, row, now), schedule, w);
  }
}
