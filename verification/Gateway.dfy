/** The gateway for one user as a step system. Every atomic counter operation and every SQL statement
    is one step; a schedule is any sequence of steps of any number of requests, the scheduler and the
    administrator. A step that is not enabled leaves the state as it is, so every schedule is a run. */
module Gateway {
  import opened Billing
  import opened Cycles
  import opened Ledger
  import opened Lifecycle
  import opened Sums

  /** The deferred release gives back whatever the slot is: nothing was counted for a free one. */
  datatype Slot = NoSlot | FreeSlot | HeldSlot

  datatype Phase =
    | Arrived
    | Loaded                        // the user's counter exists
    | Added(count: int)             // AddInt64(+1) returned count
    | Slotted
    | GateRead(ticket: Ticket)
    | Upstream
    | Closing(todo: seq<Stmt>)      // these statements, then the release
    | Done

  /** How often each call counter had been reset. */
  datatype Epochs = Epochs(fiveHour: nat, total: nat)

  datatype Request = Request(
    kind: Kind, max: int, slot: Slot, phase: Phase, ctx: Ctx,
    deducted: Option<Epochs>, refunded: Option<Epochs>, admittedAt: Instant)

  /** What the run records: an admission with its ticket's cycle, its charge and the buckets the gate
      emptied on the way, a bill, and a step that emptied buckets or call counters. */
  datatype Event =
    | Admission(at: Instant, cycle: Instant, calls: int, newWeek: bool, newMonth: bool)
    | Billing(at: Instant, amount: nat, admittedAt: Instant)
    | Reset(at: Instant, op: Op)

  /** Tokens removed from each bucket by resets. */
  datatype Tally = Tally(fiveHour: int, week: int, month: int)

  /** counter, row, logs and requests are the real state; the other fields record the run. */
  datatype State = State(
    user: int, counter: Option<int>, row: Row, logs: seq<LogRow>, requests: map<nat, Request>, clock: Instant,
    phantoms: nat, epochs: Epochs, wiped: Tally, events: seq<Event>)

  datatype Move =
    | LoadCounter
    | AddOne
    | Compare
    | Bail
    | ReadGate(model: string, provider: string, multiplier: real)
    | ExecGate
    | Respond(outcome: Outcome)
    | RunStmt
    | Release

  datatype Op =
    | SchedulerTick(resetHours: int)  // resets the window in a boundary minute only
    | WindowReset(resetHours: int)    // a reset whose own clock reading comes later than the tick's
    | Compensation(resetHours: int)
    | CallsReset
    | TokensReset
    | AnchorMove(t: Instant)
    | AnchorReset(t: Instant, cycle: Instant)
    | NewLimits(calls5h: int, callsTotal: int, tokens5h: int, week: int, month: int)

  datatype Action =
    | Arrive(r: nat, kind: Kind, max: int)
    | Act(r: nat, move: Move)
    | Tick(to: Instant)
    | Do(op: Op)

  function Init(user: int, row: Row, now: Instant): State {
    State(user, None, row, [], map[], now, 0, Epochs(0, 0), Tally(0, 0, 0), [])
  }

  function Step(s: State, a: Action): State {
    match a
    case Arrive(r, kind, max) =>
      if r in s.requests then s
      else Put(s, r, Request(kind, max, NoSlot, Arrived, Ctx(s.user, "", "", 0.0), None, None, 0))
    case Act(r, move) => if r in s.requests then Advance(s, r, s.requests[r], move) else s
    case Tick(to) => if to < s.clock then s else s.(clock := to)
    case Do(op) => Admin(s, op)
  }

  function Run(s: State, schedule: seq<Action>): State
    decreases |schedule|
  {
    if schedule == [] then s else Run(Step(s, schedule[0]), schedule[1..])
  }

  /** No step of the schedule changes a limit. */
  ghost predicate FixedLimits(schedule: seq<Action>) {
    forall a :: a in schedule && a.Do? ==> !a.op.NewLimits?
  }

  lemma {:induction false} RunAppend(s: State, first: seq<Action>, second: seq<Action>)
    ensures Run(s, first + second) == Run(Run(s, first), second)
    decreases |first|
  {
    if first == [] {
      assert first + second == second;
    } else {
      assert (first + second)[1..] == first[1..] + second;
      RunAppend(Step(s, first[0]), first[1..], second);
    }
  }

  lemma RunPieces(s: State, p1: seq<Action>, p2: seq<Action>, p3: seq<Action>, p4: seq<Action>, p5: seq<Action>)
    ensures Run(s, p1 + (p2 + (p3 + (p4 + p5)))) == Run(Run(Run(Run(Run(s, p1), p2), p3), p4), p5)
  {
    RunAppend(s, p1, p2 + (p3 + (p4 + p5)));
    RunAppend(Run(s, p1), p2, p3 + (p4 + p5));
    RunAppend(Run(Run(s, p1), p2), p3, p4 + p5);
    RunAppend(Run(Run(Run(s, p1), p2), p3), p4, p5);
  }

  lemma RunOne(s: State, a: Action)
    ensures Run(s, [a]) == Step(s, a)
  {
    assert [a][1..] == [];
  }

  function Put(s: State, r: nat, q: Request): State {
    s.(requests := s.requests[r := q])
  }

  // ----- requests

  function Advance(s: State, r: nat, q: Request, move: Move): State {
    match move
    case ReadGate(model, provider, multiplier) => AdvanceLedger(s, r, q, move)
    case ExecGate => AdvanceLedger(s, r, q, move)
    case Respond(outcome) => AdvanceLedger(s, r, q, move)
    case RunStmt => AdvanceLedger(s, r, q, move)
    case _ => AdvanceSlot(s, r, q, move)
  }

  /** Entering and leaving: tryAcquireConcurrency operation by operation, early exits, the release. */
  function AdvanceSlot(s: State, r: nat, q: Request, move: Move): State {
    match (move, q.phase)
    case (LoadCounter, Arrived) =>
      if q.max <= 0 then Put(s, r, q.(slot := FreeSlot, phase := Slotted))
      else Put(s.(counter := if s.counter.None? then Some(0) else s.counter), r, q.(phase := Loaded))
    case (AddOne, Loaded) =>
      if s.counter.None? then s
      else Put(s.(counter := Some(s.counter.value + 1)), r, q.(phase := Added(s.counter.value + 1)))
    case (Compare, Added(count)) =>
      if count <= q.max then Put(s, r, q.(slot := HeldSlot, phase := Slotted))
      else if s.counter.None? then s
      else Put(s.(counter := Some(s.counter.value - 1)), r, q.(phase := Closing(AfterRefusedSlot(q.kind))))
    case (Bail, Slotted) => Put(s, r, q.(phase := Closing([])))
    case (Release, Closing(todo)) => if todo == [] then Leave(s, r, q) else s
    case _ => s
  }

  /** The statements on the two tables. */
  function AdvanceLedger(s: State, r: nat, q: Request, move: Move): State {
    match (move, q.phase)
    case (ReadGate(model, provider, multiplier), Slotted) =>
      if multiplier <= 0.0 then s
      else Put(s, r, q.(ctx := Ctx(s.user, model, provider, multiplier), phase := GateRead(TicketAt(s.row, s.clock))))
    case (ExecGate, GateRead(ticket)) => PassGate(s, r, q, ticket)
    case (Respond(outcome), Upstream) =>
      if Possible(q.kind, outcome) then Put(s, r, q.(phase := Closing(Program(q.kind, outcome)))) else s
    case (RunStmt, Closing(todo)) => if todo == [] then s else Execute(s, r, q, todo)
    case _ => s
  }

  function PassGate(s: State, r: nat, q: Request, t: Ticket): State {
    var calls := Calls(q.ctx.multiplier);
    if !GateOpen(s.row, calls, t) then Put(s, r, q.(phase := Closing(AfterRefusedGate())))
    else
      Put(s, r, q.(phase := Upstream, deducted := Some(s.epochs), admittedAt := s.clock)).(
        row := Gate(s.row, calls, t),
        wiped := s.wiped.(
          week := s.wiped.week + if s.row.weekCycleStart != t.cycle then s.row.weekUsed else 0,
          month := s.wiped.month + if s.row.monthStart < t.monthCutoff then s.row.monthUsed else 0),
        events := s.events + [AdmissionOf(s, calls, t)])
  }

  function AdmissionOf(s: State, calls: int, t: Ticket): Event {
    Admission(s.clock, t.cycle, calls, s.row.weekCycleStart != t.cycle, s.row.monthStart < t.monthCutoff)
  }

  function Execute(s: State, r: nat, q: Request, todo: seq<Stmt>): State
    requires todo != []
  {
    var stmt := todo[0];
    var rest := q.(phase := Closing(todo[1..]));
    Put(s, r, if stmt.RefundCalls? then rest.(refunded := Some(s.epochs)) else rest).(
      row := StmtOnRow(s.row, q.ctx, stmt),
      logs := StmtOnLogs(s.logs, q.ctx, stmt, s.clock),
      events := if !stmt.BillTokens? then s.events
                else s.events + [Billing(s.clock, Charged(Billed(stmt.prompt, stmt.completion, q.ctx.multiplier)),
                                         q.admittedAt)])
  }

  /** The deferred release. A free slot still decrements a counter that some other request created. */
  function Leave(s: State, r: nat, q: Request): State {
    var done := q.(slot := NoSlot, phase := Done);
    if q.slot.NoSlot? || s.counter.None? then Put(s, r, done)
    else
      Put(s, r, done).(
        counter := Some(s.counter.value - 1),
        phantoms := s.phantoms + if q.slot.FreeSlot? then 1 else 0)
  }

  // ----- scheduler and administrator

  function Admin(s: State, op: Op): State {
    match op
    case SchedulerTick(h) =>
      if h <= 0 || !Fires(s.clock, h) then s else WindowEmptied(s, op, Reset5h(s.row, s.clock, h))
    case WindowReset(h) => if h <= 0 then s else WindowEmptied(s, op, Reset5h(s.row, s.clock, h))
    case Compensation(h) =>
      if h <= 0 || Compensate(s.row, s.clock, h) == s.row then s
      else WindowEmptied(s, op, Compensate(s.row, s.clock, h))
    case CallsReset =>
      Recorded(s, op).(
        row := ResetCalls(s.row, s.clock), epochs := Epochs(s.epochs.fiveHour + 1, s.epochs.total + 1))
    case TokensReset =>
      Recorded(s, op).(
         row := ResetTokens(s.row, s.clock),
         wiped := Tally(s.wiped.fiveHour + s.row.tokens5hUsed, s.wiped.week + s.row.weekUsed,
                        s.wiped.month + s.row.monthUsed))
    case AnchorMove(t) => s.(row := MoveAnchor(s.row, t))
    case AnchorReset(t, cycle) =>
      Recorded(s, op).(row := Reanchor(s.row, t, cycle), wiped := s.wiped.(week := s.wiped.week + s.row.weekUsed))
    case NewLimits(c5, ct, t5, w, m) =>
      s.(row := s.row.(calls5hLimit := c5, callsTotalLimit := ct, tokens5hLimit := t5, weekLimit := w, monthLimit := m))
  }

  function Recorded(s: State, op: Op): State {
    s.(events := s.events + [Reset(s.clock, op)])
  }

  function WindowEmptied(s: State, op: Op, row: Row): State {
    Recorded(s, op).(
       row := row,
       epochs := s.epochs.(fiveHour := s.epochs.fiveHour + 1),
       wiped := s.wiped.(fiveHour := s.wiped.fiveHour + s.row.tokens5hUsed))
  }

  // ----- sums over the requests

  /** What a request adds to the quantities the invariants speak about. */
  datatype Weight =
    | Occupies                              // its +1 is in the counter
    | Holds                                 // it has been granted a counted slot
    | Awaits                                // it was refused and has not rolled back yet
    | Attempted                             // it has executed its AddInt64(+1)
    | InFlight                              // it may still bill
    | Exposes(limit: int)                   // the most it may still bill
    | Owes(w: CallCounter, epoch: nat)      // calls deducted in this epoch and not refunded
    | Straddles(w: CallCounter, epoch: nat) // calls refunded in this epoch but deducted in an earlier one
    | Unsettled                             // tokens logged and not yet charged

  function EpochOf(e: Epochs, w: CallCounter): nat {
    match w
    case FiveHourCalls => e.fiveHour
    case TotalCalls => e.total
  }

  ghost predicate MayBill(q: Request) {
    q.phase.Upstream? || (q.phase.Closing? && Bills(q.phase.todo) > 0)
  }

  ghost predicate Granted(q: Request) {
    q.slot.HeldSlot? || (q.phase.Added? && q.phase.count <= q.max)
  }

  ghost function WeightOf(k: Weight, q: Request): int {
    match k
    case Occupies => if q.slot.HeldSlot? || q.phase.Added? then 1 else 0
    case Holds => if Granted(q) then 1 else 0
    case Awaits => if q.phase.Added? && q.phase.count > q.max then 1 else 0
    case Attempted => if q.slot.HeldSlot? || !(q.phase.Arrived? || q.phase.Loaded?) then 1 else 0
    case InFlight => if MayBill(q) then 1 else 0
    case Exposes(limit) => if MayBill(q) then limit else 0
    case Owes(w, epoch) =>
      if q.deducted.Some? && q.refunded.None? && EpochOf(q.deducted.value, w) == epoch
      then Calls(q.ctx.multiplier) else 0
    case Straddles(w, epoch) =>
      if q.deducted.Some? && q.refunded.Some? && EpochOf(q.refunded.value, w) == epoch
         && EpochOf(q.deducted.value, w) != epoch
      then Calls(q.ctx.multiplier) else 0
    case Unsettled => if q.phase.Closing? then Balance(q.phase.todo, q.ctx.multiplier) else 0
  }

  ghost function Weigh(k: Weight): Request -> int { q => WeightOf(k, q) }

  ghost function Total(s: State, k: Weight): int { Sum(s.requests, Weigh(k)) }

  /** The request a step may write. */
  function Actor(a: Action): nat {
    match a
    case Arrive(r, _, _) => r
    case Act(r, _) => r
    case _ => 0
  }

  ghost function ActorWeight(s: State, a: Action, k: Weight): int {
    if Actor(a) in s.requests then WeightOf(k, s.requests[Actor(a)]) else 0
  }

  /** A step writes at most its actor's entry, so each sum moves by the actor's weight alone. */
  lemma StepTotal(s: State, a: Action, k: Weight)
    ensures Total(Step(s, a), k) == Total(s, k) + ActorWeight(Step(s, a), a, k) - ActorWeight(s, a, k)
  {
    var after := Step(s, a);
    StepWritesActor(s, a);
    if after.requests != s.requests {
      SumWrite(s.requests, Weigh(k), Actor(a), after.requests[Actor(a)]);
    }
  }

  lemma ActTotal(s: State, r: nat, move: Move, k: Weight)
    requires r in s.requests
    ensures
      var after := Advance(s, r, s.requests[r], move);
      && r in after.requests
      && Total(after, k) == Total(s, k) + WeightOf(k, after.requests[r]) - WeightOf(k, s.requests[r])
  {
    AdvanceWritesActor(s, r, s.requests[r], move);
    WriteTotal(s, Advance(s, r, s.requests[r], move), r, k);
  }

  lemma WriteTotal(s: State, after: State, r: nat, k: Weight)
    requires r in s.requests && r in after.requests
    requires after.requests == s.requests || after.requests == s.requests[r := after.requests[r]]
    ensures Total(after, k) == Total(s, k) + WeightOf(k, after.requests[r]) - WeightOf(k, s.requests[r])
  {
    if after.requests != s.requests {
      SumWrite(s.requests, Weigh(k), r, after.requests[r]);
    }
  }

  lemma StepWritesActor(s: State, a: Action)
    ensures Step(s, a).requests == s.requests ||
      (Actor(a) in Step(s, a).requests && Step(s, a).requests == s.requests[Actor(a) := Step(s, a).requests[Actor(a)]])
  {
    if a.Act? && a.r in s.requests { AdvanceWritesActor(s, a.r, s.requests[a.r], a.move); }
  }

  lemma AdvanceWritesActor(s: State, r: nat, q: Request, move: Move)
    ensures
      var after := Advance(s, r, q, move).requests;
      after == s.requests || (r in after && after == s.requests[r := after[r]])
  {
  }

  // ----- well-formedness

  ghost predicate Before(e: Epochs, now: Epochs) {
    e.fiveHour <= now.fiveHour && e.total <= now.total
  }

  ghost predicate RequestOk(s: State, q: Request) {
    && q.ctx.user == s.user
    && (q.phase.Loaded? || q.phase.Added? || q.slot.HeldSlot? ==> s.counter.Some? && q.max >= 1)
    && (q.slot.FreeSlot? ==> q.max <= 0)
    && (q.deducted.Some? ==> q.ctx.multiplier > 0.0 && Before(q.deducted.value, s.epochs))
    && (q.refunded.Some? ==> q.deducted.Some? && Before(q.refunded.value, s.epochs))
    && match q.phase
       case Arrived => q.slot.NoSlot? && q.deducted.None?
       case Loaded => q.slot.NoSlot? && q.deducted.None?
       case Added(_) => q.slot.NoSlot? && q.deducted.None?
       case Slotted => !q.slot.NoSlot? && q.deducted.None?
       case GateRead(t) => !q.slot.NoSlot? && q.deducted.None? && q.ctx.multiplier > 0.0 && t.monthCutoff <= t.stamp
       case Upstream => !q.slot.NoSlot? && q.deducted.Some? && q.refunded.None?
       case Closing(todo) =>
         && Refunds(todo) <= 1
         && Bills(todo) <= 1
         && (Refunds(todo) == 1 ==> q.deducted.Some? && q.refunded.None?)
         && (Bills(todo) == 1 ==> q.deducted.Some? && !q.slot.NoSlot?)
       case Done => q.slot.NoSlot?
  }

  ghost predicate Ok(s: State) {
    && (forall r :: r in s.requests ==> RequestOk(s, s.requests[r]))
    && (s.counter.None? ==> s.phantoms == 0)
  }

  lemma ProgramShapeForAll(kind: Kind, outcome: Outcome)
    ensures Refunds(Program(kind, outcome)) <= 1 && Bills(Program(kind, outcome)) <= 1
    ensures Refunds(AfterRefusedGate()) == Bills(AfterRefusedGate()) == 0
    ensures Refunds(AfterRefusedSlot(kind)) == Bills(AfterRefusedSlot(kind)) == 0
  {
    ProgramShape(kind, outcome, 1.0);
    RefusalShape(kind, 1.0);
  }

  predicate IsLedgerMove(move: Move) {
    move.ReadGate? || move.ExecGate? || move.Respond? || move.RunStmt?
  }

  /** Ledger moves leave the limiter and the request's slot alone. */
  lemma LedgerMoveFrame(s: State, r: nat, q: Request, move: Move)
    requires r in s.requests && s.requests[r] == q && IsLedgerMove(move)
    ensures
      var after := Advance(s, r, q, move);
      var q' := after.requests[r];
      && after.counter == s.counter && after.phantoms == s.phantoms
      && q'.slot == q.slot && q'.max == q.max && q'.kind == q.kind
      && (q' != q ==>
            && (q.phase.Slotted? || q.phase.GateRead? || q.phase.Upstream? || q.phase.Closing?)
            && (q'.phase.GateRead? || q'.phase.Upstream? || q'.phase.Closing?))
  {
  }

  /** Slot moves leave the tables, the clock and the request's account alone. */
  lemma SlotMoveFrame(s: State, r: nat, q: Request, move: Move)
    requires r in s.requests && s.requests[r] == q && RequestOk(s, q) && !IsLedgerMove(move)
    ensures
      var after := Advance(s, r, q, move);
      var q' := after.requests[r];
      && after == s.(counter := after.counter, phantoms := after.phantoms, requests := after.requests)
      && q' == q.(slot := q'.slot, phase := q'.phase)
      && MayBill(q') == MayBill(q)
      && WeightOf(Unsettled, q') == WeightOf(Unsettled, q)
  {
    RefusalShape(q.kind, q.ctx.multiplier);
  }

  /** What a step may do to requests it does not write. */
  ghost predicate Extends(s: State, after: State) {
    && after.user == s.user
    && (s.counter.Some? ==> after.counter.Some?)
    && Before(s.epochs, after.epochs)
  }

  lemma ExtendsKeepsOk(s: State, after: State, q: Request)
    requires RequestOk(s, q) && Extends(s, after)
    ensures RequestOk(after, q)
  {
  }

  lemma LedgerMoveOk(s: State, r: nat, q: Request, move: Move)
    requires RequestOk(s, q) && r in s.requests && s.requests[r] == q && IsLedgerMove(move)
    ensures
      var after := Advance(s, r, q, move);
      Extends(s, after) && RequestOk(after, after.requests[r])
  {
    match move
    case Respond(outcome) => ProgramShapeForAll(q.kind, outcome);
    case _ => ProgramShapeForAll(q.kind, BuildFailed);
  }

  lemma SlotMoveOk(s: State, r: nat, q: Request, move: Move)
    requires RequestOk(s, q) && r in s.requests && s.requests[r] == q && !IsLedgerMove(move)
    requires s.counter.None? ==> s.phantoms == 0
    ensures
      var after := Advance(s, r, q, move);
      && Extends(s, after)
      && RequestOk(after, after.requests[r])
      && (after.counter.None? ==> after.phantoms == 0)
  {
    ProgramShapeForAll(q.kind, BuildFailed);
  }

  lemma StepOk(s: State, a: Action)
    requires Ok(s)
    ensures Ok(Step(s, a))
    ensures Extends(s, Step(s, a))
  {
    var after := Step(s, a);
    if a.Act? && a.r in s.requests {
      if IsLedgerMove(a.move) {
        LedgerMoveFrame(s, a.r, s.requests[a.r], a.move);
        LedgerMoveOk(s, a.r, s.requests[a.r], a.move);
      } else {
        SlotMoveOk(s, a.r, s.requests[a.r], a.move);
      }
    }
    StepWritesActor(s, a);
    OkAfterWrite(s, after, Actor(a));
  }

  lemma OkAfterWrite(s: State, after: State, r: nat)
    requires Ok(s) && Extends(s, after)
    requires after.requests == s.requests ||
      (&& r in after.requests && after.requests == s.requests[r := after.requests[r]]
       && RequestOk(after, after.requests[r]))
    requires after.counter.None? ==> after.phantoms == 0
    ensures Ok(after)
  {
    forall x | x in after.requests ensures RequestOk(after, after.requests[x]) {
      if x in s.requests && after.requests[x] == s.requests[x] {
        ExtendsKeepsOk(s, after, s.requests[x]);
      }
    }
  }

  lemma {:induction false} RunOk(s: State, schedule: seq<Action>)
    requires Ok(s)
    ensures Ok(Run(s, schedule))
    decreases |schedule|
  {
    if schedule != [] {
      StepOk(s, schedule[0]);
      RunOk(Step(s, schedule[0]), schedule[1..]);
    }
  }

  // ----- a served request

  /** The upstream answers 200, the call is logged and billed. */
  function Serve(r: nat, prompt: int): seq<Action> {
    [Act(r, Respond(Response(200, prompt, 0)))] + ([Act(r, RunStmt)] + [Act(r, RunStmt)])
  }

  ghost predicate Serving(s: State, r: nat, todo: seq<Stmt>) {
    r in s.requests && s.requests[r].kind.Sync? && s.requests[r].phase == Closing(todo)
  }

  lemma AnswerStep(s: State, r: nat, prompt: int)
    requires r in s.requests && s.requests[r].phase.Upstream? && s.requests[r].kind.Sync?
    ensures Step(s, Act(r, Respond(Response(200, prompt, 0)))) ==
      Put(s, r, s.requests[r].(phase := Closing([LogCall(prompt, 0, 200), BillTokens(prompt, 0)])))
  {
    assert Program(Sync, Response(200, prompt, 0)) == [LogCall(prompt, 0, 200), BillTokens(prompt, 0)];
  }

  lemma LogStep(s: State, r: nat, prompt: int)
    requires Serving(s, r, [LogCall(prompt, 0, 200), BillTokens(prompt, 0)])
    ensures Step(s, Act(r, RunStmt)) ==
      Put(s, r, s.requests[r].(phase := Closing([BillTokens(prompt, 0)]))).(
        logs := s.logs + [LogRowOf(s.requests[r].ctx, prompt, 0, 200, s.clock)])
  {
    assert [LogCall(prompt, 0, 200), BillTokens(prompt, 0)][1..] == [BillTokens(prompt, 0)];
  }

  lemma BillStep(s: State, r: nat, prompt: int)
    requires Serving(s, r, [BillTokens(prompt, 0)])
    ensures
      var q := s.requests[r];
      var amount := Charged(Billed(prompt, 0, q.ctx.multiplier));
      Step(s, Act(r, RunStmt)) == Put(s, r, q.(phase := Closing([]))).(
        row := StmtOnRow(s.row, q.ctx, BillTokens(prompt, 0)),
        events := s.events + [Billing(s.clock, amount, q.admittedAt)])
  {
    assert [BillTokens(prompt, 0)][1..] == [];
  }

  lemma ServeEffect(s: State, r: nat, prompt: int)
    requires r in s.requests && s.requests[r].phase.Upstream? && s.requests[r].kind.Sync?
    ensures
      var q := s.requests[r];
      var amount := Charged(Billed(prompt, 0, q.ctx.multiplier));
      Run(s, Serve(r, prompt)) == Put(s, r, q.(phase := Closing([]))).(
        row := StmtOnRow(s.row, q.ctx, BillTokens(prompt, 0)),
        logs := s.logs + [LogRowOf(q.ctx, prompt, 0, 200, s.clock)],
        events := s.events + [Billing(s.clock, amount, q.admittedAt)])
  {
    var answer := Act(r, Respond(Response(200, prompt, 0)));
    RunAppend(s, [answer], [Act(r, RunStmt)] + [Act(r, RunStmt)]);
    RunOne(s, answer);
    AnswerStep(s, r, prompt);
    var s1 := Put(s, r, s.requests[r].(phase := Closing([LogCall(prompt, 0, 200), BillTokens(prompt, 0)])));
    RunAppend(s1, [Act(r, RunStmt)], [Act(r, RunStmt)]);
    RunOne(s1, Act(r, RunStmt));
    LogStep(s1, r, prompt);
    var s2 := Put(s1, r, s1.requests[r].(phase := Closing([BillTokens(prompt, 0)]))).(
      logs := s.logs + [LogRowOf(s.requests[r].ctx, prompt, 0, 200, s.clock)]);
    RunOne(s2, Act(r, RunStmt));
    BillStep(s2, r, prompt);
    assert Put(s2, r, s2.requests[r].(phase := Closing([]))).requests
        == Put(s, r, s.requests[r].(phase := Closing([]))).requests;
  }
}
