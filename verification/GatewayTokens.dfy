/** The three token buckets over whole runs: they agree with the call log, and the soft gate lets them
    exceed a cap by a bounded amount only. */
module GatewayTokens {
  import opened Billing
  import opened Cycles
  import opened Gateway
  import opened GatewayLimiter
  import opened Ledger
  import opened Lifecycle
  import opened Sums

  // ----- conservation

  function Wiped(t: Tally, b: Bucket): int {
    match b
    case FiveHour => t.fiveHour
    case Week => t.week
    case Month => t.month
  }

  ghost function Logged(s: State): int { SeqSum(s.logs, ChargedTo(s.user)) }

  /** Tokens in the bucket, tokens resets took out of it and tokens logged but not charged yet make up
      the log. */
  ghost predicate Conserved(s: State, b: Bucket) {
    TokensUsed(s.row, b) + Wiped(s.wiped, b) + Total(s, Unsettled) == Logged(s)
  }

  lemma ExecuteOnTokens(s: State, r: nat, q: Request, b: Bucket)
    requires RequestOk(s, q) && q.phase.Closing? && q.phase.todo != []
    ensures
      var after := Execute(s, r, q, q.phase.todo);
      && after.wiped == s.wiped && after.user == s.user
      && TokensUsed(after.row, b) - TokensUsed(s.row, b)
         + WeightOf(Unsettled, after.requests[r]) - WeightOf(Unsettled, q) == Logged(after) - Logged(s)
  {
    var stmt := q.phase.todo[0];
    if stmt.LogCall? {
      SeqSumSnoc(s.logs, LogRowOf(q.ctx, stmt.prompt, stmt.completion, stmt.status, s.clock), ChargedTo(s.user));
    }
  }

  /** The bucket, what was wiped and what is unsettled move with the log. */
  ghost predicate Balanced(s: State, after: State, q: Request, q': Request, b: Bucket) {
    && after.user == s.user
    && TokensUsed(after.row, b) - TokensUsed(s.row, b) + Wiped(after.wiped, b) - Wiped(s.wiped, b)
       + WeightOf(Unsettled, q') - WeightOf(Unsettled, q) == Logged(after) - Logged(s)
  }

  lemma AdvanceOnTokens(s: State, r: nat, q: Request, move: Move, b: Bucket)
    requires r in s.requests && s.requests[r] == q && RequestOk(s, q)
    ensures Balanced(s, Advance(s, r, q, move), q, Advance(s, r, q, move).requests[r], b)
  {
    if !IsLedgerMove(move) {
      SlotMoveFrame(s, r, q, move);
    } else {
      match (move, q.phase)
      case (RunStmt, Closing(todo)) => if todo != [] { ExecuteOnTokens(s, r, q, b); }
      case (Respond(outcome), Upstream) => ProgramShape(q.kind, outcome, q.ctx.multiplier);
      case (ExecGate, GateRead(_)) => RefusalShape(q.kind, q.ctx.multiplier);
      case _ =>
    }
  }

  lemma AdminOnTokens(s: State, op: Op, b: Bucket)
    ensures
      var after := Admin(s, op);
      && TokensUsed(after.row, b) + Wiped(after.wiped, b) == TokensUsed(s.row, b) + Wiped(s.wiped, b)
      && after.requests == s.requests && after.logs == s.logs && after.user == s.user
  {
  }

  lemma BalancedConserves(s: State, after: State, r: nat, b: Bucket)
    requires Conserved(s, b) && r in s.requests && r in after.requests
    requires Balanced(s, after, s.requests[r], after.requests[r], b)
    requires Total(after, Unsettled)
      == Total(s, Unsettled) + WeightOf(Unsettled, after.requests[r]) - WeightOf(Unsettled, s.requests[r])
    ensures Conserved(after, b)
  {
  }

  lemma ActConserved(s: State, r: nat, move: Move, b: Bucket)
    requires Ok(s) && Conserved(s, b) && r in s.requests
    ensures Conserved(Advance(s, r, s.requests[r], move), b)
  {
    ActTotal(s, r, move, Unsettled);
    AdvanceOnTokens(s, r, s.requests[r], move, b);
    BalancedConserves(s, Advance(s, r, s.requests[r], move), r, b);
  }

  lemma StepConserved(s: State, a: Action, b: Bucket)
    requires Ok(s) && Conserved(s, b)
    ensures Conserved(Step(s, a), b)
  {
    match a
    case Act(r, move) => if r in s.requests { ActConserved(s, r, move, b); }
    case Do(op) => AdminOnTokens(s, op, b);
    case Arrive(r, kind, max) => StepTotal(s, a, Unsettled);
    case Tick(_) =>
  }

  lemma {:induction false} RunConserved(s: State, schedule: seq<Action>, b: Bucket)
    requires Ok(s) && Conserved(s, b)
    ensures Conserved(Run(s, schedule), b)
    decreases |schedule|
  {
    if schedule != [] {
      StepOk(s, schedule[0]);
      StepConserved(s, schedule[0], b);
      RunConserved(Step(s, schedule[0]), schedule[1..], b);
    }
  }

  /** For a fresh user, in every schedule, each bucket holds what the log charges less what is logged but
      not charged yet and what resets removed; nothing is outstanding when no request is finishing. */
  lemma TokenConservation(user: int, row: Row, now: Instant, schedule: seq<Action>, b: Bucket)
    requires Fresh(row, now)
    ensures
      var s := Run(Init(user, row, now), schedule);
      && TokensUsed(s.row, b) + Wiped(s.wiped, b) + Total(s, Unsettled) == SeqSum(s.logs, ChargedTo(s.user))
      && ((forall r :: r in s.requests ==> !s.requests[r].phase.Closing?) ==> Total(s, Unsettled) == 0)
  {
    var s0 := Init(user, row, now);
    SumZero(s0.requests, Weigh(Unsettled));
    RunConserved(s0, schedule, b);
    var s := Run(s0, schedule);
    if forall r :: r in s.requests ==> !s.requests[r].phase.Closing? {
      SumZero(s.requests, Weigh(Unsettled));
    }
  }

  // ----- the overage of the soft gate

  /** No bill that is still to be charged exceeds the bound. */
  ghost predicate BillsWithin(s: State, bound: int) {
    forall r :: r in s.requests ==> TodoWithin(s.requests[r], bound)
  }

  ghost predicate TodoWithin(q: Request, bound: int) {
    q.phase.Closing? ==>
      forall i :: 0 <= i < |q.phase.todo| && q.phase.todo[i].BillTokens? ==>
        Billed(q.phase.todo[i].prompt, q.phase.todo[i].completion, q.ctx.multiplier) <= bound
  }

  ghost predicate AlwaysBillsWithin(s: State, schedule: seq<Action>, bound: int)
    decreases |schedule|
  {
    BillsWithin(s, bound) && (schedule == [] || AlwaysBillsWithin(Step(s, schedule[0]), schedule[1..], bound))
  }

  ghost predicate OverageInv(s: State, b: Bucket, limit: int, cap: nat, bound: nat) {
    && LimiterInv(s, cap) && NoPhantoms(s) && RequestCapsWithin(s, 1, cap)
    && UsageWithin(s, b, limit, cap, bound)
  }

  /** Requests that may still bill hold slots. */
  lemma ExposureWithinCap(s: State, cap: nat, bound: nat)
    requires LimiterInv(s, cap) && NoPhantoms(s)
    ensures Total(s, Exposes(bound)) == bound * Total(s, InFlight)
    ensures 0 <= Total(s, InFlight) <= cap
    ensures 0 <= Total(s, Exposes(bound)) <= cap * bound
  {
    SumScale(s.requests, Weigh(InFlight), Weigh(Exposes(bound)), bound);
    SumZero(s.requests, _ => 0);
    SumLe(s.requests, Weigh(InFlight), _ => 0, Weigh(Holds));
    SumLe(s.requests, _ => 0, _ => 0, Weigh(InFlight));
    MulLe(Total(s, InFlight), cap, bound);
  }

  lemma MulLe(x: int, y: int, z: nat)
    requires 0 <= x <= y
    ensures 0 <= z * x <= y * z
  {
  }

  /** A move leaves bucket and exposure alone or lowers them, admits below the limit, or turns at most
      the bound of exposure into usage. */
  ghost predicate ExposureEffect(s: State, after: State, q: Request, q': Request, b: Bucket, bound: nat) {
    && TokensLimit(after.row, b) == TokensLimit(s.row, b)
    && (|| TokensUsed(after.row, b) + WeightOf(Exposes(bound), q')
             <= TokensUsed(s.row, b) + WeightOf(Exposes(bound), q)
        || (TokensLimit(s.row, b) > 0 ==> TokensUsed(after.row, b) < TokensLimit(s.row, b)))
  }

  lemma GateOnExposure(s: State, r: nat, q: Request, t: Ticket, b: Bucket, bound: nat)
    requires q.phase == GateRead(t) && RequestOk(s, q)
    ensures ExposureEffect(s, PassGate(s, r, q, t), q, PassGate(s, r, q, t).requests[r], b, bound)
  {
    var calls := Calls(q.ctx.multiplier);
    var after := PassGate(s, r, q, t);
    assert after.row == Gate(s.row, calls, t);
    if GateOpen(s.row, calls, t) {
      GateBelowLimit(s.row, calls, t, b);
    } else {
      ProgramShapeForAll(q.kind, BuildFailed);
    }
  }

  lemma GateBelowLimit(row: Row, calls: int, t: Ticket, b: Bucket)
    requires t.monthCutoff <= t.stamp
    ensures TokensLimit(Gate(row, calls, t), b) == TokensLimit(row, b)
    ensures GateOpen(row, calls, t) && TokensLimit(row, b) > 0 ==>
      TokensUsed(Gate(row, calls, t), b) < TokensLimit(row, b)
  {
    GateEffect(row, calls, t);
  }

  lemma ExecuteOnExposure(s: State, r: nat, q: Request, todo: seq<Stmt>, b: Bucket, bound: nat)
    requires q.phase == Closing(todo) && todo != [] && RequestOk(s, q) && TodoWithin(q, bound)
    ensures ExposureEffect(s, Execute(s, r, q, todo), q, Execute(s, r, q, todo).requests[r], b, bound)
  {
    assert Bills(todo) == (if todo[0].BillTokens? then 1 else 0) + Bills(todo[1..]);
  }

  lemma AdvanceOnExposure(s: State, r: nat, q: Request, move: Move, b: Bucket, bound: nat)
    requires r in s.requests && s.requests[r] == q && RequestOk(s, q) && TodoWithin(q, bound)
    ensures ExposureEffect(s, Advance(s, r, q, move), q, Advance(s, r, q, move).requests[r], b, bound)
  {
    if !IsLedgerMove(move) {
      SlotMoveFrame(s, r, q, move);
    } else {
      match (move, q.phase)
      case (ExecGate, GateRead(t)) => GateOnExposure(s, r, q, t, b, bound);
      case (Respond(outcome), Upstream) => ProgramShapeForAll(q.kind, outcome);
      case (RunStmt, Closing(todo)) => if todo != [] { ExecuteOnExposure(s, r, q, todo, b, bound); }
      case _ =>
    }
  }

  ghost predicate UsageWithin(s: State, b: Bucket, limit: int, cap: nat, bound: nat) {
    && TokensLimit(s.row, b) == limit > 0
    && TokensUsed(s.row, b) + Total(s, Exposes(bound)) <= limit - 1 + cap * bound
  }

  lemma EffectKeepsUsage(s: State, after: State, r: nat, b: Bucket, limit: int, cap: nat, bound: nat)
    requires UsageWithin(s, b, limit, cap, bound) && r in s.requests && r in after.requests
    requires ExposureEffect(s, after, s.requests[r], after.requests[r], b, bound)
    requires
      var k := Exposes(bound);
      Total(after, k) == Total(s, k) + WeightOf(k, after.requests[r]) - WeightOf(k, s.requests[r])
    requires Total(after, Exposes(bound)) <= cap * bound
    ensures UsageWithin(after, b, limit, cap, bound)
  {
  }

  lemma ActUsage(s: State, r: nat, move: Move, b: Bucket, limit: int, cap: nat, bound: nat)
    requires UsageWithin(s, b, limit, cap, bound) && r in s.requests
    requires RequestOk(s, s.requests[r]) && TodoWithin(s.requests[r], bound)
    requires Total(Advance(s, r, s.requests[r], move), Exposes(bound)) <= cap * bound
    ensures UsageWithin(Advance(s, r, s.requests[r], move), b, limit, cap, bound)
  {
    ActTotal(s, r, move, Exposes(bound));
    AdvanceOnExposure(s, r, s.requests[r], move, b, bound);
    EffectKeepsUsage(s, Advance(s, r, s.requests[r], move), r, b, limit, cap, bound);
  }

  /** Resets only lower a bucket. */
  lemma AdminUsage(s: State, op: Op, b: Bucket, limit: int, cap: nat, bound: nat)
    requires UsageWithin(s, b, limit, cap, bound) && !op.NewLimits?
    requires Total(Admin(s, op), Exposes(bound)) <= cap * bound
    ensures UsageWithin(Admin(s, op), b, limit, cap, bound)
  {
    assert Total(Admin(s, op), Exposes(bound)) == Total(s, Exposes(bound));
  }

  lemma StepUsage(s: State, a: Action, b: Bucket, limit: int, cap: nat, bound: nat)
    requires OverageInv(s, b, limit, cap, bound) && BillsWithin(s, bound) && (a.Do? ==> !a.op.NewLimits?)
    requires LimiterInv(Step(s, a), cap) && NoPhantoms(Step(s, a))
    ensures UsageWithin(Step(s, a), b, limit, cap, bound)
  {
    ExposureWithinCap(Step(s, a), cap, bound);
    match a
    case Act(r, move) => if r in s.requests { ActUsage(s, r, move, b, limit, cap, bound); }
    case Do(op) => AdminUsage(s, op, b, limit, cap, bound);
    case Arrive(_, _, _) => StepTotal(s, a, Exposes(bound));
    case Tick(_) =>
  }

  lemma StepOverage(s: State, a: Action, b: Bucket, limit: int, cap: nat, bound: nat)
    requires OverageInv(s, b, limit, cap, bound) && BillsWithin(s, bound)
    requires (a.Arrive? ==> 1 <= a.max <= cap) && (a.Do? ==> !a.op.NewLimits?)
    ensures OverageInv(Step(s, a), b, limit, cap, bound)
  {
    StepLimiter(s, a, cap);
    PositiveCapsHaveNoPhantoms(s, [a], cap);
    RunOne(s, a);
    StepUsage(s, a, b, limit, cap, bound);
  }

  lemma {:induction false} RunOverage(s: State, schedule: seq<Action>, b: Bucket, limit: int, cap: nat, bound: nat)
    requires OverageInv(s, b, limit, cap, bound) && AlwaysBillsWithin(s, schedule, bound)
    requires CapsWithin(schedule, 1, cap) && FixedLimits(schedule)
    ensures OverageInv(Run(s, schedule), b, limit, cap, bound)
    decreases |schedule|
  {
    if schedule != [] {
      StepOverage(s, schedule[0], b, limit, cap, bound);
      RunOverage(Step(s, schedule[0]), schedule[1..], b, limit, cap, bound);
    }
  }

  /** The soft gate composed with the limiter: with fixed limits, positive concurrency caps of at most cap
      and bills of at most bound, every bucket with a positive limit keeps usage plus bound for each request
      that may still bill at or below limit - 1 + cap * bound. */
  lemma SoftGateOverage(user: int, row: Row, now: Instant, schedule: seq<Action>, b: Bucket, cap: nat, bound: nat)
    requires Fresh(row, now) && TokensLimit(row, b) > 0
    requires CapsWithin(schedule, 1, cap) && FixedLimits(schedule)
    requires AlwaysBillsWithin(Init(user, row, now), schedule, bound)
    ensures
      var s := Run(Init(user, row, now), schedule);
      && TokensUsed(s.row, b) + bound * Total(s, InFlight) <= TokensLimit(row, b) - 1 + cap * bound
      && TokensUsed(s.row, b) <= TokensLimit(row, b) - 1 + cap * bound
  {
    var s0 := Init(user, row, now);
    SumZero(s0.requests, Weigh(Exposes(bound)));
    MulLe(0, cap, bound);
    RunOverage(s0, schedule, b, TokensLimit(row, b), cap, bound);
    var s := Run(s0, schedule);
    ExposureWithinCap(s, cap, bound);
  }
}
