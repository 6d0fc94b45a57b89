/** A request that nothing interrupts: its steps in the gateway leave in the tables what the handlers do. */
module GatewayAlone {
  import opened Billing
  import opened Cycles
  import opened Gateway
  import opened Ledger
  import opened Lifecycle
  import opened Sums

  /** The tables as far as this user is concerned. */
  function TablesOf(s: State): Tables { Tables(map[s.user := s.row], s.logs) }

  function Statements(r: nat, n: nat): seq<Action> {
    if n == 0 then [] else [Act(r, RunStmt)] + Statements(r, n - 1)
  }

  ghost predicate Finishing(s: State, r: nat, todo: seq<Stmt>) {
    r in s.requests && s.requests[r].ctx.user == s.user && s.requests[r].phase == Closing(todo)
  }

  lemma OneStatement(s: State, r: nat, todo: seq<Stmt>)
    requires Finishing(s, r, todo) && todo != []
    ensures
      var next := Step(s, Act(r, RunStmt));
      && TablesOf(next) == ExecStmt(TablesOf(s), s.requests[r].ctx, todo[0], s.clock)
      && Finishing(next, r, todo[1..]) && next.requests[r].ctx == s.requests[r].ctx
      && next.clock == s.clock && next.user == s.user
  {
    var next := Step(s, Act(r, RunStmt));
    assert next == Execute(s, r, s.requests[r], todo);
    assert TablesOf(next).rows == ExecStmt(TablesOf(s), s.requests[r].ctx, todo[0], s.clock).rows;
  }

  /** The statements still to do, one step each, are those statements on the tables, in order. */
  lemma {:induction false} AllStatements(s: State, r: nat, todo: seq<Stmt>)
    requires Finishing(s, r, todo)
    ensures
      var after := Run(s, Statements(r, |todo|));
      && TablesOf(after) == ExecAll(TablesOf(s), s.requests[r].ctx, todo, s.clock)
      && Finishing(after, r, []) && after.user == s.user
    decreases |todo|
  {
    if todo != [] {
      var next := Step(s, Act(r, RunStmt));
      OneStatement(s, r, todo);
      AllStatements(next, r, todo[1..]);
      RunAppend(s, [Act(r, RunStmt)], Statements(r, |todo| - 1));
      RunOne(s, Act(r, RunStmt));
    }
  }

  /** Admitted: once the upstream has answered, the request posts what its kind and outcome call for. */
  lemma OutcomePosts(s: State, r: nat, outcome: Outcome)
    requires r in s.requests && s.requests[r].ctx.user == s.user && s.requests[r].phase.Upstream?
    requires Possible(s.requests[r].kind, outcome)
    ensures
      var q := s.requests[r];
      var steps := [Act(r, Respond(outcome))] + Statements(r, |Program(q.kind, outcome)|);
      Posts(TablesOf(s), TablesOf(Run(s, steps)), q.ctx, q.kind, outcome, s.clock)
  {
    var q := s.requests[r];
    var todo := Program(q.kind, outcome);
    RunAppend(s, [Act(r, Respond(outcome))], Statements(r, |todo|));
    RunOne(s, Act(r, Respond(outcome)));
    AllStatements(Step(s, Act(r, Respond(outcome))), r, todo);
    ProgramPosts(TablesOf(s), q.ctx, q.kind, outcome, s.clock);
  }

  /** The gate's UPDATE in the gateway: refused if and only if a limit is reached, which leaves the row alone and
      one row with status 429 to log; and else written as an admission, with nothing logged. */
  lemma GatePosts(s: State, r: nat, t: Ticket)
    requires r in s.requests && s.requests[r].ctx.user == s.user && s.requests[r].phase == GateRead(t)
    ensures
      var calls := Calls(s.requests[r].ctx.multiplier);
      var next := Step(s, Act(r, ExecGate));
      if SomeLimitReached(s.row, calls, t.cycle, t.monthCutoff) then
        Posted(TablesOf(s), TablesOf(Run(s, [Act(r, ExecGate)] + Statements(r, 1))), s.requests[r].ctx,
               0, 0, 0, 0, 429, s.clock)
      else
        && next.requests[r].phase.Upstream? && next.logs == s.logs
        && AdmissionWrites(s.row, next.row, calls, t.cycle, t.monthCutoff, t.stamp)
  {
    var q := s.requests[r];
    var next := Step(s, Act(r, ExecGate));
    GateRefusedIff(s.row, Calls(q.ctx.multiplier), t);
    if SomeLimitReached(s.row, Calls(q.ctx.multiplier), t.cycle, t.monthCutoff) {
      RunAppend(s, [Act(r, ExecGate)], Statements(r, 1));
      RunOne(s, Act(r, ExecGate));
      AllStatements(next, r, AfterRefusedGate());
      RefusalPosts(TablesOf(s), q.ctx, q.kind, s.clock);
    }
  }

  /** A request refused a slot logs one row with status 429, a passthrough request none. */
  lemma RefusedSlotPosts(s: State, r: nat, count: int)
    requires r in s.requests && s.requests[r].ctx.user == s.user && s.requests[r].phase == Added(count)
    requires count > s.requests[r].max && s.counter.Some?
    ensures
      var q := s.requests[r];
      var after := Run(s, [Act(r, Compare)] + Statements(r, |AfterRefusedSlot(q.kind)|));
      && (if q.kind == Passthrough then TablesOf(after) == TablesOf(s)
          else Posted(TablesOf(s), TablesOf(after), q.ctx, 0, 0, 0, 0, 429, s.clock))
  {
    var q := s.requests[r];
    var next := Step(s, Act(r, Compare));
    RunAppend(s, [Act(r, Compare)], Statements(r, |AfterRefusedSlot(q.kind)|));
    RunOne(s, Act(r, Compare));
    AllStatements(next, r, AfterRefusedSlot(q.kind));
    RefusalPosts(TablesOf(s), q.ctx, q.kind, s.clock);
  }

  /** Reading the ticket: the anchor's present cycle, or one that starts now, and thirty days back. */
  lemma TicketIs(s: State, r: nat, model: string, provider: string, multiplier: real)
    requires r in s.requests && s.requests[r].phase.Slotted? && multiplier > 0.0
    ensures
      var q := Step(s, Act(r, ReadGate(model, provider, multiplier))).requests[r];
      var cycle := if s.row.weekStart.Some? then AlignedCycleStart(s.row.weekStart.value, s.clock) else s.clock;
      && q.phase == GateRead(Ticket(cycle, s.clock - 2592000, s.clock))
      && q.ctx == Ctx(s.user, model, provider, multiplier)
  {
  }

  /** New limits apply to the next gate, each to its own counter or bucket: no request is refused or let in by
      another's limit, and what is used stays. */
  lemma NewLimitsApply(
    s: State, calls5h: int, callsTotal: int, tokens5h: int, week: int, month: int, calls: int, t: Ticket)
    ensures
      var row, after := s.row, Step(s, Do(NewLimits(calls5h, callsTotal, tokens5h, week, month))).row;
      && (!GateOpen(after, calls, t) <==>
            || (calls5h != 0 && row.calls5hUsed + calls > calls5h)
            || (callsTotal != 0 && row.callsTotalUsed + calls > callsTotal)
            || (tokens5h != 0 && row.tokens5hUsed >= tokens5h)
            || (week != 0 && week <= if row.weekCycleStart == t.cycle then row.weekUsed else 0)
            || (month != 0 && month <= if row.monthStart >= t.monthCutoff then row.monthUsed else 0))
      && (forall w: CallCounter :: CallsUsed(after, w) == CallsUsed(row, w))
      && (forall b: Bucket :: TokensUsed(after, b) == TokensUsed(row, b))
  {
    GateRefusedIff(Step(s, Do(NewLimits(calls5h, callsTotal, tokens5h, week, month))).row, calls, t);
  }
}
