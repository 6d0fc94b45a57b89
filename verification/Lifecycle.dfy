/** What one request does to the quotas and call_logs tables after it has been admitted. */
module Lifecycle {
  import opened Billing
  import opened Cycles
  import opened Ledger
  import opened Sums

  datatype Kind = Sync | Stream | Passthrough

  /** How the upstream exchange ended. A stream that ended early, because the client went away or the
      upstream broke off, is Response(200, ...) with the usage seen until then. */
  datatype Outcome =
    | BuildFailed
    | TransportError
    | ReadError
    | NotFlushable
    | Response(status: int, prompt: int, completion: int)

  predicate Possible(kind: Kind, outcome: Outcome) {
    match outcome
    case ReadError => kind.Sync?
    case NotFlushable => kind.Stream?
    case _ => true
  }

  datatype Stmt =
    | RefundCalls
    | LogCall(prompt: int, completion: int, status: int)
    | BillTokens(prompt: int, completion: int)

  /** The statements a request still executes once its outcome is known, in order. */
  function Program(kind: Kind, outcome: Outcome): seq<Stmt> {
    match outcome
    case BuildFailed => []
    case NotFlushable => []
    case TransportError => if kind.Stream? then [LogCall(0, 0, 502)] else [RefundCalls, LogCall(0, 0, 502)]
    case ReadError => [RefundCalls, LogCall(0, 0, 502)]
    case Response(status, p, c) =>
      match kind
      case Sync =>
        (if status >= 400 then [RefundCalls] else []) + [LogCall(p, c, status), BillTokens(p, c)]
      case Stream =>
        if status != 200 then [RefundCalls, LogCall(0, 0, status)]
        else [LogCall(p, c, 200), BillTokens(p, c)]
      case Passthrough =>
        (if status >= 400 then [RefundCalls] else []) + [LogCall(0, 0, status)]
  }

  function AfterRefusedGate(): seq<Stmt> { [LogCall(0, 0, 429)] }

  function AfterRefusedSlot(kind: Kind): seq<Stmt> {
    if kind.Passthrough? then [] else [LogCall(0, 0, 429)]
  }

  // ----- what a statement list still has to do

  ghost function Refunds(todo: seq<Stmt>): nat {
    if todo == [] then 0 else (if todo[0].RefundCalls? then 1 else 0) + Refunds(todo[1..])
  }

  ghost function Bills(todo: seq<Stmt>): nat {
    if todo == [] then 0 else (if todo[0].BillTokens? then 1 else 0) + Bills(todo[1..])
  }

  ghost function StmtBalance(stmt: Stmt, multiplier: real): int {
    match stmt
    case RefundCalls => 0
    case LogCall(p, c, _) => 0 - Charged(Billed(p, c, multiplier))
    case BillTokens(p, c) => Charged(Billed(p, c, multiplier))
  }

  /** Tokens still to be charged less tokens still to be logged. */
  ghost function Balance(todo: seq<Stmt>, multiplier: real): int {
    if todo == [] then 0
    else
      StmtBalance(todo[0], multiplier) + Balance(todo[1..], multiplier)
  }

  lemma NothingBilledForNothing(multiplier: real)
    ensures Billed(0, 0, multiplier) == 0
  {
    assert Scaled(0, 0, multiplier) == 0.0;
  }

  predicate UpstreamFailed(kind: Kind, outcome: Outcome) {
    match outcome
    case TransportError => true
    case ReadError => true
    case Response(status, _, _) => status >= 400 || (kind.Stream? && status != 200)
    case _ => false
  }

  /** At most one refund and one bill, and everything logged is charged. A call is refunded if and only
      if the upstream failed it and it was not a stream whose connection failed. */
  lemma ProgramShape(kind: Kind, outcome: Outcome, multiplier: real)
    ensures Refunds(Program(kind, outcome)) ==
      if UpstreamFailed(kind, outcome) && !(kind.Stream? && outcome.TransportError?)
      then 1 else 0
    ensures Bills(Program(kind, outcome)) ==
      if !outcome.Response? || kind.Passthrough? || (kind.Stream? && outcome.status != 200) then 0 else 1
    ensures Balance(Program(kind, outcome), multiplier) == 0
    ensures forall i :: 0 <= i < |Program(kind, outcome)| && Program(kind, outcome)[i].BillTokens? ==>
      outcome.Response? && Program(kind, outcome)[i] == BillTokens(outcome.prompt, outcome.completion)
  {
    NothingBilledForNothing(multiplier);
    var todo := Program(kind, outcome);
    Unroll(todo, multiplier);
    if |todo| > 0 {
      Unroll(todo[1..], multiplier);
      if |todo| > 1 { Unroll(todo[1..][1..], multiplier); }
    }
  }

  /** "an upstream transport error or a non-2xx upstream response" is refunded. */
  predicate RefundIsDocumented(outcome: Outcome) {
    match outcome
    case TransportError => true
    case ReadError => true
    case Response(status, _, _) => !(200 <= status < 300)
    case _ => false
  }

  /** The code keeps to that if and only if the outcome is none of these: a stream whose connection failed
      (kept), an answer below 400 outside 2xx to a request that is no stream (kept), and an answer in
      201 to 299 to a stream (refunded). */
  lemma RefundsAsDocumentedIff(kind: Kind, outcome: Outcome)
    ensures (Refunds(Program(kind, outcome)) == 1 <==> RefundIsDocumented(outcome)) <==>
      match outcome
      case TransportError => !kind.Stream?
      case Response(status, _, _) =>
        if kind.Stream? then !(200 < status < 300) else status >= 400 || 200 <= status < 300
      case _ => true
  {
    ProgramShape(kind, outcome, 1.0);
  }

  lemma Unroll(todo: seq<Stmt>, multiplier: real)
    ensures todo == [] ==> Refunds(todo) == 0 && Bills(todo) == 0 && Balance(todo, multiplier) == 0
    ensures todo != [] ==>
      && Refunds(todo) == (if todo[0].RefundCalls? then 1 else 0) + Refunds(todo[1..])
      && Bills(todo) == (if todo[0].BillTokens? then 1 else 0) + Bills(todo[1..])
      && Balance(todo, multiplier) == StmtBalance(todo[0], multiplier) + Balance(todo[1..], multiplier)
  {
  }

  lemma RefusalShape(kind: Kind, multiplier: real)
    ensures Refunds(AfterRefusedGate()) == Bills(AfterRefusedGate()) == Balance(AfterRefusedGate(), multiplier) == 0
    ensures Refunds(AfterRefusedSlot(kind)) == Bills(AfterRefusedSlot(kind)) == 0
    ensures Balance(AfterRefusedSlot(kind), multiplier) == 0
  {
    NothingBilledForNothing(multiplier);
    assert AfterRefusedGate()[1..] == [];
  }

  // ----- the statements on the two tables

  datatype Ctx = Ctx(user: int, model: string, provider: string, multiplier: real)

  datatype Tables = Tables(rows: map<int, Row>, logs: seq<LogRow>)

  /** Calls charged at admission. */
  function Calls(multiplier: real): int { Ceil(multiplier) }

  function LogRowOf(ctx: Ctx, prompt: int, completion: int, status: int, now: Instant): LogRow {
    LogRow(ctx.user, ctx.model, if ctx.provider == "" then "zhipu" else ctx.provider,
           prompt, completion, Calls(ctx.multiplier), ctx.multiplier, status, now)
  }

  /** An UPDATE whose WHERE names a user without a row changes nothing. */
  function UpdateRow(rows: map<int, Row>, user: int, f: Row -> Row): (r: map<int, Row>)
    ensures r.Keys == rows.Keys
    ensures forall u :: u in rows && u != user ==> r[u] == rows[u]
    ensures user in rows ==> r[user] == f(rows[user])
  {
    if user in rows then rows[user := f(rows[user])] else rows
  }

  function StmtOnRow(row: Row, ctx: Ctx, stmt: Stmt): Row {
    match stmt
    case RefundCalls => Refund(row, Calls(ctx.multiplier))
    case LogCall(_, _, _) => row
    case BillTokens(p, c) => AddTokens(row, Billed(p, c, ctx.multiplier))
  }

  function StmtOnLogs(logs: seq<LogRow>, ctx: Ctx, stmt: Stmt, now: Instant): seq<LogRow> {
    match stmt
    case LogCall(p, c, status) => logs + [LogRowOf(ctx, p, c, status, now)]
    case _ => logs
  }

  function ExecStmt(t: Tables, ctx: Ctx, stmt: Stmt, now: Instant): Tables {
    Tables(UpdateRow(t.rows, ctx.user, row => StmtOnRow(row, ctx, stmt)), StmtOnLogs(t.logs, ctx, stmt, now))
  }

  function ExecAll(t: Tables, ctx: Ctx, todo: seq<Stmt>, now: Instant): Tables
    decreases |todo|
  {
    if todo == [] then t else ExecAll(ExecStmt(t, ctx, todo[0], now), ctx, todo[1..], now)
  }

  /** Statements of one request move its own user's row and log only. The tokens the row gains are those
      the log gains plus the balance, and its call counters fall only through refunds. */
  lemma {:induction false} StatementsEffect(t: Tables, ctx: Ctx, todo: seq<Stmt>, now: Instant)
    requires ctx.user in t.rows
    ensures
      var after := ExecAll(t, ctx, todo, now);
      && after.rows.Keys == t.rows.Keys
      && (forall u :: u in t.rows && u != ctx.user ==> after.rows[u] == t.rows[u])
      && (forall b: Bucket :: TokensUsed(after.rows[ctx.user], b) - TokensUsed(t.rows[ctx.user], b) ==
            SeqSum(after.logs, ChargedTo(ctx.user)) - SeqSum(t.logs, ChargedTo(ctx.user))
            + Balance(todo, ctx.multiplier))
      && (forall u :: u != ctx.user ==> SeqSum(after.logs, ChargedTo(u)) == SeqSum(t.logs, ChargedTo(u)))
      && (Refunds(todo) == 0 ==>
            forall w: CallCounter :: CallsUsed(after.rows[ctx.user], w) == CallsUsed(t.rows[ctx.user], w))
      && (Refunds(todo) == 1 ==>
            forall w: CallCounter ::
              CallsUsed(after.rows[ctx.user], w) == CallsUsed(Refund(t.rows[ctx.user], Calls(ctx.multiplier)), w))
    decreases |todo|
  {
    if todo != [] {
      var mid := ExecStmt(t, ctx, todo[0], now);
      if todo[0].LogCall? {
        var row := LogRowOf(ctx, todo[0].prompt, todo[0].completion, todo[0].status, now);
        forall u ensures SeqSum(mid.logs, ChargedTo(u)) == SeqSum(t.logs, ChargedTo(u)) + ChargedTo(u)(row) {
          SeqSumSnoc(t.logs, row, ChargedTo(u));
        }
      }
      StatementsEffect(mid, ctx, todo[1..], now);
    }
  }

  /** One undisturbed request, from an open gate to its last statement: each call counter keeps the
      charge unless the call was refunded, and each token bucket gains exactly what the log shows. */
  lemma WholeRequestEffect(t: Tables, ctx: Ctx, kind: Kind, outcome: Outcome, ticket: Ticket, now: Instant)
    requires ctx.user in t.rows && ctx.multiplier > 0.0
    requires t.rows[ctx.user].calls5hUsed >= 0 && t.rows[ctx.user].callsTotalUsed >= 0
    requires GateOpen(t.rows[ctx.user], Calls(ctx.multiplier), ticket)
    ensures
      var before := t.rows[ctx.user];
      var calls := Calls(ctx.multiplier);
      var admitted := Gate(before, calls, ticket);
      var after := ExecAll(t.(rows := t.rows[ctx.user := admitted]), ctx, Program(kind, outcome), now);
      var refunded := Refunds(Program(kind, outcome)) == 1;
      && ctx.user in after.rows
      && (forall w: CallCounter ::
            CallsUsed(after.rows[ctx.user], w) == CallsUsed(before, w) + if refunded then 0 else calls)
      && (forall b: Bucket :: TokensUsed(after.rows[ctx.user], b) - TokensUsed(admitted, b) ==
            SeqSum(after.logs, ChargedTo(ctx.user)) - SeqSum(t.logs, ChargedTo(ctx.user)))
  {
    var calls := Calls(ctx.multiplier);
    ProgramShape(kind, outcome, ctx.multiplier);
    var admitted := t.(rows := t.rows[ctx.user := Gate(t.rows[ctx.user], calls, ticket)]);
    StatementsEffect(admitted, ctx, Program(kind, outcome), now);
    RefundUndoesGate(t.rows[ctx.user], calls, ticket);
  }

  // ----- what a request leaves in the tables, in terms of their columns

  /** The charge is the least whole number of calls that covers the multiplier. */
  lemma CallsAreCeiling(multiplier: real, n: int)
    ensures n == Calls(multiplier) <==> n as real - 1.0 < multiplier <= n as real
    ensures multiplier > 0.0 ==> Calls(multiplier) >= 1
  {
  }

  /** The log has one more row, of this request. */
  ghost predicate OneMoreRow(
    logs: seq<LogRow>, after: seq<LogRow>, ctx: Ctx, prompt: int, completion: int, status: int, now: Instant)
  {
    && |after| == |logs| + 1 && after[..|logs|] == logs
    && var r := after[|logs|];
       && r.userId == ctx.user && r.model == ctx.model && r.multiplier == ctx.multiplier
       && r.providerId == (if ctx.provider == "" then "zhipu" else ctx.provider)
       && r.prompt == prompt && r.completion == completion && r.status == status && r.createdAt == now
       && r.effectiveCalls == Calls(ctx.multiplier)
  }

  /** One more row, and of all quotas the user's own moved, by a refund of back calls and a bill. */
  ghost predicate Posted(
    t: Tables, after: Tables, ctx: Ctx, back: int, bill: int, prompt: int, completion: int, status: int, now: Instant)
  {
    && OneMoreRow(t.logs, after.logs, ctx, prompt, completion, status, now)
    && after.rows.Keys == t.rows.Keys
    && (forall u :: u in t.rows && u != ctx.user ==> after.rows[u] == t.rows[u])
    && (ctx.user in t.rows ==> RowMoved(t.rows[ctx.user], after.rows[ctx.user], back, bill))
  }

  /** What each kind of request leaves behind for each outcome. */
  ghost predicate Posts(t: Tables, after: Tables, ctx: Ctx, kind: Kind, outcome: Outcome, now: Instant) {
    var calls := Calls(ctx.multiplier);
    match outcome
    case BuildFailed => after == t
    case NotFlushable => after == t
    case TransportError => Posted(t, after, ctx, if kind == Stream then 0 else calls, 0, 0, 0, 502, now)
    case ReadError => Posted(t, after, ctx, calls, 0, 0, 0, 502, now)
    case Response(status, p, c) =>
      if kind == Stream && status != 200 then Posted(t, after, ctx, calls, 0, 0, 0, status, now)
      else
        var back := if status >= 400 then calls else 0;
        if kind == Passthrough then Posted(t, after, ctx, back, 0, 0, 0, status, now)
        else Posted(t, after, ctx, back, Billed(p, c, ctx.multiplier), p, c, status, now)
  }

  lemma RunOneStmt(t: Tables, ctx: Ctx, s: Stmt, now: Instant)
    ensures ExecAll(t, ctx, [s], now) == ExecStmt(t, ctx, s, now)
  {
    assert [s][1..] == [];
  }

  lemma RunStmtFirst(t: Tables, ctx: Ctx, s: Stmt, todo: seq<Stmt>, now: Instant)
    ensures ExecAll(t, ctx, [s] + todo, now) == ExecAll(ExecStmt(t, ctx, s, now), ctx, todo, now)
  {
    assert ([s] + todo)[1..] == todo;
  }

  lemma PostedLog(t: Tables, ctx: Ctx, p: int, c: int, status: int, now: Instant)
    ensures Posted(t, ExecAll(t, ctx, [LogCall(p, c, status)], now), ctx, 0, 0, p, c, status, now)
  {
    RunOneStmt(t, ctx, LogCall(p, c, status), now);
  }

  lemma PostedBill(t: Tables, ctx: Ctx, p: int, c: int, status: int, now: Instant)
    ensures Posted(t, ExecAll(t, ctx, [LogCall(p, c, status), BillTokens(p, c)], now), ctx,
                   0, Billed(p, c, ctx.multiplier), p, c, status, now)
  {
    assert [LogCall(p, c, status), BillTokens(p, c)] == [LogCall(p, c, status)] + [BillTokens(p, c)];
    RunStmtFirst(t, ctx, LogCall(p, c, status), [BillTokens(p, c)], now);
    RunOneStmt(ExecStmt(t, ctx, LogCall(p, c, status), now), ctx, BillTokens(p, c), now);
  }

  /** A refund before the other statements. */
  lemma PostedRefund(
    t: Tables, ctx: Ctx, todo: seq<Stmt>, bill: int, p: int, c: int, status: int, now: Instant)
    requires
      var mid := ExecStmt(t, ctx, RefundCalls, now);
      Posted(mid, ExecAll(mid, ctx, todo, now), ctx, 0, bill, p, c, status, now)
    ensures Posted(t, ExecAll(t, ctx, [RefundCalls] + todo, now), ctx, Calls(ctx.multiplier), bill, p, c, status, now)
  {
    var mid := ExecStmt(t, ctx, RefundCalls, now);
    var after := ExecAll(mid, ctx, todo, now);
    RunStmtFirst(t, ctx, RefundCalls, todo, now);
    RefundOnTables(t, ctx, now);
    if ctx.user in t.rows {
      RefundThenBill(t.rows[ctx.user], mid.rows[ctx.user], after.rows[ctx.user], Calls(ctx.multiplier), bill);
    }
  }

  lemma RefundOnTables(t: Tables, ctx: Ctx, now: Instant)
    ensures
      var mid := ExecStmt(t, ctx, RefundCalls, now);
      && mid.logs == t.logs && mid.rows.Keys == t.rows.Keys
      && (forall u :: u in t.rows && u != ctx.user ==> mid.rows[u] == t.rows[u])
      && (ctx.user in t.rows ==> RowMoved(t.rows[ctx.user], mid.rows[ctx.user], Calls(ctx.multiplier), 0))
  {
    if ctx.user in t.rows { RefundMoves(t.rows[ctx.user], Calls(ctx.multiplier)); }
  }

  /** The statements of a request post exactly what the source does: one row, but none when the request could
      not be built or the response not be flushed, with the status seen and the usage of a served chat; the
      calls are given back where they are; and only chats are billed. */
  lemma ProgramPosts(t: Tables, ctx: Ctx, kind: Kind, outcome: Outcome, now: Instant)
    ensures Posts(t, ExecAll(t, ctx, Program(kind, outcome), now), ctx, kind, outcome, now)
  {
    match outcome
    case BuildFailed =>
    case NotFlushable =>
    case TransportError => PostedFailure(t, ctx, kind == Stream, 502, now);
    case ReadError => PostedFailure(t, ctx, false, 502, now);
    case Response(status, p, c) =>
      if kind == Passthrough || (kind == Stream && status != 200) {
        PostedFailure(t, ctx, kind == Passthrough && status < 400, status, now);
      } else {
        var keep := kind == Stream || status < 400;
        PostedAnswer(t, ctx, keep, p, c, status, now);
        assert Program(kind, outcome) ==
          (if keep then [] else [RefundCalls]) + [LogCall(p, c, status), BillTokens(p, c)];
      }
  }

  lemma PostedFailure(t: Tables, ctx: Ctx, keep: bool, status: int, now: Instant)
    ensures
      var todo := if keep then [LogCall(0, 0, status)] else [RefundCalls, LogCall(0, 0, status)];
      Posted(t, ExecAll(t, ctx, todo, now), ctx, if keep then 0 else Calls(ctx.multiplier), 0, 0, 0, status, now)
  {
    var mid := ExecStmt(t, ctx, RefundCalls, now);
    if keep {
      PostedLog(t, ctx, 0, 0, status, now);
    } else {
      PostedLog(mid, ctx, 0, 0, status, now);
      PostedRefund(t, ctx, [LogCall(0, 0, status)], 0, 0, 0, status, now);
      assert [RefundCalls, LogCall(0, 0, status)] == [RefundCalls] + [LogCall(0, 0, status)];
    }
  }

  lemma PostedAnswer(t: Tables, ctx: Ctx, keep: bool, p: int, c: int, status: int, now: Instant)
    ensures
      var todo := (if keep then [] else [RefundCalls]) + [LogCall(p, c, status), BillTokens(p, c)];
      Posted(t, ExecAll(t, ctx, todo, now), ctx, if keep then 0 else Calls(ctx.multiplier),
             Billed(p, c, ctx.multiplier), p, c, status, now)
  {
    var rest := [LogCall(p, c, status), BillTokens(p, c)];
    if keep {
      PostedBill(t, ctx, p, c, status, now);
      assert [] + rest == rest;
    } else {
      PostedBill(ExecStmt(t, ctx, RefundCalls, now), ctx, p, c, status, now);
      PostedRefund(t, ctx, rest, Billed(p, c, ctx.multiplier), p, c, status, now);
    }
  }

  /** A refused request leaves one row with status 429 and no usage, and none when a passthrough request is
      refused a slot. */
  lemma RefusalPosts(t: Tables, ctx: Ctx, kind: Kind, now: Instant)
    ensures Posted(t, ExecAll(t, ctx, AfterRefusedGate(), now), ctx, 0, 0, 0, 0, 429, now)
    ensures
      var after := ExecAll(t, ctx, AfterRefusedSlot(kind), now);
      if kind == Passthrough then after == t else Posted(t, after, ctx, 0, 0, 0, 0, 429, now)
  {
    PostedLog(t, ctx, 0, 0, 429, now);
  }
}
