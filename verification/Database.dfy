/** The quotas and call_logs tables, the statements on them, and the request handlers that execute
    those statements one after another. */
module Database {
  import opened Billing
  import opened Cycles
  import opened Ledger
  import opened Lifecycle
  import opened Sums

  /** The admin's weekly anchor: empty text, a parsed instant, or text that is not RFC 3339. */
  datatype AnchorInput = Empty | At(t: Instant) | Malformed

  datatype Usage = Usage(prompt: int, completion: int)

  /** The usage carried by the last data frame that has any. */
  function LastUsage(frames: seq<Option<Usage>>): Usage {
    if frames == [] then Usage(0, 0)
    else
      var last := frames[|frames| - 1];
      if last.Some? then last.value else LastUsage(frames[..|frames| - 1])
  }

  datatype StreamOpening = NoRequest | NoConnection | Opened(status: int, canFlush: bool)

  /** A stream as an outcome. The handler reads frames until the client is gone or there are no more. */
  function StreamOutcome(opening: StreamOpening, frames: seq<Option<Usage>>, gone: nat): Outcome {
    match opening
    case NoRequest => BuildFailed
    case NoConnection => TransportError
    case Opened(status, canFlush) =>
      if status != 200 then Response(status, 0, 0)
      else if !canFlush then NotFlushable
      else
        var usage := LastUsage(if gone < |frames| then frames[..gone] else frames);
        Response(200, usage.prompt, usage.completion)
  }

  /** u is what the last of the first gone frames that carries usage carries, or nothing when none does. What
      follows once the client is gone plays no part. */
  ghost predicate SeenLast(frames: seq<Option<Usage>>, gone: nat, u: Usage) {
    || (exists i :: 0 <= i < |frames| && i < gone && frames[i] == Some(u)
          && forall j :: i < j < |frames| && j < gone ==> frames[j].None?)
    || (u == Usage(0, 0) && forall j :: 0 <= j < |frames| && j < gone ==> frames[j].None?)
  }

  lemma {:induction false} LastUsageIsSeenLast(frames: seq<Option<Usage>>, gone: nat)
    requires |frames| <= gone
    ensures SeenLast(frames, gone, LastUsage(frames))
  {
    if frames != [] {
      var n := |frames| - 1;
      if frames[n].None? {
        LastUsageIsSeenLast(frames[..n], gone);
        assert forall i :: 0 <= i < n ==> frames[..n][i] == frames[i];
        var usage := Some(LastUsage(frames));
        if i :| 0 <= i < n && frames[..n][i] == usage && forall j :: i < j < n ==> frames[..n][j].None? {
          assert frames[i] == Some(LastUsage(frames));
        }
      } else {
        assert frames[n] == Some(LastUsage(frames));
      }
    }
  }

  /** At most one usage is seen last, so that SeenLast tells what is logged and billed. */
  lemma SeenLastIsUnique(frames: seq<Option<Usage>>, gone: nat, u: Usage, v: Usage)
    requires SeenLast(frames, gone, u) && SeenLast(frames, gone, v)
    ensures u == v
  {
  }

  /** What a stream leaves behind, by how it opened and which frames arrived before the client was gone. */
  ghost predicate StreamPosts(
    t: Tables, after: Tables, ctx: Ctx, opening: StreamOpening, frames: seq<Option<Usage>>, gone: nat, now: Instant)
  {
    match opening
    case NoRequest => after == t
    case NoConnection => Posted(t, after, ctx, 0, 0, 0, 0, 502, now)
    case Opened(status, canFlush) =>
      if status != 200 then Posted(t, after, ctx, Calls(ctx.multiplier), 0, 0, 0, status, now)
      else if !canFlush then after == t
      else
        exists u :: SeenLast(frames, gone, u) &&
          Posted(t, after, ctx, 0, Billed(u.prompt, u.completion, ctx.multiplier), u.prompt, u.completion, 200, now)
  }

  lemma StreamProgramPosts(
    t: Tables, ctx: Ctx, opening: StreamOpening, frames: seq<Option<Usage>>, gone: nat, now: Instant)
    ensures StreamPosts(t, ExecAll(t, ctx, Program(Stream, StreamOutcome(opening, frames, gone)), now), ctx,
                        opening, frames, gone, now)
  {
    ProgramPosts(t, ctx, Stream, StreamOutcome(opening, frames, gone), now);
    if opening == Opened(200, true) {
      var seen := if gone < |frames| then frames[..gone] else frames;
      LastUsageIsSeenLast(seen, gone);
      SeenBeforeGone(frames, seen, gone, LastUsage(seen));
    }
  }

  lemma SeenBeforeGone(frames: seq<Option<Usage>>, seen: seq<Option<Usage>>, gone: nat, u: Usage)
    requires seen == (if gone < |frames| then frames[..gone] else frames) && SeenLast(seen, gone, u)
    ensures SeenLast(frames, gone, u)
  {
    if i :| 0 <= i < |seen| && seen[i] == Some(u) && forall j :: i < j < |seen| && j < gone ==> seen[j].None? {
      assert frames[i] == Some(u);
      forall j | i < j < |frames| && j < gone ensures frames[j].None? { assert seen[j] == frames[j]; }
    } else {
      forall j | 0 <= j < |frames| && j < gone ensures frames[j].None? { assert seen[j] == frames[j]; }
    }
  }

  lemma ExecAtMostThree(t: Tables, ctx: Ctx, todo: seq<Stmt>, now: Instant)
    requires |todo| <= 3
    ensures ExecAll(t, ctx, todo, now) ==
      if |todo| == 0 then t
      else if |todo| == 1 then ExecStmt(t, ctx, todo[0], now)
      else if |todo| == 2 then ExecStmt(ExecStmt(t, ctx, todo[0], now), ctx, todo[1], now)
      else ExecStmt(ExecStmt(ExecStmt(t, ctx, todo[0], now), ctx, todo[1], now), ctx, todo[2], now)
  {
    if |todo| > 0 {
      var t1 := ExecStmt(t, ctx, todo[0], now);
      assert ExecAll(t, ctx, todo, now) == ExecAll(t1, ctx, todo[1..], now);
      if |todo| > 1 {
        var t2 := ExecStmt(t1, ctx, todo[1], now);
        assert ExecAll(t1, ctx, todo[1..], now) == ExecAll(t2, ctx, todo[1..][1..], now);
        if |todo| > 2 {
          assert todo[1..][1..][1..] == [];
        }
      }
    }
  }

  /** One more row in the log adds its bill to its own user's recomputed sum, and nothing to anybody else's. */
  lemma OneRowLogged(logs: seq<LogRow>, ctx: Ctx, prompt: int, completion: int, status: int, now: Instant, u: int)
    ensures SeqSum(logs + [LogRowOf(ctx, prompt, completion, status, now)], BilledTo(u)) ==
      SeqSum(logs, BilledTo(u)) + if u == ctx.user then Billed(prompt, completion, ctx.multiplier) else 0
  {
    SeqSumSnoc(logs, LogRowOf(ctx, prompt, completion, status, now), BilledTo(u));
  }

  /** The scan loop: every frame with usage overwrites what earlier ones carried. */
  method ReadFrames(frames: seq<Option<Usage>>, gone: nat) returns (prompt: int, completion: int)
    ensures Usage(prompt, completion) == LastUsage(if gone < |frames| then frames[..gone] else frames)
    ensures SeenLast(frames, gone, Usage(prompt, completion))
  {
    prompt, completion := 0, 0;
    var i := 0;
    while i < |frames| && i != gone
      invariant 0 <= i <= |frames| && i <= gone
      invariant Usage(prompt, completion) == LastUsage(frames[..i])
    {
      assert frames[..i + 1][..i] == frames[..i];
      if frames[i].Some? {
        prompt, completion := frames[i].value.prompt, frames[i].value.completion;
      }
      i := i + 1;
    }
    assert frames[..|frames|] == frames;
    LastUsageIsSeenLast(frames[..i], gone);
    SeenBeforeGone(frames, frames[..i], gone, Usage(prompt, completion));
  }

  class Db {
    var rows: map<int, Row>
    var logs: seq<LogRow>

    constructor ()
      ensures rows == map[] && logs == []
    {
      rows, logs := map[], [];
    }

    ghost function Value(): Tables reads this { Tables(rows, logs) }

    // ----- statements

    method InsertCallLog(ctx: Ctx, prompt: int, completion: int, status: int, now: Instant)
      modifies this`logs
      ensures logs == old(logs) + [LogRowOf(ctx, prompt, completion, status, now)]
      ensures
        var r := logs[|old(logs)|];
        && r.userId == ctx.user && r.model == ctx.model && r.status == status && r.createdAt == now
        && r.providerId == (if ctx.provider == "" then "zhipu" else ctx.provider)
        && r.prompt == prompt && r.completion == completion
        && r.multiplier == ctx.multiplier && r.effectiveCalls == Calls(ctx.multiplier)
    {
      var provider := ctx.provider;
      if provider == "" { provider := "zhipu"; }
      var row := LogRow(ctx.user, ctx.model, provider, prompt, completion, Calls(ctx.multiplier), ctx.multiplier,
                        status, now);
      logs := logs + [row];
    }

    method ReadTicket(user: int, now: Instant) returns (t: Option<Ticket>)
      ensures t == if user in rows then Some(TicketAt(rows[user], now)) else None
      ensures user in rows ==>
        && t.value.stamp == now && t.value.monthCutoff == now - 2592000
        && match rows[user].weekStart
           case Some(anchor) => t.value.cycle == AlignedCycleStart(anchor, now)
           case None => t.value.cycle == now
    {
      if user !in rows { return None; }
      var weekStart := rows[user].weekStart;
      var anchor := if weekStart.Some? then weekStart.value else now;
      return Some(Ticket(AlignedCycleStart(anchor, now), now - MONTH, now));
    }

    method ExecGate(user: int, calls: int, t: Ticket) returns (ok: bool)
      modifies this`rows
      ensures ok <==> user in old(rows) && GateOpen(old(rows)[user], calls, t)
      ensures rows == UpdateRow(old(rows), user, row => Gate(row, calls, t))
      ensures ok <==> user in old(rows) && !SomeLimitReached(old(rows)[user], calls, t.cycle, t.monthCutoff)
      ensures ok ==>
        AdmissionWrites(old(rows)[user], rows[user], calls, t.cycle, t.monthCutoff, t.stamp)
      ensures !ok ==> rows == old(rows)
    {
      if user in rows { GateRefusedIff(rows[user], calls, t); }
      ok := user in rows && GateOpen(rows[user], calls, t);
      if ok {
        rows := rows[user := Gate(rows[user], calls, t)];
      }
    }

    /** With nothing in between, the two statements of the gate are one. */
    method AtomicDeductQuota(user: int, calls: int, now: Instant) returns (ok: bool)
      modifies this`rows
      ensures ok <==> user in old(rows) && GateOpen(old(rows)[user], calls, TicketAt(old(rows)[user], now))
      ensures ok ==> rows == old(rows)[user := Gate(old(rows)[user], calls, TicketAt(old(rows)[user], now))]
      ensures user in old(rows) ==>
        var row := old(rows)[user];
        var cycle := if row.weekStart.Some? then AlignedCycleStart(row.weekStart.value, now) else now;
        && (ok <==> !SomeLimitReached(row, calls, cycle, now - 2592000))
        && (ok ==> AdmissionWrites(row, rows[user], calls, cycle, now - 2592000, now))
      ensures !ok ==> rows == old(rows)
    {
      var t := ReadTicket(user, now);
      if t.None? { return false; }
      ok := ExecGate(user, calls, t.value);
    }

    method RefundQuotaUsage(user: int, calls: int)
      modifies this`rows
      ensures rows == UpdateRow(old(rows), user, row => Refund(row, calls))
    {
      if calls <= 0 || user !in rows { return; }
      var row := rows[user];
      rows := rows[user := row.(calls5hUsed := Max(0, row.calls5hUsed - calls),
                                callsTotalUsed := Max(0, row.callsTotalUsed - calls))];
    }

    method AddTokenUsage(user: int, delta: int)
      modifies this`rows
      ensures rows == UpdateRow(old(rows), user, row => AddTokens(row, delta))
    {
      if delta <= 0 || user !in rows { return; }
      var row := rows[user];
      rows := rows[user := row.(monthUsed := row.monthUsed + delta,
                                tokens5hUsed := row.tokens5hUsed + delta,
                                weekUsed := row.weekUsed + delta)];
    }

    /** One statement for all users. */
    method Reset5hQuota(now: Instant, resetHours: int)
      requires resetHours > 0
      modifies this`rows
      ensures rows.Keys == old(rows).Keys
      ensures forall u :: u in rows ==> rows[u] == Reset5h(old(rows)[u], now, resetHours)
      ensures forall u :: u in rows ==> WindowRestarts(old(rows)[u], rows[u], WindowStart(now, resetHours))
    {
      var windowStart := WindowStart(now, resetHours);
      rows := map u | u in rows :: ResetWindow(rows[u], windowStart);
    }

    method CompensateQuotaReset(now: Instant, resetHours: int)
      requires resetHours > 0
      modifies this`rows
      ensures rows.Keys == old(rows).Keys
      ensures forall u :: u in rows ==> rows[u] == Compensate(old(rows)[u], now, resetHours)
      ensures forall u :: u in rows ==>
        if old(rows)[u].windowStart < WindowStart(now, resetHours)
        then WindowRestarts(old(rows)[u], rows[u], now) else rows[u] == old(rows)[u]
    {
      var windowStart := WindowStart(now, resetHours);
      rows := map u | u in rows :: if rows[u].windowStart < windowStart then ResetWindow(rows[u], now) else rows[u];
    }

    method ResetCallCount(user: int, now: Instant)
      modifies this`rows
      ensures rows == UpdateRow(old(rows), user, row => ResetCalls(row, now))
      ensures rows.Keys == old(rows).Keys && forall u :: u in rows && u != user ==> rows[u] == old(rows)[u]
      ensures user in rows ==>
        && (forall w: CallCounter :: CallsUsed(rows[user], w) == 0)
        && (forall b: Bucket :: TokensUsed(rows[user], b) == TokensUsed(old(rows)[user], b))
        && rows[user].windowStart == now && rows[user].monthStart == old(rows)[user].monthStart
        && AnchorOf(rows[user]) == AnchorOf(old(rows)[user])
    {
      if user in rows {
        rows := rows[user := rows[user].(calls5hUsed := 0, callsTotalUsed := 0, windowStart := now)];
      }
    }

    method ResetTokenStats(user: int, now: Instant)
      modifies this`rows
      ensures rows == UpdateRow(old(rows), user, row => ResetTokens(row, now))
      ensures rows.Keys == old(rows).Keys && forall u :: u in rows && u != user ==> rows[u] == old(rows)[u]
      ensures user in rows ==>
        && (forall b: Bucket :: TokensUsed(rows[user], b) == 0)
        && (forall w: CallCounter :: CallsUsed(rows[user], w) == CallsUsed(old(rows)[user], w))
        && AnchorOf(rows[user]) == Anchor(Some(now), now) && rows[user].monthStart == now
        && rows[user].windowStart == old(rows)[user].windowStart
    {
      if user in rows {
        rows := rows[user := rows[user].(tokens5hUsed := 0, weekUsed := 0, monthUsed := 0,
                                         weekStart := Some(now), weekCycleStart := now, monthStart := now)];
      }
    }

    method ResetQuotaUsage(user: int, now: Instant)
      modifies this`rows
      ensures rows == UpdateRow(old(rows), user, row => ResetTokens(ResetCalls(row, now), now))
    {
      ResetCallCount(user, now);
      ResetTokenStats(user, now);
    }

    method ReadAnchor(user: int) returns (read: Option<Anchor>)
      ensures read == if user in rows then Some(AnchorOf(rows[user])) else None
    {
      if user !in rows { return None; }
      return Some(Anchor(rows[user].weekStart, rows[user].weekCycleStart));
    }

    /** One of two UPDATEs, or none, by what was read. */
    method ExecAnchor(user: int, read: Anchor, t: Instant, now: Instant)
      modifies this`rows
      ensures rows == UpdateRow(old(rows), user, row => SetWeekStartFrom(read, row, t, now))
    {
      var cycle := AlignedCycleStart(t, now);
      if cycle == read.cycle && read.weekStart == Some(t) { return; }
      if user !in rows { return; }
      var row := rows[user];
      if cycle == read.cycle {
        rows := rows[user := row.(weekStart := Some(t))];
      } else {
        rows := rows[user := row.(weekStart := Some(t), weekCycleStart := cycle, weekUsed := 0)];
      }
    }

    /** With nothing in between, the two statements are one. */
    method SetQuotaWeekStart(user: int, input: AnchorInput, now: Instant) returns (ok: bool)
      modifies this`rows
      ensures ok <==> !input.Malformed?
      ensures !ok ==> rows == old(rows)
      ensures ok ==>
        var t := if input.At? then input.t else now;
        rows == UpdateRow(old(rows), user, row => SetWeekStart(row, t, now))
    {
      if input.Malformed? { return false; }
      var t := if input.At? then input.t else now;
      ok := true;
      var read := ReadAnchor(user);
      if read.None? { return; }
      if user in rows { SetWeekStartRace(read.value, rows[user], t, now); }
      ExecAnchor(user, read.value, t, now);
    }

    // ----- the migration's recomputation of the month bucket

    method SqlTokenSum(user: int) returns (total: int)
      ensures total == SeqSum(logs, SqlBilledTo(user))
    {
      total := 0;
      for i := 0 to |logs|
        invariant total == SeqSum(logs[..i], SqlBilledTo(user))
      {
        SeqSumSnoc(logs[..i], logs[i], SqlBilledTo(user));
        assert logs[..i + 1] == logs[..i] + [logs[i]];
        if logs[i].userId == user {
          total := total + SqlBilled(logs[i].prompt, logs[i].completion, logs[i].multiplier);
        }
      }
      assert logs[..|logs|] == logs;
    }

    method BackfillQuotaTokenTotalUsed()
      modifies this`rows
      ensures rows.Keys == old(rows).Keys
      ensures forall u :: u in rows ==> rows[u] == old(rows)[u].(monthUsed := SeqSum(logs, SqlBilledTo(u)))
    {
      var todo: set<int> := rows.Keys;
      while todo != {}
        invariant todo <= rows.Keys == old(rows).Keys
        invariant forall u :: u in todo ==> rows[u] == old(rows)[u]
        invariant forall u :: u in rows && u !in todo ==>
          rows[u] == old(rows)[u].(monthUsed := SeqSum(logs, SqlBilledTo(u)))
      {
        var u := AnyOf(todo);
        var total := SqlTokenSum(u);
        rows := rows[u := rows[u].(monthUsed := total)];
        todo := todo - {u};
      }
    }

    // ----- an admitted request, from its outcome to its last statement

    /** A call without a bill: the refund where there is one, and a row without usage. */
    method LogUnbilled(ctx: Ctx, refund: bool, status: int, now: Instant)
      modifies this
      ensures Value() == ExecAll(old(Value()), ctx,
        if refund then [RefundCalls, LogCall(0, 0, status)] else [LogCall(0, 0, status)], now)
    {
      var todo := if refund then [RefundCalls, LogCall(0, 0, status)] else [LogCall(0, 0, status)];
      ExecAtMostThree(Value(), ctx, todo, now);
      if refund { RefundQuotaUsage(ctx.user, Calls(ctx.multiplier)); }
      InsertCallLog(ctx, 0, 0, status, now);
    }

    /** A call with a bill: the refund where there is one, the row with its usage, and the bill. */
    method LogAndBill(ctx: Ctx, refund: bool, prompt: int, completion: int, status: int, now: Instant)
      modifies this
      ensures Value() == ExecAll(old(Value()), ctx,
        (if refund then [RefundCalls] else []) + [LogCall(prompt, completion, status), BillTokens(prompt, completion)],
        now)
    {
      var bill := [LogCall(prompt, completion, status), BillTokens(prompt, completion)];
      ExecAtMostThree(Value(), ctx, (if refund then [RefundCalls] else []) + bill, now);
      if refund { RefundQuotaUsage(ctx.user, Calls(ctx.multiplier)); }
      InsertCallLog(ctx, prompt, completion, status, now);
      AddTokenUsage(ctx.user, Billed(prompt, completion, ctx.multiplier));
    }

    method HandleSync(ctx: Ctx, outcome: Outcome, now: Instant)
      requires Possible(Sync, outcome)
      modifies this
      ensures Value() == ExecAll(old(Value()), ctx, Program(Sync, outcome), now)
      ensures Posts(old(Value()), Value(), ctx, Sync, outcome, now)
    {
      ProgramPosts(Value(), ctx, Sync, outcome, now);
      match outcome {
        case BuildFailed =>
        case TransportError => LogUnbilled(ctx, true, 502, now);
        case ReadError => LogUnbilled(ctx, true, 502, now);
        case Response(status, prompt, completion) =>
          LogAndBill(ctx, status >= 400, prompt, completion, status, now);
      }
    }

    method HandleStream(ctx: Ctx, opening: StreamOpening, frames: seq<Option<Usage>>, gone: nat, now: Instant)
      modifies this
      ensures Value() == ExecAll(old(Value()), ctx, Program(Stream, StreamOutcome(opening, frames, gone)), now)
      ensures StreamPosts(old(Value()), Value(), ctx, opening, frames, gone, now)
    {
      StreamProgramPosts(Value(), ctx, opening, frames, gone, now);
      if opening.NoRequest? { return; }
      if opening.NoConnection? {
        LogUnbilled(ctx, false, 502, now);
        return;
      }
      if opening.status != 200 {
        LogUnbilled(ctx, true, opening.status, now);
        return;
      }
      if !opening.canFlush { return; }
      var prompt, completion := ReadFrames(frames, gone);
      assert [] + [LogCall(prompt, completion, 200), BillTokens(prompt, completion)]
          == [LogCall(prompt, completion, 200), BillTokens(prompt, completion)];
      LogAndBill(ctx, false, prompt, completion, 200, now);
    }

    method HandlePassthrough(ctx: Ctx, outcome: Outcome, now: Instant)
      requires Possible(Passthrough, outcome)
      modifies this
      ensures Value() == ExecAll(old(Value()), ctx, Program(Passthrough, outcome), now)
      ensures Posts(old(Value()), Value(), ctx, Passthrough, outcome, now)
    {
      ProgramPosts(Value(), ctx, Passthrough, outcome, now);
      match outcome {
        case BuildFailed =>
        case TransportError => LogUnbilled(ctx, true, 502, now);
        case Response(status, _, _) => LogUnbilled(ctx, status >= 400, status, now);
      }
    }
  }
}
