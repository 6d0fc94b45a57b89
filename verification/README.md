# Quota gateway: a verified model

The gateway forwards chat requests of many users through one upstream credential. It admits a request
under a per-user concurrency cap and five quotas (calls in the five-hour window and in total, tokens in
the five-hour window, the week and the month), chooses a provider, bills the tokens after the answer, and
keeps a call log from which several places recompute the bill. This project models that logic in Dafny
and proves what it guarantees over whole runs, and exactly where it guarantees less than its comments say.

| module | models |
|---|---|
| `Sums` | options, sums over sequences and over the values of maps |
| `Cycles`, `Ledger` | the weekly cycle; one row of `quotas` and what each SQL statement makes of it |
| `Billing` | billed tokens and the places that recompute them |
| `Lifecycle` | which statements a request executes, by kind and outcome |
| `Database`, `Concurrency` | the tables and the in-flight counters as classes, with the handlers' statements in order |
| `Gateway` | one user as a step system: every atomic counter operation and every SQL statement is a step, and any sequence of steps of any number of requests, clock ticks, scheduler and administrator is a run |
| `GatewayAlone` | a request that nothing interrupts: its steps leave in the tables what the handlers do |
| `GatewayLimiter`, `GatewayCalls`, `GatewayTokens`, `GatewayHistory`, `GatewayWeek`, `GatewayWindow`, `GatewayOverage`, `GatewayLosses` | invariants over all runs: the limiter, the call counters, the token buckets, what buckets and counters hold of the recorded past, the lazily reset week, the five-hour window, and runs that reach the overage bound or lose billed tokens |
| `Scheduling` | when the scheduler's ticks reset, and window boundaries |
| `Routing`, `Attribution`, `CallStats`, `Compaction` | rule precedence, attribution of shared quotas, the admin statistics, trimming of chat histories |

## Conventions

Instants are whole seconds in one offset, so that text order is time order; an anchor that does not parse
is `None`. `Routing` reads instants as Unix seconds and adds Shanghai's fixed offset. Multipliers and quotients are exact reals. A statement is atomic and succeeds. Requests of other
users touch neither a user's row nor the user's counter (`StatementsEffect` and `UpdateRow`), so runs are
followed for one user. The fields `phantoms`, `epochs`, `wiped` and `events` of a state, and
`deducted`, `refunded` and `admittedAt` of a request, only record the run: no step reads them to decide
anything.

## Where the code does less than it says

- A refused attempt lifts the counter above the cap until it rolls back, so the bound asserted by
  `internal/proxy/concurrency_race_test.go:31-34` can fail, and an attempt can be refused while nobody
  holds a slot (`RefusedWhileIdle`; `GrantedIff` has the exact condition).
- A cap changed between zero and positive while requests run lets a release decrement a counter it never
  raised, and then more requests than the cap hold slots (`PhantomReleaseBreaksCap`); the invariant with
  that term is `LimiterInEverySchedule`.
- "No race between this read and the UPDATE" (`internal/models/quota.go:219-222`) fails when a cycle
  boundary falls between them: usage of the new week is wiped (`StaleGateWipesWeek`), and a gate that has
  nothing to wipe still re-tags the bucket, so that the week's next bills go unseen (`StaleTicketLosesWeek`).
  Over whole runs nothing is lost if and only if every positive bill of the cycle falls under a ticket of the
  cycle and no other cycle's ticket follows it (`LazyWeek`).
- `SetQuotaWeekStart` decides by what it read: when the row enters or leaves the new anchor's cycle before the
  UPDATE, usage is wiped or the stored cycle is another (`SetWeekStartRace`). So "re-submitting the SAME weekly
  anchor must NOT wipe" usage (`internal/models/quota.go:163-164`) can fail (`ResubmitWipesBill`).
- "A single request may push used past the cap by up to one billed increment" (`quota.go:97-105`) holds for
  a concurrency cap of one. With a cap of N the bound is N bills, and it is reached (`SoftGateOverage`,
  `OverageIsReached`).
- A refund clamped at zero after a reset takes back calls of other requests. The counter is the calls still
  owed if and only if at some moment nothing was owed and no such refund has landed since
  (`CallLedgerTwoSided`); else it is lower by a tally that depends on the calls owed and those refunds alone
  (`TakenIsLeast`), and the calls owed can exceed the limit by it (`OwedWithinLimit`,
  `StraddlingRefundExceedsLimit`).
- "Transport error or a non-2xx upstream response" is refunded (`quota.go:303-305`) with three exceptions
  (`RefundsAsDocumentedIff`).
- The admin reset re-opens "every quota gate" only if the request's own charge fits each call limit
  (`FullResetReopensIff`).
- `CAST(x + 0.999999 AS INTEGER)` is not the ceiling for fractions below a millionth (`CastIsCeilIff`,
  `CastMissesTinyFraction`); the statistics read a multiplier of zero as one (`StatsSumAgreesIff`); the
  quota counter ignores rows billed below zero (`ChargedSumAgreesIff`).
- The scheduler checks twice a minute, so a boundary minute can be reset twice and calls admitted between
  the two are lost from the five-hour counter (`SecondTickWipesNewCalls`; `CounterIsAdmittedSince` says what it
  holds).
- Shares are rounded one by one, so a user's quota is "counted exactly once" only under a condition on the
  remainders (`SharesExactIff`, `CountedOnceIff`); an odd limit split evenly over two providers never is
  (`EvenSplitCountsTwice`). Calls of users without billed tokens are counted
  nowhere (`CallUsageCompleteIff`).
- `ResolveProvider` errs not "only when NO providers are configured at all" but also when the leading rule's
  provider is missing (`ErrorsIff`).
- `parseHHMM` accepts other bytes than digits (`ParseTakesColonForTen`; `ParseAcceptsIff`).

## Model

| member | source | states |
|---|---|---|
| Cycles.AlignedIsTheCycle | internal/models/quota.go:130-136 | From the anchor on, the result is the one and only start of an anchor-aligned seven-day cycle containing now; before it, the anchor |
| Cycles.AlignedIsMonotone | internal/models/quota.go:130-136 | A later instant never has an earlier cycle |
| Cycles.OneJumpIsManyRolls | internal/models/quota.go:130-136 | The jump equals rolling the bucket forward a week at a time |
| Cycles.JumpFromAnyCycle | internal/models/quota.go:130-136 | Jumping from any stored cycle start lands where jumping from the anchor does |
| Cycles.WeekResetIsFirstChange | internal/handler/quota.go:154-172 | The reset time the panel shows is in the future, and the gate's cycle is now's cycle at exactly the instants before it |
| Billing.SumMultipliedTokens | internal/handler/quota.go:186-209 | The panel total is the sum of the row bills over the user's rows since the given instant |
| Billing.BilledIff | internal/handler/quota.go:199-208 | A bill is the least whole number that covers prompt and completion, each at the multiplier |
| Billing.WholeMultiplierBills | internal/proxy/handler.go:614-614 | At a whole multiplier k every prompt and completion token costs k |
| Billing.BreakdownIff | internal/models/call_stats.go:318-330 | Total and prompt of the statistics by the same measure, completion being the rest, and a zero multiplier counting as one |
| Billing.SqlBilledIff | internal/db/migrations.go:620-629 | The SQL bill is prompt and completion at the multiplier plus 0.999999, cut toward zero |
| Billing.OneMoreRow | internal/handler/quota.go:186-209 | One more log row adds its bill to each of the sums of its user, in a window if it is not older than the start, and nothing to anybody else's |
| Billing.BreakdownParts | internal/models/call_stats.go:318-330 | Prompt and completion parts are non-negative and add up to the billed total |
| Billing.CastIsCeilIff | internal/db/migrations.go:620-629 | The SQL rounding idiom is the ceiling if and only if the fraction is zero or at least a millionth, and never more than one below it |
| Billing.CastMissesTinyFraction | internal/db/migrations.go:607-610 | A value for which the comment's claim that the idiom is the ceiling fails |
| Billing.WholeMillionthsAreCastSafe | internal/db/migrations.go:620-629 | Multipliers of whole millionths always meet that condition |
| Billing.SqlSumAgreesIff | internal/db/migrations.go:620-629 | SQL sum and panel sum of a user agree if and only if each of the user's rows meets it; the SQL sum is lower by at most one for each row of that user |
| Billing.StatsSumAgreesIff | internal/models/call_stats.go:318-330 | Statistics and panel sum of a user agree if and only if no row has tokens and a zero multiplier |
| Billing.RecomputationsAgree | internal/models/call_stats.go:138-148 | For positive multipliers of whole millionths all three recomputations agree, for every log and user |
| Billing.ChargedSumAgreesIff | internal/models/quota.go:333-336 | What the quota counter accumulates is the panel sum if and only if no row bills below zero |
| Ledger.GateEffect | internal/models/quota.go:237-261 | A refused gate leaves the whole row as it is; an open one charges both counters within their limits, is below every token limit and shows the same token usage before and after |
| Ledger.GateRefusedIff | internal/models/quota.go:237-261 | The gate is refused if and only if a nonzero limit is reached, a week of another cycle and a month begun before the cutoff counting as empty; and column by column what an admission writes |
| Ledger.StaleTicketLosesWeek | internal/models/quota.go:219-251 | After a gate with an older ticket and a later bill of the week, a gate sees usage and bill if and only if the ticket's cycle is current or both are nothing; with another cycle's ticket it sees nothing |
| Ledger.RefundUndoesGate | internal/models/quota.go:310-326 | A refund with nothing in between restores both call counters |
| Ledger.RefundMoves | internal/models/quota.go:310-326 | Column by column: both call counters fall by the refund, not below zero, unless it is not positive |
| Ledger.BillMoves | internal/models/quota.go:333-349 | Column by column: all three buckets grow by a positive amount, and nothing else moves |
| Ledger.FullResetReopensIff | internal/models/quota.go:470-491 | After the full reset the gate is open, whatever the ticket, if and only if the charge fits every positive call limit |
| Ledger.SetWeekStartEffect | internal/models/quota.go:148-203 | The stored cycle is the new anchor's cycle of now, usage survives only if it belonged to that cycle, and nothing else moves |
| Ledger.SetWeekStartTwice | internal/models/quota.go:163-193 | A second call in the same cycle changes nothing, whatever was billed since the first |
| Ledger.ResubmitKeepsVisibleWeek | internal/models/quota.go:163-193 | Re-submitting the current anchor never changes the weekly usage a gate sees now, and changes what a later gate sees if and only if usage is stored for a future cycle which that gate is in |
| Ledger.SetWeekStartRace | internal/models/quota.go:172-201 | Whatever changed the row between its SELECT and its UPDATE: exactly when the stored cycle, the visible weekly usage and the anchor are still what the call alone would leave |
| Ledger.CompensateTwice | internal/models/quota.go:399-422 | After compensation, a tick or an admin reset, compensation in the same window leaves the row as it is |
| Ledger.TokenResetStartsAfresh | internal/models/quota.go:443-468 | After a token reset the gate sees exactly what was billed since, until a week or thirty days have passed; calls and their window stay |
| Lifecycle.ProgramShape | internal/proxy/handler.go:501-617 | At most one refund and one bill, everything logged is charged, and exactly which kinds and outcomes refund and bill |
| Lifecycle.RefundsAsDocumentedIff | internal/models/quota.go:302-309 | A call is refunded as documented if and only if its kind and outcome are none of three exceptions |
| Lifecycle.CallsAreCeiling | internal/proxy/handler.go:424-430 | The calls charged are the least whole number that covers the multiplier |
| Lifecycle.ProgramPosts | internal/proxy/handler.go:501-617 | For every kind and outcome, column by column: how many rows are logged, with which status and usage, how many calls are given back and how many tokens billed |
| Lifecycle.RefusalPosts | internal/proxy/handler.go:254-277 | A refused request logs one row with status 429, and none when a passthrough request gets no slot |
| Lifecycle.StatementsEffect | internal/proxy/handler.go:512-617 | A request's statements move its own user's row and log only: every bucket gains what the log gains plus the balance, and call counters fall by refunds only |
| Lifecycle.WholeRequestEffect | internal/proxy/handler.go:501-617 | An undisturbed request keeps its charge unless refunded, and every bucket gains exactly what the log shows |
| Database.Db.InsertCallLog | internal/models/call_log.go:61-86 | One row is appended, field by field the caller's values, with "zhipu" when no provider is given |
| Database.OneRowLogged | internal/models/call_log.go:61-86 | That row adds its bill to its own user's recomputed sum and nothing to anybody else's |
| Database.Db.ReadTicket | internal/models/quota.go:216-235 | A user without a row has no ticket; else the anchor's cycle, or one starting now for an unparseable anchor, and a cutoff 2592000 seconds ago |
| Database.Db.ExecGate | internal/models/quota.go:237-272 | The guarded UPDATE: succeeds exactly when the row exists and no limit is reached, writes what an admission writes, and otherwise changes nothing |
| Database.Db.AtomicDeductQuota | internal/models/quota.go:206-273 | Without interference: succeeds if and only if no limit is reached in the current cycle and month, and writes the admission |
| Database.Db.RefundQuotaUsage | internal/models/quota.go:310-326 | The clamped refund of one user's row; other rows stay |
| Database.Db.AddTokenUsage | internal/models/quota.go:333-349 | A positive amount goes to all three buckets of one user, never looking at the cycle; others are ignored |
| Database.Db.Reset5hQuota | internal/models/quota.go:386-397 | Every row's five-hour counters are emptied and its window starts at the current window |
| Database.Db.CompensateQuotaReset | internal/models/quota.go:400-413 | The same for exactly the rows whose window began before the current one, stamped with now |
| Database.Db.ResetCallCount | internal/models/quota.go:423-440 | Both call counters of one user are zero and the window starts now; buckets, other anchors and other users stay |
| Database.Db.ResetTokenStats | internal/models/quota.go:448-468 | All three buckets of one user are zero and week, cycle and month start now; call counters, the window and other users stay |
| Database.Db.ResetQuotaUsage | internal/models/quota.go:480-491 | One user's row after both resets |
| Database.Db.ReadAnchor | internal/models/quota.go:172-176 | What the SELECT reads, nothing for a user without a row |
| Database.Db.ExecAnchor | internal/models/quota.go:177-201 | The UPDATE chosen by what was read, on the row as it is by then; no other row moves |
| Database.Db.SetQuotaWeekStart | internal/models/quota.go:148-203 | Rejects malformed anchors without a change; otherwise, uninterrupted, the row is re-anchored, now standing for empty text |
| Database.Db.SqlTokenSum | internal/db/migrations.go:620-629 | The SQL sum over one user's rows |
| Database.Db.BackfillQuotaTokenTotalUsed | internal/db/migrations.go:620-629 | Every row's month bucket becomes that user's SQL sum, whatever it held; nothing else moves |
| Database.Db.HandleSync | internal/proxy/handler.go:501-617 | The handler's statements are the program of its outcome, and post what the outcome calls for |
| Database.ReadFrames | internal/proxy/stream.go:154-207 | The usage of the last frame that carries one among those before the client was gone, and nothing if none does |
| Database.Db.HandleStream | internal/proxy/stream.go:20-213 | A served stream logs one row with status 200 and bills the usage seen last; and what each failed opening logs and gives back |
| Database.Db.HandlePassthrough | internal/proxy/passthrough.go:211-285 | The same for a passthrough request, which logs no usage and bills no tokens |
| Concurrency.UserConcurrency.TryAcquire | internal/proxy/handler.go:72-83 | Grants if and only if uncapped or below the cap, counts only when granted, touches no other user |
| Concurrency.UserConcurrency.Release | internal/proxy/handler.go:86-90 | Takes one off an existing counter, and does nothing otherwise |
| Concurrency.UserConcurrency.Visit | internal/proxy/handler.go:254-277 | A whole visit leaves every count as it was, but for an uncapped visit to an existing counter |
| Gateway.StepOk | internal/proxy/handler.go:230-617 | Every step keeps the requests well formed: at most one refund and one bill to come, each only after a deduction |
| Gateway.StepTotal | internal/proxy/handler.go:230-617 | A step moves any sum over requests by the acting request's own change alone |
| GatewayAlone.AllStatements | internal/proxy/handler.go:512-617 | The statements of a finishing request, one step each and uninterrupted, are those statements on the tables, in order |
| GatewayAlone.OutcomePosts | internal/proxy/handler.go:501-617 | An admitted request, uninterrupted, posts exactly what its kind and outcome call for |
| GatewayAlone.GatePosts | internal/models/quota.go:237-272 | The gate's step is refused if and only if a limit is reached, which logs one row with status 429; and else writes an admission and sends the request upstream |
| GatewayAlone.RefusedSlotPosts | internal/proxy/handler.go:254-277 | A request refused a slot logs one row with status 429, a passthrough request none |
| GatewayAlone.TicketIs | internal/models/quota.go:216-235 | The ticket read in the gateway: the anchor's present cycle, or one that starts now, and a cutoff 2592000 seconds ago |
| GatewayAlone.NewLimitsApply | internal/models/quota.go:275-299 | After new limits the next gate is refused if and only if one of them is reached by its own counter or bucket; what is used stays |
| GatewayLimiter.LimiterInEverySchedule | internal/proxy/handler.go:72-90 | In every schedule, zero caps included: counter = holders + attempts awaiting rollback - phantom releases, and holders never exceed the largest cap plus the phantom releases |
| GatewayLimiter.LimiterSafety | internal/proxy/handler.go:72-90 | With positive caps: holders within the cap, counter = holders + awaiting, and zero when idle |
| GatewayLimiter.PositiveCapsHaveNoPhantoms | internal/proxy/handler.go:72-90 | No release without an acquisition while caps are positive |
| GatewayLimiter.UnlimitedNeverCounted | internal/proxy/handler.go:72-75 | A user whose cap is zero throughout never gets a counter |
| GatewayLimiter.GrantedIff | internal/proxy/handler.go:77-81 | An attempt is granted if and only if holders, awaiting attempts and phantom releases leave room below its own cap |
| GatewayLimiter.CapHoldsIff | internal/proxy/handler.go:72-83 | An attempt keeps the holders within the cap if and only if there is room for one more or the attempt is refused |
| GatewayLimiter.LimiterExactness | internal/proxy/concurrency_race_test.go:9-14 | While nobody releases, exactly min(cap, attempts) are granted, at every moment of every schedule |
| GatewayLimiter.UninterruptedAttempt | internal/proxy/handler.go:72-83 | Run without interference, the three operations are the sequential acquisition |
| GatewayLimiter.RefusedWhileIdle | internal/proxy/concurrency_race_test.go:23-38 | A schedule with cap one in which the counter is two, nobody holds a slot and an attempt is about to be refused |
| GatewayLimiter.PhantomReleaseBreaksCap | internal/proxy/handler.go:85-90 | A schedule with caps zero and one that ends with two holders |
| GatewayCalls.CallLedgerTwoSided | internal/models/quota.go:310-326 | In every schedule: used >= 0, owed - straddling refunds <= used <= owed, used + taken = owed; and used = owed if and only if at some moment nothing was owed and no straddling refund has landed since |
| GatewayCalls.TakenIsLeast | internal/models/quota.go:307-326 | The taken calls are the least, over all moments, of the calls then owed and the straddling refunds landing afterwards |
| GatewayCalls.CallLimitSafety | internal/models/quota.go:246-248 | Once within its limit a call counter stays within it, through old tickets, refunds, anchor changes and all resets |
| GatewayCalls.OwedWithinLimit | internal/models/quota.go:206-273 | Calls owed since the reset exceed a positive limit by at most the straddling refunds, and are within it if and only if used + taken is, which a clean run guarantees |
| GatewayCalls.StraddlingRefundExceedsLimit | internal/models/quota.go:307-309 | A schedule with a limit of one call that leaves two calls owed |
| GatewayTokens.TokenConservation | internal/proxy/handler.go:585-617 | In every schedule each bucket + what resets removed + what is logged but not charged = what the log charges; nothing is outstanding when no request is finishing |
| GatewayHistory.BucketIsBilledSince | internal/models/quota.go:333-349 | In every schedule each bucket is exactly the tokens billed since the step that last emptied it, and resets removed all the others |
| GatewayHistory.BucketAgreesWithLogIff | internal/proxy/handler.go:585-617 | A bucket + what is logged but not charged is the charged log if and only if no token was billed before a step that emptied the bucket |
| GatewayHistory.MonthAgreesWithLog | internal/proxy/stream.go:122-151 | The same for the month, and then it is the panel's sum of the log if and only if no row bills below zero |
| GatewayHistory.ThirtyDaysKeepTheMonth | internal/models/quota.go:242-243 | Without a token reset nothing is emptied from the month in the first thirty days |
| GatewayLosses.MonthLeavesTheLog | internal/models/quota.go:242-243 | A run without a token reset in which, after thirty days, the month bucket is empty and the log charges one token |
| GatewayHistory.CounterIsAdmittedSince | internal/models/quota.go:237-261 | If nobody was refunded since the step that last emptied a call counter, it is exactly the calls admitted since |
| GatewayTokens.SoftGateOverage | internal/models/quota.go:97-109 | In every schedule with fixed limits, caps of at most N and bills of at most B: used + B * (requests that may still bill) <= limit - 1 + N * B, for each bucket |
| GatewayOverage.OverageIsReached | internal/models/quota.go:97-109 | For every bucket, limit, N and B, when no other limit stands in the way, a run that meets all conditions of the bound ends at limit - 1 + N * B |
| GatewayOverage.RoundsAreFewest | internal/models/quota.go:97-109 | The calls that run needs before the last N are the fewest bills of at most B that make up limit - 1 |
| GatewayOverage.ModestBills | internal/proxy/handler.go:614-617 | Answers within the bound at a multiplier of one keep every bill within it, in every schedule |
| GatewayWeek.LazyWeek | internal/models/quota.go:206-251 | For a fixed anchor, in every schedule: seen + lost = tokens billed in the cycle since its first admission <= tokens billed in the cycle; the first two are equal if and only if every positive bill falls under the cycle's ticket and no other cycle's ticket follows |
| GatewayWeek.LazyWeekOfCurrentTickets | internal/models/quota.go:206-251 | Nothing is lost while every gate is passed with a ticket of its own cycle |
| GatewayWeek.KeptAndLost | internal/models/quota.go:237-251 | What stays in the bucket and what is lost make up what was billed in the opened cycle |
| GatewayWeek.LazyAgainstEager | internal/models/quota.go:237-251 | The eager count is larger by tokens of requests admitted in earlier cycles only |
| GatewayWeek.NewCycleReopens | internal/models/quota.go:237-251 | However much of a week is used, once the clock is in another cycle the next request goes upstream if and only if no other limit is reached |
| GatewayWeek.StaleGateWipesWeek | internal/models/quota.go:219-222 | A run in which a gate with last week's ticket wipes a token billed this week |
| GatewayLosses.ResubmitWipesBill | internal/models/quota.go:163-197 | A run in which re-submitting the anchor in place wipes a bill of the current week, because the row entered that week between SELECT and UPDATE |
| Scheduling.Scheduler.TryReset | internal/quota/scheduler.go:59-77 | Every row is reset in a boundary minute, and no row outside one |
| Scheduling.Scheduler.Compensate | internal/quota/scheduler.go:81-90 | Every row is compensated |
| Scheduling.FiresInBoundaryMinute | internal/quota/scheduler.go:64-67 | A tick resets if and only if it falls in the first minute after a window boundary |
| Scheduling.BoundaryIs | internal/quota/scheduler.go:61-65 | A window boundary, in seconds since local midnight, is a full hour whose number is a multiple of the reset interval |
| Scheduling.WindowStartIsLastBoundary | internal/models/quota.go:387-390 | The computed window start is the latest boundary that has passed |
| Scheduling.CompensationIff | internal/models/quota.go:399-413 | Compensation resets a row if and only if a boundary passed since the row's window began |
| Scheduling.NoBoundaryMissed | internal/quota/scheduler.go:31-77 | Ticks at most a minute apart reset within the first minute of every boundary between them |
| GatewayWindow.NothingOlderThanBoundary | internal/quota/scheduler.go:59-77 | In every schedule whose ticks are at most a minute apart around a boundary, whatever requests, compensation and administrator do: the five-hour counters hold nothing admitted or billed before it |
| GatewayWindow.ChargeSurvivesTickIff | internal/quota/scheduler.go:64-77 | A charge survives a tick if and only if the tick is in no boundary minute |
| GatewayWindow.SecondTickWipesNewCalls | internal/quota/scheduler.go:40-67 | A run in which two ticks in one boundary minute lose a call admitted between them |
| Routing.ParseAcceptsIff | internal/router/selector.go:346-359 | A string is a time of day in HH:MM if and only if it parses and its four places are digits |
| Routing.ParseTakesColonForTen | internal/router/selector.go:352-353 | A malformed string that parses as ten o'clock |
| Routing.MaskMatchesIff | internal/timeutil/timeutil.go:51-71 | A comma-separated list of days, with or without spaces around them, matches exactly on those days, the empty one and the star always |
| Routing.FormatOrder | internal/timeutil/timeutil.go:34-49 | On HH:MM text, lexicographic order is the order of minutes |
| Routing.LexLessIff | internal/timeutil/timeutil.go:41-49 | The string order: a proper prefix, or smaller in the first place that differs |
| Routing.InRangeInMinutes | internal/timeutil/timeutil.go:41-49 | A well-formed window contains its first minute and not its last, overnight ones wrap around |
| Routing.ShanghaiClock | internal/timeutil/timeutil.go:25-32 | Minute and weekday are those eight hours ahead of UTC |
| Routing.WidthCountsMinutes | internal/router/selector.go:332-344 | The width of a well-formed window is the number of minutes it accepts, overnight and empty windows included |
| Routing.MalformedIsWidest | internal/router/selector.go:330-337 | A window with a time that does not parse is as wide as a day and wider than any well-formed one |
| Routing.SortRoutingRules | internal/router/selector.go:310-325 | A permutation in which no later rule has higher priority, at equal priority a narrower window, or at equal width a lower id |
| Routing.ResolveProvider | internal/router/selector.go:181-220 | If enabled rules include now, the answer is the provider stored under the id of one that no other such rule beats in priority, then width, then id, or an error that names it; the default answers only otherwise |
| Routing.LeaderIsUnique | internal/router/selector.go:310-325 | With unique ids there is one such rule, and it precedes every other one that applies |
| Routing.ErrorsIff | internal/router/selector.go:168-173 | There is no provider to answer if and only if the leading rule's is missing or, when no rule applies, none is configured |
| Routing.OrderIsIrrelevant | internal/router/selector.go:181-220 | Two tables with the same rules in any order give the same answer |
| Routing.NarrowerWindowWins | internal/router/selector.go:168-180 | Of two applicable rules of equal priority, one whose window lies strictly inside the other's goes first |
| Attribution.GroupUsage | internal/models/provider_usage.go:335-372 | Each cell, and each user's row of cells, holds exactly what the log says since the start of the window |
| Attribution.OneMoreInWindow | internal/models/provider_usage.go:335-346 | One more log row adds its SQL bill and its calls to its user's window if it is not older than the start |
| Attribution.TotalBilled | internal/models/provider_usage.go:389-392 | The sum over a user's providers, in whatever order they are visited |
| Attribution.RoundIff | internal/models/provider_usage.go:402-407 | Rounding is to the nearest whole number, and halves away from zero |
| Attribution.SharesAddUp | internal/models/provider_usage.go:265-267 | One user's rounded shares add up to the limit within half a unit for each provider |
| Attribution.SharesExactIff | internal/models/provider_usage.go:265-267 | They add up to the limit exactly if and only if the remainders of the rounded divisions add up to the total for each provider, and in general differ from it by an amount computed from the remainders |
| Attribution.OneProviderIsExact | internal/models/provider_usage.go:265-267 | A user of one provider is counted exactly once |
| Attribution.CountedOnceIff | internal/models/provider_usage.go:263-267 | Over all users the attributed quotas, of tokens and of calls, are the finite limits plus those excesses, so exactly the limits if and only if the excesses cancel |
| Attribution.DistributeUser | internal/models/provider_usage.go:396-407 | Each provider gets its own credit and no other provider anything; usage is added exactly, shares within half a unit for each provider |
| Attribution.Attribute | internal/models/provider_usage.go:384-408 | Each provider's load is the sum of the users' contributions; over all providers usage is conserved and shares differ from the finite limits by at most half the number of pairs |
| Attribution.GetAutoUserAllocation | internal/models/provider_usage.go:281-417 | From the log on: usage over all providers is what the log bills the users with billed usage, each load adds up from cells the log gives, and usage and shares are conserved as above |
| Attribution.CallUsageCompleteIff | internal/models/provider_usage.go:271-273 | The attributed calls are all calls if and only if users without billed tokens made none |
| Attribution.EvenSplitCountsTwice | internal/models/provider_usage.go:265-267 | A limit split evenly over two providers is attributed one unit too often if it is odd, and exactly if it is even |
| CallStats.GrandTotals | internal/models/call_stats.go:171-197 | Each total is the sum of the rows' contributions, parts are non-negative and add up |
| CallStats.RowMeans | internal/models/call_stats.go:183-196 | One row counts as one call, with its breakdown and its effective calls |
| CallStats.FilterMeans | internal/models/call_stats.go:372-420 | A filter keeps exactly the rows that meet every condition given, both dates included |
| CallStats.LowerEqualIff | internal/models/call_stats.go:372-420 | Models are told apart but for the case of ASCII letters |
| CallStats.GroupBy | internal/models/call_stats.go:216-245 | One group for each key that occurs; each group is the sum of its own rows; the groups add up to all rows |
| CallStats.AggregateCallStats | internal/models/call_stats.go:154-304 | Both groupings, by lower-cased model and by user, partition the grand totals in every measure, calls are the rows kept, and prompt + completion = total at every level |
| CallStats.UserTotal | internal/models/call_stats.go:154-304 | The total shown for one user is the sum the other recomputations are compared with |
| Compaction.CompactMessagesToBudget | internal/proxy/handler.go:702-783 | A body within budget, without budget or without messages is forwarded as it is; any other as all system messages and the longest suffix of the others that fits, at least one, and it fits if and only if that minimum does |
| Compaction.SplitByRole | internal/proxy/handler.go:725-737 | The loop separates system messages from others, each in order |
| Compaction.CompactionIsOptimal | internal/proxy/handler.go:697-701 | The functional compaction has the same property |
| Compaction.SerializedSize | internal/proxy/handler.go:739-765 | The size that is compared: the envelope, two brackets, each message, and a comma between messages |
| Compaction.Partition | internal/proxy/handler.go:725-737 | No message is lost or doubled by the separation, and the role "system" alone tells them apart |
| Compaction.WithRoleAppend | internal/proxy/handler.go:725-737 | The separation keeps the order of the messages |
| Compaction.LargerBudgetKeepsMore | internal/proxy/handler.go:702-783 | A larger budget never keeps fewer messages |
| Compaction.CompactTwice | internal/proxy/handler.go:702-783 | Compacting twice is compacting once |

## Left out

- SQLite, SQL text, transactions and failing statements: each executed statement is one atomic step that succeeds.
- JSON bytes: a message is a role and the size of its serialization, and parsing a serialized body gives it back.
- Floating point: multipliers, shares and products are exact reals.
- Time-zone text and rows in other text formats: one canonical offset is assumed, and the local offset is part of the instants.
- ForgetConcurrency: deleting a counter while requests run is not modelled.
- Provider names and error texts on refused and failed rows: such rows carry the request's own fields; the bookkeeping column updated_at is dropped too.
- The three clock reads inside one gate: taken as one instant; a later UPDATE with an older ticket is modelled.
- The zero time as an anchor: the gate reads it as now (internal/models/quota.go:232) while SetQuotaWeekStart and computeWeekResetAt take it as it is; anchors are assumed to be other instants.
- The separate clock readings of tryReset and Reset5hQuota: one tick uses one reading; the step WindowReset stands for a reset that reads a later one.
- Spaces outside ASCII around the days of a weekday mask: not trimmed.
- Limit setters: one step sets all five limits at once.
- HTTP transport, header copying, event parsing, timeouts and panics: only the outcome of an exchange is kept.
- Provider, user and key administration, login, encryption, configuration, audit logs and the admin page: plumbing.
- RewriteModel and the choice among providers when no default is set: the order of a Go map decides, so any provider is allowed there.
- Success counts, raw token columns, user names and the final sorting of the statistics: they would add easy members; the groups by model also carry effective calls, which the source keeps for users only.
- Pool totals, the unlimited user count and the final sorting of the attribution: sums over the user list alone.
- computeMonthResetAt and freshWindow: displays of a fixed interval after a stored instant.
- Go's stable sort: modelled as insertion sort; only order and permutation are used.
- OverageIsReached: asks that other buckets are unlimited or at least as large and that call limits allow as many calls as the bills need, because otherwise another limit may stop the requests first.
- CountedOnceIff: assumes usage that is not negative, as SharesExactIff does; SharesAddUp and Attribute hold without.
- OrderIsIrrelevant: leaves out tables in which no rule applies and no default is set, where any provider may answer.
