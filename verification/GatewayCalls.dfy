/** The two call counters over whole runs: limits, and the clamped refunds that may land after a reset. */
module GatewayCalls {
  import opened Cycles
  import opened Gateway
  import opened Ledger
  import opened Lifecycle
  import opened Sums

  /** Calls deducted since the counter's last reset and not refunded. */
  ghost function Owed(s: State, w: CallCounter): int { Total(s, Owes(w, EpochOf(s.epochs, w))) }

  /** Calls refunded since the counter's last reset that had been deducted before it. */
  ghost function Straddled(s: State, w: CallCounter): int { Total(s, Straddles(w, EpochOf(s.epochs, w))) }

  ghost predicate TwoSided(s: State, w: CallCounter) {
    0 <= CallsUsed(s.row, w) && Owed(s, w) - Straddled(s, w) <= CallsUsed(s.row, w) <= Owed(s, w)
  }

  ghost predicate Clamped(s: State, after: State, calls: int, w: CallCounter) {
    CallsUsed(after.row, w) == Max(0, CallsUsed(s.row, w) - calls)
  }

  /** What one move does to a call counter and to the actor's weights: nothing, an admission, a refund of
      this epoch's deduction, or a refund of an earlier one. */
  ghost predicate CallsEffect(s: State, after: State, q: Request, q': Request, w: CallCounter) {
    var e := EpochOf(s.epochs, w);
    var calls := Calls(q.ctx.multiplier);
    var owes := WeightOf(Owes(w, e), q') - WeightOf(Owes(w, e), q);
    var straddles := WeightOf(Straddles(w, e), q') - WeightOf(Straddles(w, e), q);
    && after.epochs == s.epochs
    && (|| (CallsUsed(after.row, w) == CallsUsed(s.row, w) && owes == straddles == 0)
        || (calls >= 1 && CallsUsed(after.row, w) == CallsUsed(s.row, w) + calls
            && (CallsLimit(s.row, w) == 0 || CallsUsed(after.row, w) <= CallsLimit(s.row, w))
            && owes == calls && straddles == 0)
        || (calls >= 1 && Clamped(s, after, calls, w) && owes == -calls && straddles == 0)
        || (calls >= 1 && Clamped(s, after, calls, w) && owes == 0 && straddles == calls))
    && CallsLimit(after.row, w) == CallsLimit(s.row, w)
  }

  lemma AdvanceOnCalls(s: State, r: nat, q: Request, move: Move, w: CallCounter)
    requires r in s.requests && s.requests[r] == q && RequestOk(s, q)
    ensures CallsEffect(s, Advance(s, r, q, move), q, Advance(s, r, q, move).requests[r], w)
  {
    match (move, q.phase)
    case (ExecGate, GateRead(t)) => GateOnCalls(s, r, q, t, w);
    case (RunStmt, Closing(todo)) => if todo != [] { ExecuteOnCalls(s, r, q, todo, w); }
    case (Respond(_), _) =>
    case (ReadGate(_, _, _), _) =>
    case (ExecGate, _) =>
    case (RunStmt, _) =>
    case _ => SlotMoveFrame(s, r, q, move);
  }

  lemma GateOnCalls(s: State, r: nat, q: Request, t: Ticket, w: CallCounter)
    requires RequestOk(s, q) && q.phase == GateRead(t)
    ensures CallsEffect(s, PassGate(s, r, q, t), q, PassGate(s, r, q, t).requests[r], w)
  {
  }

  lemma ExecuteOnCalls(s: State, r: nat, q: Request, todo: seq<Stmt>, w: CallCounter)
    requires RequestOk(s, q) && q.phase == Closing(todo) && todo != []
    ensures CallsEffect(s, Execute(s, r, q, todo), q, Execute(s, r, q, todo).requests[r], w)
  {
  }

  lemma OwedNonneg(s: State, w: CallCounter, e: nat)
    requires Ok(s)
    ensures Total(s, Owes(w, e)) >= 0
  {
    SumZero(s.requests, _ => 0);
    SumLe(s.requests, _ => 0, _ => 0, Weigh(Owes(w, e)));
  }

  lemma NewEpochIsEmpty(s: State, w: CallCounter, e: nat)
    requires Ok(s) && e > EpochOf(s.epochs, w)
    ensures Total(s, Owes(w, e)) == 0 && Total(s, Straddles(w, e)) == 0
  {
    SumZero(s.requests, Weigh(Owes(w, e)));
    SumZero(s.requests, Weigh(Straddles(w, e)));
  }

  lemma AdminOnCalls(s: State, op: Op, w: CallCounter)
    requires Ok(s) && TwoSided(s, w)
    ensures TwoSided(Admin(s, op), w)
  {
    NewEpochIsEmpty(s, w, EpochOf(s.epochs, w) + 1);
  }

  lemma ActOnCalls(s: State, r: nat, move: Move, w: CallCounter)
    requires Ok(s) && TwoSided(s, w) && r in s.requests
    ensures TwoSided(Step(s, Act(r, move)), w)
  {
    AdvanceOnCalls(s, r, s.requests[r], move, w);
    ActTotal(s, r, move, Owes(w, EpochOf(s.epochs, w)));
    ActTotal(s, r, move, Straddles(w, EpochOf(s.epochs, w)));
    StepOk(s, Act(r, move));
    EffectKeepsTwoSided(s, Advance(s, r, s.requests[r], move), r, w);
  }

  lemma EffectKeepsTwoSided(s: State, after: State, r: nat, w: CallCounter)
    requires TwoSided(s, w) && r in s.requests && r in after.requests && Ok(after)
    requires CallsEffect(s, after, s.requests[r], after.requests[r], w)
    requires
      var k := Owes(w, EpochOf(s.epochs, w));
      Total(after, k) == Total(s, k) + WeightOf(k, after.requests[r]) - WeightOf(k, s.requests[r])
    requires
      var k := Straddles(w, EpochOf(s.epochs, w));
      Total(after, k) == Total(s, k) + WeightOf(k, after.requests[r]) - WeightOf(k, s.requests[r])
    ensures TwoSided(after, w)
  {
    OwedNonneg(after, w, EpochOf(s.epochs, w));
  }

  lemma StepTwoSided(s: State, a: Action, w: CallCounter)
    requires Ok(s) && TwoSided(s, w)
    ensures TwoSided(Step(s, a), w)
  {
    match a
    case Act(r, move) => if r in s.requests { ActOnCalls(s, r, move, w); }
    case Do(op) => AdminOnCalls(s, op, w);
    case _ =>
      StepTotal(s, a, Owes(w, EpochOf(s.epochs, w)));
      StepTotal(s, a, Straddles(w, EpochOf(s.epochs, w)));
  }

  // ----- what straddling refunds take

  /** Calls of straddling refunds that land in a step. */
  ghost function Landed(s: State, a: Action, w: CallCounter): nat {
    Max(0, Straddled(Step(s, a), w) - Straddled(s, w))
  }

  ghost function LandedIn(s: State, schedule: seq<Action>, w: CallCounter): nat
    decreases |schedule|
  {
    if schedule == [] then 0
    else Landed(s, schedule[0], w) + LandedIn(Step(s, schedule[0]), schedule[1..], w)
  }

  /** What is taken after one more step. */
  ghost function TakenNext(s: State, a: Action, taken: int, w: CallCounter): int {
    Min(Owed(Step(s, a), w), taken + Landed(s, a, w))
  }

  /** The owed calls that straddling refunds have taken off the counter, never more than are owed: refunding or
      resetting what is owed makes good what was taken from it. The counter itself plays no part. */
  ghost function Taken(s: State, schedule: seq<Action>, taken: int, w: CallCounter): int
    decreases |schedule|
  {
    if schedule == [] then taken
    else
      Taken(Step(s, schedule[0]), schedule[1..], TakenNext(s, schedule[0], taken, w), w)
  }

  lemma EffectOnTaken(s: State, after: State, r: nat, w: CallCounter, taken: int)
    requires TwoSided(s, w) && r in s.requests && r in after.requests
    requires Owed(after, w) >= 0 && Accounted(s, w, taken)
    requires CallsEffect(s, after, s.requests[r], after.requests[r], w)
    requires
      var k := Owes(w, EpochOf(s.epochs, w));
      Total(after, k) == Total(s, k) + WeightOf(k, after.requests[r]) - WeightOf(k, s.requests[r])
    requires
      var k := Straddles(w, EpochOf(s.epochs, w));
      Total(after, k) == Total(s, k) + WeightOf(k, after.requests[r]) - WeightOf(k, s.requests[r])
    ensures CallsUsed(after.row, w)
      + Min(Owed(after, w), taken + Max(0, Straddled(after, w) - Straddled(s, w))) == Owed(after, w)
  {
  }

  lemma ActOnTaken(s: State, r: nat, move: Move, w: CallCounter, taken: int)
    requires Ok(s) && TwoSided(s, w) && r in s.requests && Accounted(s, w, taken)
    ensures
      var next := Step(s, Act(r, move));
      CallsUsed(next.row, w) + Min(Owed(next, w), taken + Landed(s, Act(r, move), w)) == Owed(next, w)
  {
    AdvanceOnCalls(s, r, s.requests[r], move, w);
    ActTotal(s, r, move, Owes(w, EpochOf(s.epochs, w)));
    ActTotal(s, r, move, Straddles(w, EpochOf(s.epochs, w)));
    StepOk(s, Act(r, move));
    OwedNonneg(Step(s, Act(r, move)), w, EpochOf(s.epochs, w));
    EffectOnTaken(s, Advance(s, r, s.requests[r], move), r, w, taken);
  }

  /** Counter and taken calls are the calls owed. */
  ghost predicate Accounted(s: State, w: CallCounter, taken: int) {
    taken >= 0 && CallsUsed(s.row, w) + taken == Owed(s, w)
  }

  lemma AdminOnTaken(s: State, op: Op, w: CallCounter, taken: int)
    requires Ok(s) && Accounted(s, w, taken) && CallsUsed(s.row, w) >= 0
    ensures
      var next := Admin(s, op);
      CallsUsed(next.row, w)
        + Min(Owed(next, w), taken + Max(0, Straddled(next, w) - Straddled(s, w))) == Owed(next, w)
  {
    NewEpochIsEmpty(s, w, EpochOf(s.epochs, w) + 1);
    OwedNonneg(s, w, EpochOf(s.epochs, w));
  }

  lemma StepOnTaken(s: State, a: Action, w: CallCounter, taken: int)
    requires Ok(s) && TwoSided(s, w) && Accounted(s, w, taken)
    ensures Accounted(Step(s, a), w, TakenNext(s, a, taken, w))
  {
    StepOk(s, a);
    OwedNonneg(Step(s, a), w, EpochOf(Step(s, a).epochs, w));
    match a
    case Act(r, move) => if r in s.requests { ActOnTaken(s, r, move, w, taken); }
    case Do(op) => AdminOnTaken(s, op, w, taken);
    case _ =>
      StepTotal(s, a, Owes(w, EpochOf(s.epochs, w)));
      StepTotal(s, a, Straddles(w, EpochOf(s.epochs, w)));
  }

  ghost predicate LedgerInv(s: State, w: CallCounter, taken: int) {
    Ok(s) && TwoSided(s, w) && Accounted(s, w, taken)
  }

  lemma StepLedger(s: State, a: Action, w: CallCounter, taken: int)
    requires LedgerInv(s, w, taken)
    ensures LedgerInv(Step(s, a), w, TakenNext(s, a, taken, w))
  {
    StepOk(s, a);
    StepTwoSided(s, a, w);
    StepOnTaken(s, a, w, taken);
  }

  lemma {:induction false} RunLedger(s: State, schedule: seq<Action>, w: CallCounter, taken: int)
    requires LedgerInv(s, w, taken)
    ensures LedgerInv(Run(s, schedule), w, Taken(s, schedule, taken, w))
    decreases |schedule|
  {
    if schedule != [] {
      StepLedger(s, schedule[0], w, taken);
      RunLedger(Step(s, schedule[0]), schedule[1..], w, TakenNext(s, schedule[0], taken, w));
    }
  }

  /** The calls owed after k steps and the straddling refunds that land afterwards. */
  ghost function OwedThenLanded(s: State, schedule: seq<Action>, k: nat, w: CallCounter): int
    requires k <= |schedule|
  {
    Owed(Run(s, schedule[..k]), w) + LandedIn(Run(s, schedule[..k]), schedule[k..], w)
  }

  /** OwedThenLanded for every moment after the first. */
  ghost function Moments(s: State, schedule: seq<Action>, w: CallCounter): seq<int>
    decreases |schedule|
  {
    if schedule == [] then []
    else
      var next := Step(s, schedule[0]);
      [Owed(next, w) + LandedIn(next, schedule[1..], w)] + Moments(next, schedule[1..], w)
  }

  lemma {:induction false} MomentsLength(s: State, schedule: seq<Action>, w: CallCounter)
    ensures |Moments(s, schedule, w)| == |schedule|
    decreases |schedule|
  {
    if schedule != [] { MomentsLength(Step(s, schedule[0]), schedule[1..], w); }
  }

  lemma LaterMoment(s: State, schedule: seq<Action>, k: nat, w: CallCounter)
    requires 1 <= k <= |schedule|
    ensures OwedThenLanded(s, schedule, k, w) == OwedThenLanded(Step(s, schedule[0]), schedule[1..], k - 1, w)
  {
    assert schedule[..k][1..] == schedule[1..][..k - 1];
    assert schedule[k..] == schedule[1..][k - 1..];
  }

  lemma FirstMoment(s: State, schedule: seq<Action>, w: CallCounter)
    ensures OwedThenLanded(s, schedule, 0, w) == Owed(s, w) + LandedIn(s, schedule, w)
  {
    assert schedule[..0] == [] && schedule[0..] == schedule;
  }

  lemma MomentsUnroll(s: State, schedule: seq<Action>, w: CallCounter)
    requires schedule != []
    ensures
      var next := Step(s, schedule[0]);
      Moments(s, schedule, w) == [OwedThenLanded(next, schedule[1..], 0, w)] + Moments(next, schedule[1..], w)
  {
    FirstMoment(Step(s, schedule[0]), schedule[1..], w);
  }

  lemma {:induction false} MomentAt(s: State, schedule: seq<Action>, k: nat, w: CallCounter)
    requires 1 <= k <= |schedule| == |Moments(s, schedule, w)|
    ensures Moments(s, schedule, w)[k - 1] == OwedThenLanded(s, schedule, k, w)
    decreases |schedule|
  {
    MomentsUnroll(s, schedule, w);
    LaterMoment(s, schedule, k, w);
    if k > 1 { MomentAt(Step(s, schedule[0]), schedule[1..], k - 1, w); }
  }

  ghost predicate IsLeast(end: int, first: int, others: seq<int>) {
    && end <= first
    && (forall k :: 0 <= k < |others| ==> end <= others[k])
    && (end == first || exists k :: 0 <= k < |others| && end == others[k])
  }

  lemma LeastOfMore(end: int, first: int, x: int, landed: int, others: seq<int>)
    requires IsLeast(end, Min(x, first) + landed, others)
    ensures IsLeast(end, first + landed, [x + landed] + others)
  {
    var all := [x + landed] + others;
    assert all[0] == x + landed;
    forall k | 0 <= k < |all| ensures end <= all[k] {}
    if k :| 0 <= k < |others| && end == others[k] { assert all[k + 1] == end; }
  }

  lemma {:induction false} TakenIsLeastOfMoments(s: State, schedule: seq<Action>, taken: int, w: CallCounter)
    ensures IsLeast(Taken(s, schedule, taken, w), taken + LandedIn(s, schedule, w), Moments(s, schedule, w))
    decreases |schedule|
  {
    if schedule != [] {
      var next, rest := Step(s, schedule[0]), schedule[1..];
      var first := taken + Landed(s, schedule[0], w);
      var end := Taken(next, rest, TakenNext(s, schedule[0], taken, w), w);
      TakenIsLeastOfMoments(next, rest, TakenNext(s, schedule[0], taken, w), w);
      LeastOfMore(end, first, Owed(next, w), LandedIn(next, rest, w), Moments(next, rest, w));
    }
  }

  /** Where nothing is owed at first, what was taken is the least, over all moments, of the calls then owed and
      the straddling refunds landing afterwards. */
  lemma TakenIsLeast(s: State, schedule: seq<Action>, w: CallCounter)
    requires Owed(s, w) == 0
    ensures forall k :: 0 <= k <= |schedule| ==> Taken(s, schedule, 0, w) <= OwedThenLanded(s, schedule, k, w)
    ensures exists k :: 0 <= k <= |schedule| && Taken(s, schedule, 0, w) == OwedThenLanded(s, schedule, k, w)
  {
    var end := Taken(s, schedule, 0, w);
    TakenIsLeastOfMoments(s, schedule, 0, w);
    MomentsLength(s, schedule, w);
    FirstMoment(s, schedule, w);
    forall k | 0 <= k <= |schedule| ensures end <= OwedThenLanded(s, schedule, k, w) {
      if k > 0 { MomentAt(s, schedule, k, w); }
    }
    if end != LandedIn(s, schedule, w) {
      var k :| 0 <= k < |Moments(s, schedule, w)| && end == Moments(s, schedule, w)[k];
      MomentAt(s, schedule, k + 1, w);
    }
  }

  /** At some moment nothing was owed, and no straddling refund has landed since. */
  ghost predicate Clean(s: State, schedule: seq<Action>, w: CallCounter) {
    exists k :: 0 <= k <= |schedule| && OwedThenLanded(s, schedule, k, w) == 0
  }

  lemma OwedThenLandedNonneg(s: State, schedule: seq<Action>, k: nat, w: CallCounter)
    requires Ok(s) && k <= |schedule|
    ensures OwedThenLanded(s, schedule, k, w) >= 0
    ensures OwedThenLanded(s, schedule, k, w) == 0 <==>
      Owed(Run(s, schedule[..k]), w) == 0 && LandedIn(Run(s, schedule[..k]), schedule[k..], w) == 0
  {
    var mid := Run(s, schedule[..k]);
    RunOk(s, schedule[..k]);
    OwedNonneg(mid, w, EpochOf(mid.epochs, w));
  }

  lemma CleanIff(s: State, schedule: seq<Action>, w: CallCounter)
    requires Ok(s) && Owed(s, w) == 0
    ensures Taken(s, schedule, 0, w) >= 0
    ensures forall k :: 0 <= k <= |schedule| ==> Taken(s, schedule, 0, w) <= OwedThenLanded(s, schedule, k, w)
    ensures exists k :: 0 <= k <= |schedule| && Taken(s, schedule, 0, w) == OwedThenLanded(s, schedule, k, w)
    ensures Taken(s, schedule, 0, w) == 0 <==> Clean(s, schedule, w)
  {
    var taken := Taken(s, schedule, 0, w);
    TakenIsLeast(s, schedule, w);
    var k :| 0 <= k <= |schedule| && taken == OwedThenLanded(s, schedule, k, w);
    OwedThenLandedNonneg(s, schedule, k, w);
  }

  /** For a fresh user, in every schedule and for each call counter: counter plus taken calls are the calls
      still owed. What is taken is at most the straddling refunds since the last reset, and nothing, so that the
      counter is the calls owed, if and only if the run is clean. */
  lemma CallLedgerTwoSided(user: int, row: Row, now: Instant, schedule: seq<Action>, w: CallCounter)
    requires Fresh(row, now)
    ensures
      var s0 := Init(user, row, now);
      var s := Run(s0, schedule);
      && 0 <= CallsUsed(s.row, w)
      && Owed(s, w) - Straddled(s, w) <= CallsUsed(s.row, w) <= Owed(s, w)
      && CallsUsed(s.row, w) + Taken(s0, schedule, 0, w) == Owed(s, w)
      && (CallsUsed(s.row, w) == Owed(s, w) <==> Clean(s0, schedule, w))
      && (Straddled(s, w) == 0 ==> Clean(s0, schedule, w))
  {
    var s0 := Init(user, row, now);
    SumZero(s0.requests, Weigh(Owes(w, 0)));
    SumZero(s0.requests, Weigh(Straddles(w, 0)));
    RunLedger(s0, schedule, w, 0);
    CleanIff(s0, schedule, w);
  }

  // ----- limits

  ghost predicate WithinLimit(row: Row, w: CallCounter) {
    0 <= CallsUsed(row, w) && (CallsLimit(row, w) > 0 ==> CallsUsed(row, w) <= CallsLimit(row, w))
  }

  lemma StepWithinLimit(s: State, a: Action, w: CallCounter)
    requires Ok(s) && WithinLimit(s.row, w) && (a.Do? ==> !a.op.NewLimits?)
    ensures WithinLimit(Step(s, a).row, w) && CallsLimit(Step(s, a).row, w) == CallsLimit(s.row, w)
  {
    if a.Act? && a.r in s.requests { AdvanceOnCalls(s, a.r, s.requests[a.r], a.move, w); }
  }

  /** Once within its limit, a call counter stays there in every schedule that leaves the limits alone:
      two-step gates with old tickets, refunds, anchor changes and resets of every kind included. */
  lemma {:induction false} CallLimitSafety(s: State, schedule: seq<Action>, w: CallCounter)
    requires Ok(s) && WithinLimit(s.row, w) && FixedLimits(schedule)
    ensures WithinLimit(Run(s, schedule).row, w)
    ensures CallsLimit(Run(s, schedule).row, w) == CallsLimit(s.row, w)
    decreases |schedule|
  {
    if schedule != [] {
      StepOk(s, schedule[0]);
      StepWithinLimit(s, schedule[0], w);
      CallLimitSafety(Step(s, schedule[0]), schedule[1..], w);
    }
  }

  /** The calls still owed since the last reset exceed a positive limit by no more than the straddling
      refunds. They are within it if and only if counter and taken calls together are, which is always so in a
      clean run; in terms of the run, if and only if at some moment the calls then owed and the straddling
      refunds landing afterwards fit into what the counter leaves of the limit. */
  lemma OwedWithinLimit(user: int, row: Row, now: Instant, schedule: seq<Action>, w: CallCounter)
    requires Fresh(row, now) && FixedLimits(schedule) && CallsLimit(row, w) > 0
    ensures
      var s0 := Init(user, row, now);
      var s := Run(s0, schedule);
      && Owed(s, w) <= CallsLimit(row, w) + Straddled(s, w)
      && (Owed(s, w) <= CallsLimit(row, w) <==>
            CallsUsed(s.row, w) + Taken(s0, schedule, 0, w) <= CallsLimit(row, w))
      && (Owed(s, w) <= CallsLimit(row, w) <==>
            exists k :: 0 <= k <= |schedule| &&
              OwedThenLanded(s0, schedule, k, w) <= CallsLimit(row, w) - CallsUsed(s.row, w))
      && (Clean(s0, schedule, w) ==> Owed(s, w) <= CallsLimit(row, w))
  {
    var s0 := Init(user, row, now);
    CallLedgerTwoSided(user, row, now, schedule, w);
    CallLimitSafety(s0, schedule, w);
    SumZero(s0.requests, Weigh(Owes(w, 0)));
    CleanIff(s0, schedule, w);
    var least :| 0 <= least <= |schedule| &&
      Taken(s0, schedule, 0, w) == OwedThenLanded(s0, schedule, least, w);
  }

  // ----- the straddling term cannot be dropped

  function Reading(s: State): Request {
    Request(Sync, 0, FreeSlot, GateRead(TicketAt(s.row, s.clock)), Ctx(s.user, "", "", 1.0), None, None, 0)
  }

  function Enter(r: nat): seq<Action> {
    [Arrive(r, Sync, 0), Act(r, LoadCounter), Act(r, ReadGate("", "", 1.0))]
  }

  lemma EnterEffect(s: State, r: nat)
    requires r !in s.requests
    ensures Run(s, Enter(r)) == Put(s, r, Reading(s))
  {
    var s1 := Step(s, Arrive(r, Sync, 0));
    var s2 := Step(s1, Act(r, LoadCounter));
    EnterFree(s, r);
    assert Enter(r) == [Arrive(r, Sync, 0)] + ([Act(r, LoadCounter)] + [Act(r, ReadGate("", "", 1.0))]);
    RunAppend(s, [Arrive(r, Sync, 0)], [Act(r, LoadCounter)] + [Act(r, ReadGate("", "", 1.0))]);
    RunAppend(s1, [Act(r, LoadCounter)], [Act(r, ReadGate("", "", 1.0))]);
    RunOne(s, Arrive(r, Sync, 0));
    RunOne(s1, Act(r, LoadCounter));
    RunOne(s2, Act(r, ReadGate("", "", 1.0)));
    assert Step(s2, Act(r, ReadGate("", "", 1.0))).requests == Put(s, r, Reading(s)).requests;
  }

  lemma EnterFree(s: State, r: nat)
    requires r !in s.requests
    ensures Step(Step(s, Arrive(r, Sync, 0)), Act(r, LoadCounter)) ==
      Put(s, r, Request(Sync, 0, FreeSlot, Slotted, Ctx(s.user, "", "", 0.0), None, None, 0))
  {
    assert Step(Step(s, Arrive(r, Sync, 0)), Act(r, LoadCounter)).requests ==
      Put(s, r, Request(Sync, 0, FreeSlot, Slotted, Ctx(s.user, "", "", 0.0), None, None, 0)).requests;
  }

  function Admit(r: nat): seq<Action> { Enter(r) + [Act(r, ExecGate)] }

  lemma AdmitEffect(s: State, r: nat)
    requires r !in s.requests
    ensures Run(s, Admit(r)) == PassGate(s, r, Reading(s), TicketAt(s.row, s.clock))
  {
    var s3 := Put(s, r, Reading(s));
    EnterEffect(s, r);
    RunAppend(s, Enter(r), [Act(r, ExecGate)]);
    RunOne(s3, Act(r, ExecGate));
    assert Step(s3, Act(r, ExecGate)).requests == PassGate(s, r, Reading(s), TicketAt(s.row, s.clock)).requests;
  }

  function FailAndRefund(r: nat): seq<Action> {
    [Act(r, Respond(TransportError))] + [Act(r, RunStmt)]
  }

  lemma FailAndRefundEffect(s: State, r: nat)
    requires r in s.requests && s.requests[r].kind.Sync? && s.requests[r].phase.Upstream?
    ensures Run(s, FailAndRefund(r)) ==
      Put(s, r, s.requests[r].(phase := Closing([LogCall(0, 0, 502)]), refunded := Some(s.epochs))).(
        row := Refund(s.row, Calls(s.requests[r].ctx.multiplier)))
  {
    var s1 := Step(s, Act(r, Respond(TransportError)));
    RunAppend(s, [Act(r, Respond(TransportError))], [Act(r, RunStmt)]);
    RunOne(s, Act(r, Respond(TransportError)));
    RunOne(s1, Act(r, RunStmt));
    assert [RefundCalls, LogCall(0, 0, 502)][1..] == [LogCall(0, 0, 502)];
    var s2 := Step(s1, Act(r, RunStmt));
    assert s2.requests == s.requests[r := s2.requests[r]];
  }

  /** Only the total call counter is limited, to one call. */
  ghost predicate OneCall(row: Row, used: int) {
    && row.callsTotalLimit == 1 && row.callsTotalUsed == used && row.calls5hLimit == 0
    && row.tokens5hLimit == 0 && row.weekLimit == 0 && row.monthLimit == 0
  }

  function Admitted(s: State): Request {
    Request(Sync, 0, FreeSlot, Upstream, Ctx(s.user, "", "", 1.0), Some(s.epochs), None, s.clock)
  }

  lemma AdmitOne(s: State, r: nat)
    requires r !in s.requests && OneCall(s.row, 0)
    ensures
      var after := Run(s, Admit(r));
      && OneCall(after.row, 1)
      && after.requests == s.requests[r := Admitted(s)]
      && after.epochs == s.epochs && after.user == s.user && after.clock == s.clock
  {
    CeilOne();
    AdmitEffect(s, r);
  }

  lemma RefundOne(s: State, r: nat)
    requires r in s.requests && OneCall(s.row, 1)
    requires s.requests[r].phase.Upstream? && s.requests[r].kind.Sync? && s.requests[r].ctx.multiplier == 1.0
    ensures
      var after := Run(s, FailAndRefund(r));
      && OneCall(after.row, 0)
      && after.requests.Keys == s.requests.Keys
      && (forall x :: x in s.requests && x != r ==> after.requests[x] == s.requests[x])
      && after.requests[r] == s.requests[r].(phase := after.requests[r].phase, refunded := Some(s.epochs))
      && after.epochs == s.epochs && after.user == s.user && after.clock == s.clock
  {
    CeilOne();
    FailAndRefundEffect(s, r);
  }

  lemma FixedLimitsOfPieces(a: nat, b: nat, c: nat)
    ensures FixedLimits(Admit(a) + ([Do(CallsReset)] + (Admit(b) + (FailAndRefund(a) + Admit(c)))))
  {
  }

  /** After the reset: b is admitted, a is refunded, c is admitted. */
  lemma AfterReset(s2: State, a: nat, b: nat, c: nat)
    requires a != b && b != c && c != a && s2.requests.Keys == {a}
    requires OneCall(s2.row, 0) && s2.epochs.total >= 1
    requires s2.requests[a] == Admitted(s2).(deducted := s2.requests[a].deducted)
    requires s2.requests[a].deducted.Some? && s2.requests[a].deducted.value.total < s2.epochs.total
    ensures
      var s := Run(Run(Run(s2, Admit(b)), FailAndRefund(a)), Admit(c));
      Owed(s, TotalCalls) == 2 && Straddled(s, TotalCalls) == 1 && CallsLimit(s.row, TotalCalls) == 1
  {
    AdmitOne(s2, b);
    var s3 := Run(s2, Admit(b));
    RefundOne(s3, a);
    var s4 := Run(s3, FailAndRefund(a));
    AdmitOne(s4, c);
    OldAndNewCalls(s2, s4, Run(s4, Admit(c)), a, b, c);
  }

  lemma OldAndNewCalls(s2: State, s4: State, s5: State, a: nat, b: nat, c: nat)
    requires a != b && b != c && c != a
    requires s2.epochs == s4.epochs == s5.epochs
    requires s4.requests.Keys == {a, b} && s4.requests[b] == Admitted(s2)
    requires s4.requests[a].deducted.Some? && s4.requests[a].deducted.value.total < s2.epochs.total
    requires s4.requests[a].refunded == Some(s2.epochs) && s4.requests[a].ctx.multiplier == 1.0
    requires s5.requests == s4.requests[c := Admitted(s4)]
    ensures Owed(s5, TotalCalls) == 2 && Straddled(s5, TotalCalls) == 1
  {
    CeilOne();
    TwoOweOneStraddles(s5, a, b, c);
  }

  /** With a limit of one call, a reset between an admission and its refund lets two later calls stand. */
  lemma StraddlingRefundExceedsLimit(user: int, row: Row, now: Instant, a: nat, b: nat, c: nat)
    returns (schedule: seq<Action>)
    requires Fresh(row, now) && OneCall(row, 0)
    requires a != b && b != c && c != a
    ensures FixedLimits(schedule)
    ensures
      var s := Run(Init(user, row, now), schedule);
      Owed(s, TotalCalls) == 2 && Straddled(s, TotalCalls) == 1 && CallsLimit(s.row, TotalCalls) == 1
  {
    var s0 := Init(user, row, now);
    schedule := Admit(a) + ([Do(CallsReset)] + (Admit(b) + (FailAndRefund(a) + Admit(c))));
    FixedLimitsOfPieces(a, b, c);
    RunPieces(s0, Admit(a), [Do(CallsReset)], Admit(b), FailAndRefund(a), Admit(c));
    AdmitOne(s0, a);
    RunOne(Run(s0, Admit(a)), Do(CallsReset));
    AfterReset(Run(Run(s0, Admit(a)), [Do(CallsReset)]), a, b, c);
  }

  lemma CeilOne()
    ensures Calls(1.0) == 1
  {
    assert (-1.0).Floor == -1;
  }

  lemma TwoOweOneStraddles(s: State, a: nat, b: nat, c: nat)
    requires a != b && b != c && c != a
    requires s.requests.Keys == {a, b, c}
    requires WeightOf(Owes(TotalCalls, s.epochs.total), s.requests[a]) == 0
    requires WeightOf(Owes(TotalCalls, s.epochs.total), s.requests[b]) == 1
    requires WeightOf(Owes(TotalCalls, s.epochs.total), s.requests[c]) == 1
    requires WeightOf(Straddles(TotalCalls, s.epochs.total), s.requests[a]) == 1
    requires WeightOf(Straddles(TotalCalls, s.epochs.total), s.requests[b]) == 0
    requires WeightOf(Straddles(TotalCalls, s.epochs.total), s.requests[c]) == 0
    ensures Owed(s, TotalCalls) == 2 && Straddled(s, TotalCalls) == 1
  {
    SumThree(s.requests, Weigh(Owes(TotalCalls, s.epochs.total)), a, b, c);
    SumThree(s.requests, Weigh(Straddles(TotalCalls, s.epochs.total)), a, b, c);
  }
}
