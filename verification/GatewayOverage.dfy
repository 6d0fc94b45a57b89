/** The overage bound of the soft gate is reached, in every bucket, for every limit, concurrency cap and
    size of a bill. */
module GatewayOverage {
  import opened Billing
  import opened Cycles
  import opened Gateway
  import opened GatewayCalls
  import opened GatewayLimiter
  import opened GatewayTokens
  import opened Ledger
  import opened Lifecycle
  import opened Sums

  // ----- schedules whose bills stay within a bound

  /** Answers cost at most the bound, at a multiplier of one. */
  predicate Modest(a: Action, bound: nat) {
    a.Act? ==>
      match a.move
      case ReadGate(_, _, multiplier) => multiplier == 1.0
      case Respond(Response(_, prompt, completion)) => prompt + completion <= bound
      case _ => true
  }

  ghost predicate AllModest(schedule: seq<Action>, bound: nat) {
    forall a :: a in schedule ==> Modest(a, bound)
  }

  ghost predicate Plain(q: Request, bound: nat) {
    (q.ctx.multiplier == 0.0 || q.ctx.multiplier == 1.0) && TodoWithin(q, bound)
  }

  ghost predicate AllPlain(s: State, bound: nat) {
    forall r :: r in s.requests ==> Plain(s.requests[r], bound)
  }

  lemma BilledAsIs(n: int)
    ensures Billed(n, 0, 1.0) == n
  {
    assert Scaled(n, 0, 1.0) == n as real;
    assert (-(n as real)).Floor == 0 - n;
  }

  lemma PlainBill(prompt: int, completion: int, multiplier: real, bound: nat)
    requires prompt + completion <= bound && (multiplier == 0.0 || multiplier == 1.0)
    ensures Billed(prompt, completion, multiplier) <= bound
  {
    BilledAsIs(prompt + completion);
    NothingBilledForNothing(0.0);
    assert Scaled(prompt, completion, 0.0) == Scaled(0, 0, 0.0);
    assert Scaled(prompt, completion, 1.0) == Scaled(prompt + completion, 0, 1.0);
  }

  lemma AnswerIsPlain(s: State, r: nat, q: Request, outcome: Outcome, bound: nat)
    requires r in s.requests && s.requests[r] == q && Plain(q, bound) && Modest(Act(r, Respond(outcome)), bound)
    ensures Plain(Advance(s, r, q, Respond(outcome)).requests[r], bound)
  {
    if Possible(q.kind, outcome) && q.phase.Upstream? { PlainProgram(q.kind, outcome, q.ctx.multiplier, bound); }
  }

  lemma PlainProgram(kind: Kind, outcome: Outcome, multiplier: real, bound: nat)
    requires multiplier == 0.0 || multiplier == 1.0
    requires outcome.Response? ==> outcome.prompt + outcome.completion <= bound
    ensures
      var todo := Program(kind, outcome);
      forall i :: 0 <= i < |todo| && todo[i].BillTokens? ==>
        Billed(todo[i].prompt, todo[i].completion, multiplier) <= bound
  {
    ProgramShape(kind, outcome, multiplier);
    if outcome.Response? { PlainBill(outcome.prompt, outcome.completion, multiplier, bound); }
  }

  lemma MovePlain(s: State, r: nat, q: Request, move: Move, bound: nat)
    requires r in s.requests && s.requests[r] == q && Plain(q, bound) && Modest(Act(r, move), bound)
    ensures Plain(Advance(s, r, q, move).requests[r], bound)
  {
    match move
    case Respond(outcome) => AnswerIsPlain(s, r, q, outcome, bound);
    case _ =>
  }

  lemma StepPlain(s: State, a: Action, bound: nat)
    requires AllPlain(s, bound) && Modest(a, bound)
    ensures AllPlain(Step(s, a), bound)
  {
    match a
    case Act(r, move) =>
      if r in s.requests {
        MovePlain(s, r, s.requests[r], move, bound);
        AdvanceWritesActor(s, r, s.requests[r], move);
      }
    case _ => StepWritesActor(s, a);
  }

  lemma {:induction false} ModestBills(s: State, schedule: seq<Action>, bound: nat)
    requires AllPlain(s, bound) && AllModest(schedule, bound)
    ensures AlwaysBillsWithin(s, schedule, bound)
    decreases |schedule|
  {
    if schedule != [] {
      StepPlain(s, schedule[0], bound);
      ModestBills(Step(s, schedule[0]), schedule[1..], bound);
    }
  }

  /** What the overage bound asks of a schedule. */
  ghost predicate Admissible(schedule: seq<Action>, cap: nat, bound: nat) {
    CapsWithin(schedule, 1, cap) && FixedLimits(schedule) && AllModest(schedule, bound)
  }

  lemma AdmissibleAppend(first: seq<Action>, second: seq<Action>, cap: nat, bound: nat)
    requires Admissible(first, cap, bound) && Admissible(second, cap, bound)
    ensures Admissible(first + second, cap, bound)
  {
  }

  // ----- a user at one instant

  /** No limited bucket is full at used tokens. */
  ghost predicate Below(row: Row, used: int) {
    forall b: Bucket :: TokensLimit(row, b) == 0 || used < TokensLimit(row, b)
  }

  lemma BelowLess(row: Row, used: int, less: int)
    requires Below(row, used) && less <= used
    ensures Below(row, less)
  {
  }

  /** Every bucket holds used tokens, and the row would admit another more calls: no limited bucket is full,
      and no call limit is in the way. */
  ghost predicate Room(row: Row, now: Instant, used: int, more: nat) {
    && (forall b: Bucket :: TokensUsed(row, b) == used)
    && Below(row, used)
    && (forall w: CallCounter :: CallsLimit(row, w) == 0 || CallsUsed(row, w) + more <= CallsLimit(row, w))
    && row.weekStart == Some(now) && row.weekCycleStart == now && row.monthStart == now
  }

  ghost predicate SameLimits(row: Row, after: Row) {
    && (forall b: Bucket :: TokensLimit(after, b) == TokensLimit(row, b))
    && (forall w: CallCounter :: CallsLimit(after, w) == CallsLimit(row, w))
  }

  lemma RoomOpens(row: Row, now: Instant, used: int, more: nat)
    requires Room(row, now, used, more) && more >= 1
    ensures
      var t := TicketAt(row, now);
      var after := Gate(row, 1, t);
      GateOpen(row, 1, t) && Room(after, now, used, more - 1) && SameLimits(row, after)
  {
    var t := TicketAt(row, now);
    assert TokensUsed(row, FiveHour) == TokensUsed(row, Week) == TokensUsed(row, Month) == used;
    assert TokensLimit(row, FiveHour) == 0 || used < TokensLimit(row, FiveHour);
    assert TokensLimit(row, Week) == 0 || used < TokensLimit(row, Week);
    assert TokensLimit(row, Month) == 0 || used < TokensLimit(row, Month);
    forall w: CallCounter ensures CallsLimit(row, w) == 0 || CallsUsed(row, w) + 1 <= CallsLimit(row, w) {}
    assert CallsLimit(row, FiveHourCalls) == 0 || row.calls5hUsed + 1 <= CallsLimit(row, FiveHourCalls);
    assert CallsLimit(row, TotalCalls) == 0 || row.callsTotalUsed + 1 <= CallsLimit(row, TotalCalls);
    GateEffect(row, 1, t);
  }

  function Filled(user: int, phase: Phase, epochs: Epochs, at: Instant, cap: nat): Request {
    Request(Sync, cap, HeldSlot, phase, Ctx(user, "", "", 1.0), Some(epochs), None, at)
  }

  /** Requests first to first + n - 1 are upstream; those below have come and gone, and there are no others. */
  ghost predicate AllUpstream(s: State, first: nat, n: nat, cap: nat) {
    && (forall r: nat :: r in s.requests <==> r < first + n)
    && (forall r: nat :: first <= r < first + n ==>
          s.requests[r] == Filled(s.user, Upstream, s.epochs, s.clock, cap))
    && (if s.counter.None? then n == 0 else s.counter.value == n)
  }

  ghost predicate Still(s: State, after: State) {
    && after.user == s.user && after.epochs == s.epochs && after.clock == s.clock
    && SameLimits(s.row, after.row)
  }

  /** From s a run has come to after: n requests from first on are upstream. */
  ghost predicate Reached(s: State, after: State, first: nat, n: nat, cap: nat, used: int, more: int) {
    more >= 0 && AllUpstream(after, first, n, cap) && Room(after.row, s.clock, used, more) && Still(s, after)
  }

  function Pass(r: nat): seq<Action> {
    [Act(r, Compare)] + ([Act(r, ReadGate("", "", 1.0))] + [Act(r, ExecGate)])
  }

  lemma ReadyToPass(s: State, r: nat, cap: nat, count: int)
    requires r in s.requests && s.requests[r] == Attempting(s.user, cap, count) && count <= cap
    ensures
      var t := TicketAt(s.row, s.clock);
      var q := Request(Sync, cap, HeldSlot, GateRead(t), Ctx(s.user, "", "", 1.0), None, None, 0);
      Step(Step(s, Act(r, Compare)), Act(r, ReadGate("", "", 1.0))) == Put(s, r, q)
  {
    var t := TicketAt(s.row, s.clock);
    var q := Request(Sync, cap, HeldSlot, GateRead(t), Ctx(s.user, "", "", 1.0), None, None, 0);
    assert Step(Step(s, Act(r, Compare)), Act(r, ReadGate("", "", 1.0))).requests == Put(s, r, q).requests;
  }

  lemma PassEffect(s: State, r: nat, cap: nat, count: int, used: int, more: nat)
    requires r in s.requests && s.requests[r] == Attempting(s.user, cap, count) && count <= cap
    requires Room(s.row, s.clock, used, more) && more >= 1
    ensures
      var after := Run(s, Pass(r));
      && after.requests == s.requests[r := Filled(s.user, Upstream, s.epochs, s.clock, cap)]
      && Room(after.row, s.clock, used, more - 1) && Still(s, after) && after.counter == s.counter
  {
    var s1 := Step(s, Act(r, Compare));
    var s2 := Step(s1, Act(r, ReadGate("", "", 1.0)));
    RunAppend(s, [Act(r, Compare)], [Act(r, ReadGate("", "", 1.0))] + [Act(r, ExecGate)]);
    RunAppend(s1, [Act(r, ReadGate("", "", 1.0))], [Act(r, ExecGate)]);
    RunOne(s, Act(r, Compare));
    RunOne(s1, Act(r, ReadGate("", "", 1.0)));
    RunOne(s2, Act(r, ExecGate));
    ReadyToPass(s, r, cap, count);
    CeilOne();
    RoomOpens(s.row, s.clock, used, more);
    var after := PassGate(s2, r, s2.requests[r], TicketAt(s.row, s.clock));
    assert after.requests == s.requests[r := Filled(s.user, Upstream, s.epochs, s.clock, cap)];
  }

  function Entry(r: nat, cap: nat): seq<Action> { Attempt(r, cap) + Pass(r) }

  lemma EntryIsAdmissible(r: nat, cap: nat, bound: nat)
    requires cap >= 1
    ensures Admissible(Entry(r, cap), cap, bound)
  {
  }

  /** One more request, the next free number, goes upstream. */
  lemma AdmitNext(s: State, first: nat, n: nat, cap: nat, used: int, more: nat)
    requires n < cap && AllUpstream(s, first, n, cap) && Room(s.row, s.clock, used, more) && more >= 1
    ensures
      var after := Run(s, Entry(first + n, cap));
      AllUpstream(after, first, n + 1, cap) && Room(after.row, s.clock, used, more - 1) && Still(s, after)
  {
    var r := first + n;
    AttemptEffect(s, r, cap);
    var s1 := Run(s, Attempt(r, cap));
    PassEffect(s1, r, cap, n + 1, used, more);
    RunAppend(s, Attempt(r, cap), Pass(r));
    NextUpstream(s, Run(s1, Pass(r)), first, n, cap);
  }

  lemma NextUpstream(s: State, after: State, first: nat, n: nat, cap: nat)
    requires AllUpstream(s, first, n, cap) && Still(s, after) && after.counter == Some(n + 1)
    requires
      var r := first + n;
      after.requests
        == s.requests[r := Attempting(s.user, cap, n + 1)][r := Filled(s.user, Upstream, s.epochs, s.clock, cap)]
    ensures AllUpstream(after, first, n + 1, cap)
  {
  }

  /** Admit n requests, one after the other, without letting any finish. */
  lemma {:induction false} Fill(s: State, first: nat, n: nat, cap: nat, bound: nat, used: int, more: nat)
    returns (schedule: seq<Action>)
    requires n <= cap && AllUpstream(s, first, 0, cap) && Room(s.row, s.clock, used, more) && n <= more
    ensures Admissible(schedule, cap, bound)
    ensures
      var after := Run(s, schedule);
      Reached(s, after, first, n, cap, used, more - n)
  {
    if n == 0 { return []; }
    schedule := Fill(s, first, n - 1, cap, bound, used, more);
    FillStep(s, schedule, first, n - 1, cap, bound, used, more - (n - 1));
    schedule := schedule + Entry(first + n - 1, cap);
  }

  lemma FillStep(
    s: State, schedule: seq<Action>, first: nat, n: nat, cap: nat, bound: nat, used: int, more: nat)
    requires Admissible(schedule, cap, bound) && n < cap && more >= 1
    requires
      Reached(s, Run(s, schedule), first, n, cap, used, more)
    ensures
      var longer := schedule + Entry(first + n, cap);
      var after := Run(s, longer);
      && Admissible(longer, cap, bound)
      && Reached(s, after, first, n + 1, cap, used, more - 1)
  {
    RunAppend(s, schedule, Entry(first + n, cap));
    AdmitNext(Run(s, schedule), first, n, cap, used, more);
    EntryIsAdmissible(first + n, cap, bound);
    AdmissibleAppend(schedule, Entry(first + n, cap), cap, bound);
  }

  // ----- answers

  lemma ServeIsAdmissible(r: nat, bill: nat, cap: nat, bound: nat)
    requires bill <= bound
    ensures Admissible(Serve(r, bill), cap, bound)
  {
  }

  /** What an answer leaves alone. */
  ghost predicate Others(s: State, after: State, r: nat) {
    && Still(s, after) && after.counter == s.counter && after.requests.Keys == s.requests.Keys
    && forall x :: x in s.requests && x != r ==> after.requests[x] == s.requests[x]
  }

  lemma FinishEffect(s: State, r: nat, bill: nat, cap: nat)
    requires r in s.requests && s.requests[r] == Filled(s.user, Upstream, s.epochs, s.clock, cap)
    ensures
      var after := Run(s, Serve(r, bill));
      && after.row == AddTokens(s.row, bill)
      && r in after.requests && after.requests[r] == Filled(s.user, Closing([]), s.epochs, s.clock, cap)
      && Others(s, after, r)
  {
    ServeEffect(s, r, bill);
    BilledAsIs(bill);
  }

  /** Requests first to first + n - 1 are upstream. */
  ghost predicate FirstUpstream(s: State, first: nat, n: nat, cap: nat) {
    forall r: nat :: first <= r < first + n ==>
      r in s.requests && s.requests[r] == Filled(s.user, Upstream, s.epochs, s.clock, cap)
  }

  lemma OneFewer(s: State, after: State, first: nat, n: nat, cap: nat)
    requires n > 0 && FirstUpstream(s, first, n, cap) && Others(s, after, first + n - 1)
    ensures FirstUpstream(after, first, n - 1, cap)
  {
  }

  lemma OneMore(n: nat, bill: nat)
    requires n > 0
    ensures n * bill == (n - 1) * bill + bill
  {
  }

  /** Let n requests finish, the highest first. */
  lemma {:induction false} Drain(s: State, first: nat, n: nat, bill: nat, cap: nat) returns (schedule: seq<Action>)
    requires FirstUpstream(s, first, n, cap)
    ensures Admissible(schedule, cap, bill)
    ensures forall b: Bucket :: TokensUsed(Run(s, schedule).row, b) == TokensUsed(s.row, b) + n * bill
    decreases n
  {
    if n == 0 { return []; }
    var r := first + n - 1;
    FinishEffect(s, r, bill, cap);
    var mid := Run(s, Serve(r, bill));
    OneFewer(s, mid, first, n, cap);
    var rest := Drain(mid, first, n - 1, bill, cap);
    DrainStep(s, mid, rest, r, n, bill, cap);
    schedule := Serve(r, bill) + rest;
  }

  lemma DrainStep(s: State, mid: State, rest: seq<Action>, r: nat, n: nat, bill: nat, cap: nat)
    requires n > 0 && Run(s, Serve(r, bill)) == mid && mid.row == AddTokens(s.row, bill)
    requires Admissible(rest, cap, bill)
    requires forall b: Bucket :: TokensUsed(Run(mid, rest).row, b) == TokensUsed(mid.row, b) + (n - 1) * bill
    ensures Admissible(Serve(r, bill) + rest, cap, bill)
    ensures forall b: Bucket ::
      TokensUsed(Run(s, Serve(r, bill) + rest).row, b) == TokensUsed(s.row, b) + n * bill
  {
    RunAppend(s, Serve(r, bill), rest);
    OneMore(n, bill);
    ServeIsAdmissible(r, bill, cap, bill);
    AdmissibleAppend(Serve(r, bill), rest, cap, bill);
  }

  // ----- one request after the other

  /** Request r is served for a bill and leaves. */
  function Spend(r: nat, bill: nat, cap: nat): seq<Action> { Entry(r, cap) + (Serve(r, bill) + [Act(r, Release)]) }

  lemma LeaveEffect(s: State, r: nat, cap: nat)
    requires r in s.requests && s.requests[r] == Filled(s.user, Closing([]), s.epochs, s.clock, cap)
    requires s.counter.Some?
    ensures
      var after := Run(s, [Act(r, Release)]);
      && after.row == s.row && Still(s, after) && after.counter == Some(s.counter.value - 1)
      && after.requests.Keys == s.requests.Keys
  {
    RunOne(s, Act(r, Release));
    assert Step(s, Act(r, Release)) == Leave(s, r, s.requests[r]);
  }

  lemma MoreTokens(row: Row, now: Instant, used: int, bill: nat, more: nat)
    requires Room(row, now, used, more)
    requires Below(row, used + bill)
    ensures Room(AddTokens(row, bill), now, used + bill, more) && SameLimits(row, AddTokens(row, bill))
  {
    var after := AddTokens(row, bill);
    forall b: Bucket ensures TokensUsed(after, b) == used + bill && TokensLimit(after, b) == TokensLimit(row, b) {
      assert TokensUsed(row, b) == used;
    }
    forall w: CallCounter
      ensures CallsUsed(after, w) == CallsUsed(row, w) && CallsLimit(after, w) == CallsLimit(row, w)
    {}
  }

  lemma SpendEffect(s: State, r: nat, bill: nat, cap: nat, used: int, more: nat)
    requires cap >= 1 && AllUpstream(s, r, 0, cap) && Room(s.row, s.clock, used, more) && more >= 1
    requires Below(s.row, used + bill)
    ensures
      var after := Run(s, Spend(r, bill, cap));
      AllUpstream(after, r + 1, 0, cap) && Room(after.row, s.clock, used + bill, more - 1) && Still(s, after)
  {
    AdmitNext(s, r, 0, cap, used, more);
    var s1 := Run(s, Entry(r, cap));
    FinishEffect(s1, r, bill, cap);
    MoreTokens(s1.row, s.clock, used, bill, more - 1);
    var s2 := Run(s1, Serve(r, bill));
    LeaveEffect(s2, r, cap);
    RunAppend(s1, Serve(r, bill), [Act(r, Release)]);
    RunAppend(s, Entry(r, cap), Serve(r, bill) + [Act(r, Release)]);
  }

  lemma SpendIsAdmissible(r: nat, bill: nat, cap: nat, bound: nat)
    requires cap >= 1 && bill <= bound
    ensures Admissible(Spend(r, bill, cap), cap, bound)
  {
    EntryIsAdmissible(r, cap, bound);
    ServeIsAdmissible(r, bill, cap, bound);
    AdmissibleAppend(Serve(r, bill), [Act(r, Release)], cap, bound);
    AdmissibleAppend(Entry(r, cap), Serve(r, bill) + [Act(r, Release)], cap, bound);
  }

  /** How many bills of at most bound make up n tokens. */
  function Rounds(n: nat, bound: nat): nat
    requires bound >= 1
  {
    if n == 0 then 0 else 1 + Rounds(n - Min(bound, n), bound)
  }

  /** No fewer would do. */
  lemma {:induction false} RoundsAreFewest(n: nat, bound: nat)
    requires bound >= 1
    ensures n <= Rounds(n, bound) * bound < n + bound
  {
    if n > 0 {
      RoundsAreFewest(n - Min(bound, n), bound);
      OneMore(Rounds(n, bound), bound);
    }
  }

  /** Serve requests one after the other until n tokens are spent. */
  lemma {:induction false} SpendMany(s: State, n: nat, cap: nat, bound: nat, more: nat) returns (schedule: seq<Action>)
    requires cap >= 1 && bound >= 1 && AllUpstream(s, 0, 0, cap) && Room(s.row, s.clock, 0, more)
    requires Below(s.row, n) && Rounds(n, bound) <= more
    ensures Admissible(schedule, cap, bound)
    ensures Reached(s, Run(s, schedule), Rounds(n, bound), 0, cap, n, more - Rounds(n, bound))
  {
    if n == 0 { return []; }
    var bill := Min(bound, n);
    var rounds := Rounds(n - bill, bound);
    BelowLess(s.row, n, n - bill);
    schedule := SpendMany(s, n - bill, cap, bound, more);
    SpendStep(s, schedule, rounds, n - bill, bill, cap, bound, more - rounds);
    schedule := schedule + Spend(rounds, bill, cap);
  }

  lemma SpendStep(
    s: State, schedule: seq<Action>, r: nat, used: nat, bill: nat, cap: nat, bound: nat, more: nat)
    requires Admissible(schedule, cap, bound) && cap >= 1 && bill <= bound && more >= 1
    requires Below(s.row, used + bill)
    requires Reached(s, Run(s, schedule), r, 0, cap, used, more)
    ensures
      var longer := schedule + Spend(r, bill, cap);
      Admissible(longer, cap, bound) && Reached(s, Run(s, longer), r + 1, 0, cap, used + bill, more - 1)
  {
    RunAppend(s, schedule, Spend(r, bill, cap));
    SpendEffect(Run(s, schedule), r, bill, cap, used, more);
    SpendIsAdmissible(r, bill, cap, bound);
    AdmissibleAppend(schedule, Spend(r, bill, cap), cap, bound);
  }

  // ----- the bound is reached

  /** No other limit stands in the way: other buckets are unlimited or at least as large, and call limits allow
      as many calls as bills of at most bound need for limit - 1 + cap * bound tokens. */
  ghost predicate Leading(row: Row, b: Bucket, cap: nat, bound: nat)
    requires bound >= 1
  {
    && TokensLimit(row, b) > 0
    && (forall x: Bucket :: TokensLimit(row, x) == 0 || TokensLimit(row, x) >= TokensLimit(row, b))
    && (forall w: CallCounter ::
          CallsLimit(row, w) == 0 || CallsLimit(row, w) >= Rounds(TokensLimit(row, b) - 1, bound) + cap)
  }

  lemma FreshHasRoom(row: Row, now: Instant, b: Bucket, cap: nat, bound: nat)
    requires Fresh(row, now) && bound >= 1 && Leading(row, b, cap, bound)
    ensures Room(row, now, 0, Rounds(TokensLimit(row, b) - 1, bound) + cap)
  {
  }

  /** "A single request may push used past the cap by up to one billed increment, and the next request is then
      blocked" holds for a concurrency cap of one only. For every bucket, limit, concurrency cap and bound
      there is a run that meets every condition of SoftGateOverage and ends at its bound: requests spend the
      limit but for one token, then cap requests are admitted together and cost the bound each. */
  lemma OverageIsReached(user: int, row: Row, now: Instant, b: Bucket, cap: nat, bound: nat)
    returns (schedule: seq<Action>)
    requires Fresh(row, now) && cap >= 1 && bound >= 1 && Leading(row, b, cap, bound)
    ensures CapsWithin(schedule, 1, cap) && FixedLimits(schedule)
    ensures AlwaysBillsWithin(Init(user, row, now), schedule, bound)
    ensures TokensUsed(Run(Init(user, row, now), schedule).row, b) == TokensLimit(row, b) - 1 + cap * bound
  {
    var s0 := Init(user, row, now);
    var n := TokensLimit(row, b) - 1;
    var rounds := Rounds(n, bound);
    FreshHasRoom(row, now, b, cap, bound);
    var spending := SpendMany(s0, n, cap, bound, rounds + cap);
    var s1 := Run(s0, spending);
    var filling := Fill(s1, rounds, cap, cap, bound, n, cap);
    var s2 := Run(s1, filling);
    assert TokensUsed(s2.row, b) == n;
    var draining := Drain(s2, rounds, cap, bound, cap);
    RunAppend(s1, filling, draining);
    RunAppend(s0, spending, filling + draining);
    AdmissibleAppend(filling, draining, cap, bound);
    AdmissibleAppend(spending, filling + draining, cap, bound);
    schedule := spending + (filling + draining);
    ModestBills(s0, schedule, bound);
  }
}
