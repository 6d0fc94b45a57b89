/** Splitting each auto-routed user's quota over the providers they used, by rounded usage share. */
module Attribution {
  import opened Billing
  import opened Cycles
  import opened Sums

  datatype AutoUser = AutoUser(id: int, tokenLimit: int, callLimit: int)

  /** One user's usage of one provider within the window. */
  datatype Cell = Cell(billed: int, calls: int)

  type Usage = map<int, map<string, Cell>>

  datatype Load = Load(tokenShare: int, callShare: int, tokenUsage: int, callUsage: int)

  const NoLoad := Load(0, 0, 0, 0)

  /** math.Round: to the nearest integer, halves away from zero. */
  function Round(x: real): (n: int)
    ensures n as real - 0.5 <= x <= n as real + 0.5
  {
    if x >= 0.0 then (x + 0.5).Floor else -((-x + 0.5).Floor)
  }

  /** The nearest whole number, and of two the one farther from zero. */
  lemma RoundIff(x: real, n: int)
    ensures n == Round(x) <==>
      if x >= 0.0 then n as real - 0.5 <= x < n as real + 0.5 else n as real - 0.5 < x <= n as real + 0.5
  {
  }

  function Share(limit: int, billed: int, total: int): int
    requires total > 0
  {
    if limit > 0 then Round(limit as real * (billed as real / total as real)) else 0
  }

  // ----- sums

  ghost function CellBilled(): Cell -> int { (c: Cell) => c.billed }
  ghost function CellCalls(): Cell -> int { (c: Cell) => c.calls }
  ghost function LoadTokenShare(): Load -> int { (l: Load) => l.tokenShare }
  ghost function LoadCallShare(): Load -> int { (l: Load) => l.callShare }
  ghost function LoadTokenUsage(): Load -> int { (l: Load) => l.tokenUsage }
  ghost function LoadCallUsage(): Load -> int { (l: Load) => l.callUsage }

  function CellsOf(usage: Usage, user: int): map<string, Cell> {
    if user in usage then usage[user] else map[]
  }

  ghost function BilledBy(usage: Usage, user: int): int { Sum(CellsOf(usage, user), CellBilled()) }

  ghost function CallsBy(usage: Usage, user: int): int { Sum(CellsOf(usage, user), CellCalls()) }

  ghost predicate Counted(usage: Usage, u: AutoUser) { BilledBy(usage, u.id) > 0 }

  ghost function CountedTokens(usage: Usage): AutoUser -> int {
    (u: AutoUser) => if Counted(usage, u) then BilledBy(usage, u.id) else 0
  }

  ghost function CountedCalls(usage: Usage): AutoUser -> int {
    (u: AutoUser) => if Counted(usage, u) then CallsBy(usage, u.id) else 0
  }

  ghost function AllCalls(usage: Usage): AutoUser -> int { (u: AutoUser) => CallsBy(usage, u.id) }

  ghost function FiniteTokens(usage: Usage): AutoUser -> int {
    (u: AutoUser) => if Counted(usage, u) && u.tokenLimit > 0 then u.tokenLimit else 0
  }

  ghost function FiniteCalls(usage: Usage): AutoUser -> int {
    (u: AutoUser) => if Counted(usage, u) && u.callLimit > 0 then u.callLimit else 0
  }

  /** A user's rounded shares, over the providers they used. */
  ghost function SharesOver(usage: Usage, id: int, limit: int): int {
    var total := BilledBy(usage, id);
    if total > 0 then Sum(CellsOf(usage, id), ShareOf(limit, total)) else 0
  }

  ghost function TokenShares(usage: Usage): AutoUser -> int {
    (u: AutoUser) => SharesOver(usage, u.id, u.tokenLimit)
  }

  ghost function CallShares(usage: Usage): AutoUser -> int {
    (u: AutoUser) => SharesOver(usage, u.id, u.callLimit)
  }

  /** (user, provider) pairs among users with billed usage. */
  ghost function Pairs(usage: Usage): AutoUser -> int {
    (u: AutoUser) => if Counted(usage, u) then |CellsOf(usage, u.id)| else 0
  }

  function CellAt(usage: Usage, user: int, slug: string): Cell {
    if slug in CellsOf(usage, user) then CellsOf(usage, user)[slug] else Cell(0, 0)
  }

  /** What one user adds to one provider. */
  ghost function Contribution(usage: Usage, u: AutoUser, slug: string): Load {
    if !Counted(usage, u) then NoLoad
    else
      var cell, total := CellAt(usage, u.id, slug), BilledBy(usage, u.id);
      Load(Share(u.tokenLimit, cell.billed, total), Share(u.callLimit, cell.billed, total), cell.billed, cell.calls)
  }

  ghost function At(usage: Usage, slug: string, part: Load -> int): AutoUser -> int {
    (u: AutoUser) => part(Contribution(usage, u, slug))
  }

  /** Each part of a provider's load is the sum of the users' contributions. */
  ghost predicate AddsUp(users: seq<AutoUser>, usage: Usage, load: Load, slug: string) {
    && load.tokenShare == SeqSum(users, At(usage, slug, LoadTokenShare()))
    && load.callShare == SeqSum(users, At(usage, slug, LoadCallShare()))
    && load.tokenUsage == SeqSum(users, At(usage, slug, LoadTokenUsage()))
    && load.callUsage == SeqSum(users, At(usage, slug, LoadCallUsage()))
  }

  function AddLoad(a: Load, b: Load): Load {
    Load(a.tokenShare + b.tokenShare, a.callShare + b.callShare, a.tokenUsage + b.tokenUsage, a.callUsage + b.callUsage)
  }

  lemma AddsUpSnoc(users: seq<AutoUser>, u: AutoUser, usage: Usage, load: Load, slug: string)
    requires AddsUp(users, usage, load, slug)
    ensures AddsUp(users + [u], usage, AddLoad(load, Contribution(usage, u, slug)), slug)
  {
    SeqSumSnoc(users, u, At(usage, slug, LoadTokenShare()));
    SeqSumSnoc(users, u, At(usage, slug, LoadCallShare()));
    SeqSumSnoc(users, u, At(usage, slug, LoadTokenUsage()));
    SeqSumSnoc(users, u, At(usage, slug, LoadCallUsage()));
  }

  // ----- the usage query

  ghost function SqlBilledSince(user: int, since: Instant): LogRow -> int {
    (r: LogRow) =>
      if r.userId == user && r.createdAt >= since then SqlBilled(r.prompt, r.completion, r.multiplier) else 0
  }

  /** What one more log row adds to a user's window: its SQL bill and its calls, if it is the user's and not
      older than the start of the window. */
  lemma OneMoreInWindow(log: seq<LogRow>, r: LogRow, user: int, since: Instant)
    ensures SeqSum(log + [r], SqlBilledSince(user, since)) - SeqSum(log, SqlBilledSince(user, since)) ==
      if r.userId == user && since <= r.createdAt then SqlBilled(r.prompt, r.completion, r.multiplier) else 0
    ensures SeqSum(log + [r], CallsSince(user, since)) - SeqSum(log, CallsSince(user, since)) ==
      if r.userId == user && since <= r.createdAt then r.effectiveCalls else 0
  {
    SeqSumSnoc(log, r, SqlBilledSince(user, since));
    SeqSumSnoc(log, r, CallsSince(user, since));
  }

  ghost function BilledAt(user: int, slug: string, since: Instant): LogRow -> int {
    (r: LogRow) => if r.providerId == slug then SqlBilledSince(user, since)(r) else 0
  }

  ghost function CallsAt(user: int, slug: string, since: Instant): LogRow -> int {
    (r: LogRow) => if r.providerId == slug then CallsSince(user, since)(r) else 0
  }

  /** A cell holds the user's rows of one provider. */
  ghost predicate CellHolds(usage: Usage, log: seq<LogRow>, since: Instant, user: int, slug: string) {
    CellAt(usage, user, slug) == Cell(SeqSum(log, BilledAt(user, slug, since)), SeqSum(log, CallsAt(user, slug, since)))
  }

  lemma CellHoldsSnoc(usage: Usage, after: Usage, log: seq<LogRow>, r: LogRow, since: Instant, user: int, slug: string)
    requires CellHolds(usage, log, since, user, slug)
    requires
      var c := CellAt(usage, user, slug);
      CellAt(after, user, slug) ==
        Cell(c.billed + BilledAt(user, slug, since)(r), c.calls + CallsAt(user, slug, since)(r))
    ensures CellHolds(after, log + [r], since, user, slug)
  {
    SeqSumSnoc(log, r, BilledAt(user, slug, since));
    SeqSumSnoc(log, r, CallsAt(user, slug, since));
  }

  ghost function CallsSince(user: int, since: Instant): LogRow -> int {
    (r: LogRow) => if r.userId == user && r.createdAt >= since then r.effectiveCalls else 0
  }

  /** Per user and per cell, usage is what the log says about the users in ids. */
  ghost predicate UsageHolds(usage: Usage, ids: set<int>, log: seq<LogRow>, since: Instant) {
    && (forall u :: u in ids ==>
          && BilledBy(usage, u) == SeqSum(log, SqlBilledSince(u, since))
          && CallsBy(usage, u) == SeqSum(log, CallsSince(u, since)))
    && (forall u, slug {:trigger CellHolds(usage, log, since, u, slug)} ::
          u in ids ==> CellHolds(usage, log, since, u, slug))
  }

  function Record(usage: Usage, r: LogRow): Usage {
    var cells, prior := CellsOf(usage, r.userId), CellAt(usage, r.userId, r.providerId);
    var cell := Cell(prior.billed + SqlBilled(r.prompt, r.completion, r.multiplier), prior.calls + r.effectiveCalls);
    usage[r.userId := cells[r.providerId := cell]]
  }

  lemma RecordCells(usage: Usage, r: LogRow, u: int)
    ensures u != r.userId ==> CellsOf(Record(usage, r), u) == CellsOf(usage, u)
    ensures BilledBy(Record(usage, r), r.userId) ==
      BilledBy(usage, r.userId) + SqlBilled(r.prompt, r.completion, r.multiplier)
    ensures CallsBy(Record(usage, r), r.userId) == CallsBy(usage, r.userId) + r.effectiveCalls
  {
    var cells := CellsOf(usage, r.userId);
    var cell := CellAt(Record(usage, r), r.userId, r.providerId);
    SumWrite(cells, CellBilled(), r.providerId, cell);
    SumWrite(cells, CellCalls(), r.providerId, cell);
  }

  lemma UserSnoc(usage: Usage, after: Usage, log: seq<LogRow>, r: LogRow, since: Instant, u: int)
    requires BilledBy(usage, u) == SeqSum(log, SqlBilledSince(u, since))
    requires CallsBy(usage, u) == SeqSum(log, CallsSince(u, since))
    requires after == usage || after == Record(usage, r)
    requires u == r.userId ==> after == if r.createdAt < since then usage else Record(usage, r)
    ensures BilledBy(after, u) == SeqSum(log + [r], SqlBilledSince(u, since))
    ensures CallsBy(after, u) == SeqSum(log + [r], CallsSince(u, since))
  {
    SeqSumSnoc(log, r, SqlBilledSince(u, since));
    SeqSumSnoc(log, r, CallsSince(u, since));
    RecordCells(usage, r, u);
  }

  lemma UsageSnoc(usage: Usage, ids: set<int>, log: seq<LogRow>, r: LogRow, since: Instant)
    requires UsageHolds(usage, ids, log, since)
    ensures UsageHolds(if r.userId in ids && r.createdAt >= since then Record(usage, r) else usage,
                       ids, log + [r], since)
  {
    var after := if r.userId in ids && r.createdAt >= since then Record(usage, r) else usage;
    forall u | u in ids
      ensures BilledBy(after, u) == SeqSum(log + [r], SqlBilledSince(u, since))
      ensures CallsBy(after, u) == SeqSum(log + [r], CallsSince(u, since))
    {
      UserSnoc(usage, after, log, r, since, u);
    }
    forall u, slug: string {:trigger CellHolds(after, log + [r], since, u, slug)} | u in ids
      ensures CellHolds(after, log + [r], since, u, slug)
    {
      CellHoldsSnoc(usage, after, log, r, since, u, slug);
    }
  }

  method GroupUsage(ids: set<int>, log: seq<LogRow>, since: Instant) returns (usage: Usage)
    ensures UsageHolds(usage, ids, log, since)
  {
    usage := map[];
    for i := 0 to |log|
      invariant UsageHolds(usage, ids, log[..i], since)
    {
      assert log[..i + 1] == log[..i] + [log[i]];
      UsageSnoc(usage, ids, log[..i], log[i], since);
      if log[i].userId in ids && log[i].createdAt >= since { usage := Record(usage, log[i]); }
    }
    assert log[..|log|] == log;
  }

  // ----- the distribution

  method TotalBilled(cells: map<string, Cell>) returns (total: int)
    ensures total == Sum(cells, CellBilled())
  {
    total := 0;
    var rest := cells;
    while rest != map[]
      invariant total + Sum(rest, CellBilled()) == Sum(cells, CellBilled())
      decreases |rest|
    {
      assert rest.Keys != {};
      var slug := AnyOf(rest.Keys);
      SumRemove(rest, CellBilled(), slug);
      total := total + rest[slug].billed;
      rest := rest - {slug};
    }
  }

  /** A rounded share is within half a unit of the exact one. */
  lemma ShareWithinHalf(limit: int, billed: int, total: int)
    requires total > 0 && limit > 0
    ensures 2 * limit * billed - total <= 2 * total * Share(limit, billed, total) <= 2 * limit * billed + total
  {
    var x := limit as real * (billed as real / total as real);
    ScaledQuotient(limit as real, billed as real / total as real, billed as real, total as real);
    var n := Share(limit, billed, total);
    CastProduct(limit, billed);
    NearestToQuotient(n, x, limit * billed, total);
    Doubled(limit, billed, total, n);
  }

  lemma ScaledQuotient(a: real, q: real, b: real, t: real)
    requires q * t == b
    ensures a * q * t == a * b
  {
    assert a * q * t == a * (q * t);
  }

  lemma NearestToQuotient(n: int, x: real, exact: int, total: int)
    requires n as real - 0.5 <= x <= n as real + 0.5
    requires total > 0 && x * total as real == exact as real
    ensures 2 * exact - total <= 2 * (n * total) <= 2 * exact + total
  {
    ScaledDistance(n as real, x - n as real, total as real, exact as real);
    CastProduct(n, total);
    ClearHalves(n * total, exact, total);
  }

  lemma ScaledDistance(n: real, d: real, t: real, exact: real)
    requires -0.5 <= d <= 0.5 && t > 0.0 && (n + d) * t == exact
    ensures exact - 0.5 * t <= n * t <= exact + 0.5 * t
  {
    HalfScaled(d, t);
  }

  lemma HalfScaled(d: real, t: real)
    requires -0.5 <= d <= 0.5 && t > 0.0
    ensures -0.5 * t <= d * t <= 0.5 * t
  {
  }

  lemma CastProduct(a: int, b: int)
    ensures (a * b) as real == a as real * b as real
  {
  }

  lemma ClearHalves(a: int, b: int, t: int)
    requires b as real - 0.5 * t as real <= a as real <= b as real + 0.5 * t as real
    ensures 2 * b - t <= 2 * a <= 2 * b + t
  {
  }

  lemma Doubled(limit: int, billed: int, total: int, n: int)
    ensures 2 * limit * billed == 2 * (limit * billed) && 2 * total * n == 2 * (n * total)
  {
  }

  lemma DivideByTotal(shares: int, limit: int, total: int, n: nat)
    requires total > 0
    requires 2 * limit * total - total * n <= 2 * total * shares <= 2 * limit * total + total * n
    ensures 2 * limit - n <= 2 * shares <= 2 * limit + n
  {
    assert 2 * limit * total - total * n == total * (2 * limit - n);
    assert 2 * limit * total + total * n == total * (2 * limit + n);
    assert 2 * total * shares == total * (2 * shares);
    CancelLe(2 * limit - n, 2 * shares, total);
    CancelLe(2 * shares, 2 * limit + n, total);
  }

  lemma CancelLe(x: int, y: int, z: int)
    requires z > 0 && z * x <= z * y
    ensures x <= y
  {
    if x > y {
      MulStrict(x, y, z);
      assert false;
    }
  }

  lemma MulStrict(x: int, y: int, z: int)
    requires x > y && z > 0
    ensures z * x > z * y
  {
  }

  ghost function ShareOf(limit: int, total: int): Cell -> int
    requires total > 0
  {
    (c: Cell) => Share(limit, c.billed, total)
  }

  ghost function TwiceShareOf(limit: int, total: int): Cell -> int
    requires total > 0
  {
    (c: Cell) => 2 * total * Share(limit, c.billed, total)
  }

  ghost function ExactOf(limit: int): Cell -> int { (c: Cell) => 2 * limit * c.billed }

  ghost function SlackOf(total: int): Cell -> int { (c: Cell) => total }

  lemma NoShares(cells: map<string, Cell>, limit: int, total: int)
    requires total > 0 && limit <= 0
    ensures Sum(cells, ShareOf(limit, total)) == 0
  {
    SumZero(cells, ShareOf(limit, total));
  }

  /** A user's rounded shares add up to the limit, but for half a unit for each provider. */
  lemma SharesAddUp(cells: map<string, Cell>, limit: int, total: int)
    requires total == Sum(cells, CellBilled()) > 0
    ensures
      var added := Sum(cells, ShareOf(limit, total));
      WithinHalf(limit, added, |cells|)
  {
    if limit > 0 {
      var shares, exact, slack := ShareOf(limit, total), ExactOf(limit), SlackOf(total);
      var twice := TwiceShareOf(limit, total);
      forall k | k in cells
        ensures exact(cells[k]) - slack(cells[k]) <= twice(cells[k]) <= exact(cells[k]) + slack(cells[k])
      {
        ShareWithinHalf(limit, cells[k].billed, total);
      }
      SumWithin(cells, TwiceShareOf(limit, total), exact, slack);
      SumScale(cells, shares, TwiceShareOf(limit, total), 2 * total);
      SumScale(cells, CellBilled(), exact, 2 * limit);
      SumConst(cells, slack, total);
      DivideByTotal(Sum(cells, shares), limit, total, |cells|);
    } else {
      NoShares(cells, limit, total);
    }
  }

  /** loads before a user, after when the cells in rest are still to be distributed. */
  ghost predicate Progress(loads: map<string, Load>, after: map<string, Load>, u: AutoUser,
                           cells: map<string, Cell>, rest: map<string, Cell>, total: int)
    requires total > 0
  {
    && Sum(after, LoadTokenUsage()) + Sum(rest, CellBilled()) == Sum(loads, LoadTokenUsage()) + Sum(cells, CellBilled())
    && Sum(after, LoadCallUsage()) + Sum(rest, CellCalls()) == Sum(loads, LoadCallUsage()) + Sum(cells, CellCalls())
    && Sum(after, LoadTokenShare()) + Sum(rest, ShareOf(u.tokenLimit, total)) ==
         Sum(loads, LoadTokenShare()) + Sum(cells, ShareOf(u.tokenLimit, total))
    && Sum(after, LoadCallShare()) + Sum(rest, ShareOf(u.callLimit, total)) ==
         Sum(loads, LoadCallShare()) + Sum(cells, ShareOf(u.callLimit, total))
  }

  function Credit(prior: Load, u: AutoUser, cell: Cell, total: int): Load
    requires total > 0
  {
    Load(prior.tokenShare + Share(u.tokenLimit, cell.billed, total),
         prior.callShare + Share(u.callLimit, cell.billed, total),
         prior.tokenUsage + cell.billed,
         prior.callUsage + cell.calls)
  }

  function LoadOf(loads: map<string, Load>, slug: string): Load {
    if slug in loads then loads[slug] else NoLoad
  }

  lemma ProgressStep(loads: map<string, Load>, after: map<string, Load>, u: AutoUser, cells: map<string, Cell>,
                     rest: map<string, Cell>, total: int, slug: string)
    requires total > 0 && slug in rest && Progress(loads, after, u, cells, rest, total)
    ensures Progress(loads, after[slug := Credit(LoadOf(after, slug), u, rest[slug], total)], u, cells,
                     rest - {slug}, total)
  {
    WriteLoad(after, slug, Credit(LoadOf(after, slug), u, rest[slug], total));
    SumRemove(rest, CellBilled(), slug);
    SumRemove(rest, CellCalls(), slug);
    SumRemove(rest, ShareOf(u.tokenLimit, total), slug);
    SumRemove(rest, ShareOf(u.callLimit, total), slug);
  }

  /** Every provider whose cell is no longer in rest has got its own credit, and no other one anything. */
  ghost predicate Credited(loads: map<string, Load>, after: map<string, Load>, u: AutoUser,
                           cells: map<string, Cell>, rest: map<string, Cell>, total: int)
    requires total > 0
  {
    && (forall slug :: slug in rest ==> slug in cells && rest[slug] == cells[slug])
    && (forall slug :: slug in cells && slug !in rest ==>
          LoadOf(after, slug) == Credit(LoadOf(loads, slug), u, cells[slug], total))
    && (forall slug :: slug !in cells || slug in rest ==> LoadOf(after, slug) == LoadOf(loads, slug))
  }

  lemma CreditedStep(loads: map<string, Load>, after: map<string, Load>, u: AutoUser, cells: map<string, Cell>,
                     rest: map<string, Cell>, total: int, slug: string)
    requires total > 0 && slug in rest && Credited(loads, after, u, cells, rest, total)
    ensures Credited(loads, after[slug := Credit(LoadOf(after, slug), u, rest[slug], total)], u, cells,
                     rest - {slug}, total)
  {
  }

  ghost predicate WithinHalf(limit: int, added: int, n: nat) {
    if limit > 0 then 2 * limit - n <= 2 * added <= 2 * limit + n else added == 0
  }

  /** What one user adds to the four totals over all providers, and to each provider. */
  ghost predicate Distributes(loads: map<string, Load>, after: map<string, Load>, u: AutoUser,
                              cells: map<string, Cell>, total: int)
    requires total > 0
  {
    && Sum(after, LoadTokenUsage()) == Sum(loads, LoadTokenUsage()) + total
    && Sum(after, LoadCallUsage()) == Sum(loads, LoadCallUsage()) + Sum(cells, CellCalls())
    && Sum(after, LoadTokenShare()) == Sum(loads, LoadTokenShare()) + Sum(cells, ShareOf(u.tokenLimit, total))
    && Sum(after, LoadCallShare()) == Sum(loads, LoadCallShare()) + Sum(cells, ShareOf(u.callLimit, total))
    && WithinHalf(u.tokenLimit, Sum(after, LoadTokenShare()) - Sum(loads, LoadTokenShare()), |cells|)
    && WithinHalf(u.callLimit, Sum(after, LoadCallShare()) - Sum(loads, LoadCallShare()), |cells|)
    && Credited(loads, after, u, cells, map[], total)
  }

  method DistributeUser(loads: map<string, Load>, u: AutoUser, cells: map<string, Cell>, total: int)
    returns (after: map<string, Load>)
    requires total == Sum(cells, CellBilled()) > 0
    ensures Distributes(loads, after, u, cells, total)
  {
    after := loads;
    var rest := cells;
    while rest != map[]
      invariant Progress(loads, after, u, cells, rest, total)
      invariant Credited(loads, after, u, cells, rest, total)
      decreases |rest|
    {
      assert rest.Keys != {};
      var slug := AnyOf(rest.Keys);
      ProgressStep(loads, after, u, cells, rest, total, slug);
      CreditedStep(loads, after, u, cells, rest, total, slug);
      after := after[slug := Credit(LoadOf(after, slug), u, rest[slug], total)];
      rest := rest - {slug};
    }
    SharesAddUp(cells, u.tokenLimit, total);
    SharesAddUp(cells, u.callLimit, total);
  }

  lemma WriteLoad(loads: map<string, Load>, slug: string, load: Load)
    ensures
      var prior := LoadOf(loads, slug);
      var after := loads[slug := load];
      && Sum(after, LoadTokenShare()) == Sum(loads, LoadTokenShare()) + load.tokenShare - prior.tokenShare
      && Sum(after, LoadCallShare()) == Sum(loads, LoadCallShare()) + load.callShare - prior.callShare
      && Sum(after, LoadTokenUsage()) == Sum(loads, LoadTokenUsage()) + load.tokenUsage - prior.tokenUsage
      && Sum(after, LoadCallUsage()) == Sum(loads, LoadCallUsage()) + load.callUsage - prior.callUsage
  {
    SumWrite(loads, LoadTokenShare(), slug, load);
    SumWrite(loads, LoadCallShare(), slug, load);
    SumWrite(loads, LoadTokenUsage(), slug, load);
    SumWrite(loads, LoadCallUsage(), slug, load);
  }

  ghost predicate AllAddUp(users: seq<AutoUser>, usage: Usage, loads: map<string, Load>) {
    forall slug :: AddsUp(users, usage, LoadOf(loads, slug), slug)
  }

  /** Usage is conserved exactly for the users with billed usage, and the attributed quotas differ from
      those users' finite limits by at most half the number of (user, provider) pairs. */
  ghost predicate Conserved(users: seq<AutoUser>, usage: Usage, loads: map<string, Load>) {
    var pairs := SeqSum(users, Pairs(usage));
    var tokens, calls := SeqSum(users, FiniteTokens(usage)), SeqSum(users, FiniteCalls(usage));
    && Sum(loads, LoadTokenUsage()) == SeqSum(users, CountedTokens(usage))
    && Sum(loads, LoadCallUsage()) == SeqSum(users, CountedCalls(usage))
    && Sum(loads, LoadTokenShare()) == SeqSum(users, TokenShares(usage))
    && Sum(loads, LoadCallShare()) == SeqSum(users, CallShares(usage))
    && 2 * tokens - pairs <= 2 * Sum(loads, LoadTokenShare()) <= 2 * tokens + pairs
    && 2 * calls - pairs <= 2 * Sum(loads, LoadCallShare()) <= 2 * calls + pairs
  }

  lemma ConservedSnoc(
    users: seq<AutoUser>, u: AutoUser, usage: Usage, loads: map<string, Load>, after: map<string, Load>)
    requires Conserved(users, usage, loads)
    requires Counted(usage, u) ==> Distributes(loads, after, u, CellsOf(usage, u.id), BilledBy(usage, u.id))
    requires !Counted(usage, u) ==> after == loads
    ensures Conserved(users + [u], usage, after)
  {
    SeqSumSnoc(users, u, CountedTokens(usage));
    SeqSumSnoc(users, u, CountedCalls(usage));
    SeqSumSnoc(users, u, FiniteTokens(usage));
    SeqSumSnoc(users, u, FiniteCalls(usage));
    SeqSumSnoc(users, u, Pairs(usage));
    SeqSumSnoc(users, u, TokenShares(usage));
    SeqSumSnoc(users, u, CallShares(usage));
  }

  /** Every provider's load is the sum of the users' contributions to it, and over all providers, in
      whatever order they are visited, usage and quotas are conserved. */
  method Attribute(users: seq<AutoUser>, usage: Usage) returns (loads: map<string, Load>)
    ensures Conserved(users, usage, loads)
    ensures AllAddUp(users, usage, loads)
  {
    loads := map[];
    for i := 0 to |users|
      invariant Conserved(users[..i], usage, loads)
      invariant AllAddUp(users[..i], usage, loads)
    {
      ghost var before := loads;
      var u := users[i];
      assert users[..i + 1] == users[..i] + [u];
      if u.id in usage {
        var total := TotalBilled(usage[u.id]);
        if total > 0 {
          loads := DistributeUser(loads, u, usage[u.id], total);
        }
      }
      ConservedSnoc(users[..i], u, usage, before, loads);
      AllAddUpSnoc(users[..i], u, usage, before, loads);
    }
    assert users[..|users|] == users;
  }

  lemma NothingShared(limit: int, total: int)
    requires total > 0
    ensures Share(limit, 0, total) == 0
  {
    assert limit as real * (0 as real / total as real) == 0.0;
  }

  lemma ContributionIsCredit(usage: Usage, u: AutoUser, prior: Load, slug: string)
    ensures AddLoad(prior, Contribution(usage, u, slug)) ==
      if Counted(usage, u) && slug in CellsOf(usage, u.id)
      then Credit(prior, u, CellsOf(usage, u.id)[slug], BilledBy(usage, u.id)) else prior
  {
    if Counted(usage, u) {
      NothingShared(u.tokenLimit, BilledBy(usage, u.id));
      NothingShared(u.callLimit, BilledBy(usage, u.id));
    }
  }

  lemma AllAddUpSnoc(
    users: seq<AutoUser>, u: AutoUser, usage: Usage, loads: map<string, Load>, after: map<string, Load>)
    requires AllAddUp(users, usage, loads)
    requires Counted(usage, u) ==>
      Credited(loads, after, u, CellsOf(usage, u.id), map[], BilledBy(usage, u.id))
    requires !Counted(usage, u) ==> after == loads
    ensures AllAddUp(users + [u], usage, after)
  {
    forall slug ensures AddsUp(users + [u], usage, LoadOf(after, slug), slug) {
      AddsUpSnoc(users, u, usage, LoadOf(loads, slug), slug);
      ContributionIsCredit(usage, u, LoadOf(loads, slug), slug);
    }
  }

  ghost function BilledInLog(log: seq<LogRow>, since: Instant): AutoUser -> int {
    (u: AutoUser) =>
      var billed := SeqSum(log, SqlBilledSince(u.id, since));
      if billed > 0 then billed else 0
  }

  ghost function CallsInLog(log: seq<LogRow>, since: Instant): AutoUser -> int {
    (u: AutoUser) => if SeqSum(log, SqlBilledSince(u.id, since)) > 0 then SeqSum(log, CallsSince(u.id, since)) else 0
  }

  /** From the call log to the attribution: usage over all providers is, exactly, what the log bills the
      users with billed usage in the window, and the calls it records for them. */
  method GetAutoUserAllocation(users: seq<AutoUser>, log: seq<LogRow>, since: Instant)
    returns (loads: map<string, Load>, ghost usage: Usage)
    ensures Sum(loads, LoadTokenUsage()) == SeqSum(users, BilledInLog(log, since))
    ensures Sum(loads, LoadCallUsage()) == SeqSum(users, CallsInLog(log, since))
    ensures Conserved(users, usage, loads)
    ensures UsageHolds(usage, set u | u in users :: u.id, log, since)
    ensures AllAddUp(users, usage, loads)
  {
    var ids := set u | u in users :: u.id;
    var grouped := GroupUsage(ids, log, since);
    usage := grouped;
    loads := Attribute(users, grouped);
    forall u | u in users
      ensures CountedTokens(usage)(u) == BilledInLog(log, since)(u)
      ensures CountedCalls(usage)(u) == CallsInLog(log, since)(u)
    {
      assert u.id in ids;
    }
    SeqSumCompare(users, CountedTokens(usage), BilledInLog(log, since));
    SeqSumCompare(users, CountedCalls(usage), CallsInLog(log, since));
  }

  // ----- what the attribution does not promise

  /** Calls of users without billed tokens are counted nowhere, so the call total is complete if and only
      if those users made no calls. */
  lemma CallUsageCompleteIff(users: seq<AutoUser>, usage: Usage)
    requires forall u :: u in users ==> CallsBy(usage, u.id) >= 0
    ensures SeqSum(users, CountedCalls(usage)) == SeqSum(users, AllCalls(usage)) <==>
      forall u :: u in users && BilledBy(usage, u.id) <= 0 ==> CallsBy(usage, u.id) == 0
  {
    forall u | u in users
      ensures CountedCalls(usage)(u) <= AllCalls(usage)(u)
      ensures CountedCalls(usage)(u) == AllCalls(usage)(u) <==>
        (BilledBy(usage, u.id) <= 0 ==> CallsBy(usage, u.id) == 0)
    {}
    SeqSumCompare(users, CountedCalls(usage), AllCalls(usage));
  }

  // ----- when a quota is counted exactly once

  /** What rounding adds to the double of a share's numerator, before the division by the doubled total. */
  function Remainder(limit: int, billed: int, total: int): int
    requires total > 0
  {
    (2 * limit * billed + total) % (2 * total)
  }

  ghost function RemainderOf(limit: int, total: int): Cell -> int
    requires total > 0
  {
    (c: Cell) => Remainder(limit, c.billed, total)
  }

  /** Rounding is an integer division. */
  lemma ShareIsDivision(limit: int, billed: int, total: int)
    requires limit > 0 && billed >= 0 && total > 0
    ensures 2 * total * Share(limit, billed, total) == 2 * limit * billed + total - Remainder(limit, billed, total)
  {
    var x := limit as real * (billed as real / total as real);
    var n := Share(limit, billed, total);
    NonnegQuotient(limit as real, billed as real, total as real);
    ScaledQuotient(limit as real, billed as real / total as real, billed as real, total as real);
    CastProduct(limit, billed);
    RoundedQuotient(n, x, limit * billed, total);
    Doubled(limit, billed, total, n);
    DivModUnique(2 * limit * billed + total, 2 * total, n);
  }

  lemma NonnegQuotient(l: real, b: real, t: real)
    requires l >= 0.0 && b >= 0.0 && t > 0.0
    ensures l * (b / t) >= 0.0
  {
    assert b / t >= 0.0;
  }

  lemma RoundedQuotient(n: int, x: real, exact: int, total: int)
    requires n as real <= x + 0.5 < n as real + 1.0
    requires total > 0 && x * total as real == exact as real
    ensures 2 * (n * total) <= 2 * exact + total < 2 * (n * total) + 2 * total
  {
    ScaledFraction(n as real, x + 0.5 - n as real, total as real, exact as real);
    CastProduct(n, total);
    ClearHalf(n * total, exact, total);
  }

  lemma ScaledFraction(n: real, d: real, t: real, exact: real)
    requires 0.0 <= d < 1.0 && t > 0.0 && (n + d - 0.5) * t == exact
    ensures n * t <= exact + 0.5 * t < n * t + t
  {
    FractionOf(d, t);
  }

  lemma FractionOf(d: real, t: real)
    requires 0.0 <= d < 1.0 && t > 0.0
    ensures 0.0 <= d * t < t
  {
  }

  lemma ClearHalf(a: int, b: int, t: int)
    requires a as real <= b as real + 0.5 * t as real < a as real + t as real
    ensures 2 * a <= 2 * b + t < 2 * a + 2 * t
  {
  }

  lemma DivModUnique(a: int, d: int, q: int)
    requires d > 0 && q * d <= a < q * d + d
    ensures a % d == a - q * d
  {
    var k := a / d;
    assert a == k * d + a % d;
    if k > q { MulMono(q + 1, k, d); } else if k < q { MulMono(k + 1, q, d); }
  }

  lemma MulMono(x: int, y: int, d: int)
    requires d > 0 && x <= y
    ensures x * d <= y * d
  {
  }

  ghost predicate NonnegativeCells(cells: map<string, Cell>) {
    forall k :: k in cells ==> cells[k].billed >= 0
  }

  /** By how much the rounded shares of a user exceed the limit, from the remainders. */
  ghost function Excess(cells: map<string, Cell>, limit: int, total: int): int
    requires total > 0
  {
    if limit <= 0 then 0 else (total * |cells| - Sum(cells, RemainderOf(limit, total))) / (2 * total)
  }

  ghost function DoubledOf(limit: int, total: int): Cell -> int {
    (c: Cell) => 2 * limit * c.billed + total
  }

  lemma CellRemainder(c: Cell, limit: int, total: int)
    requires limit > 0 && total > 0 && c.billed >= 0
    ensures TwiceShareOf(limit, total)(c) + RemainderOf(limit, total)(c) == DoubledOf(limit, total)(c)
  {
    ShareIsDivision(limit, c.billed, total);
  }

  lemma SharesAndRemainders(cells: map<string, Cell>, limit: int, total: int)
    requires limit > 0 && total == Sum(cells, CellBilled()) > 0 && NonnegativeCells(cells)
    ensures 2 * total * (Sum(cells, ShareOf(limit, total)) - limit)
         == total * |cells| - Sum(cells, RemainderOf(limit, total))
  {
    forall k | k in cells
      ensures TwiceShareOf(limit, total)(cells[k]) + RemainderOf(limit, total)(cells[k])
           == DoubledOf(limit, total)(cells[k])
    {
      CellRemainder(cells[k], limit, total);
    }
    SumAdd(cells, TwiceShareOf(limit, total), RemainderOf(limit, total), DoubledOf(limit, total));
    SumAdd(cells, ExactOf(limit), SlackOf(total), DoubledOf(limit, total));
    SumScale(cells, ShareOf(limit, total), TwiceShareOf(limit, total), 2 * total);
    SumScale(cells, CellBilled(), ExactOf(limit), 2 * limit);
    SumConst(cells, SlackOf(total), total);
    JoinSums(Sum(cells, ShareOf(limit, total)), limit, total, Sum(cells, RemainderOf(limit, total)), total * |cells|);
  }

  lemma JoinSums(shares: int, limit: int, total: int, remainders: int, slack: int)
    requires 2 * total * shares + remainders == 2 * limit * total + slack
    ensures 2 * total * (shares - limit) == slack - remainders
  {
    assert 2 * total * (shares - limit) == 2 * total * shares - 2 * total * limit;
    assert 2 * limit * total == 2 * total * limit;
  }

  /** A limit is counted exactly once over the providers if and only if the remainders make up the total for
      each provider; in general the shares exceed it by Excess. */
  lemma SharesExactIff(cells: map<string, Cell>, limit: int, total: int)
    requires limit > 0 && total == Sum(cells, CellBilled()) > 0 && NonnegativeCells(cells)
    ensures Sum(cells, ShareOf(limit, total)) == limit <==>
      Sum(cells, RemainderOf(limit, total)) == total * |cells|
    ensures Sum(cells, ShareOf(limit, total)) == limit + Excess(cells, limit, total)
  {
    SharesAndRemainders(cells, limit, total);
    var over := Sum(cells, ShareOf(limit, total)) - limit;
    ExactQuotient(over, total * |cells| - Sum(cells, RemainderOf(limit, total)), 2 * total);
  }

  lemma ExactQuotient(q: int, a: int, d: int)
    requires d > 0 && d * q == a
    ensures a / d == q && (q == 0 <==> a == 0)
  {
    var k := a / d;
    assert a == k * d + a % d;
    if k > q { MulMono(q + 1, k, d); } else if k < q { MulMono(k + 1, q, d); }
  }

  /** A user of one provider is always counted exactly once. */
  lemma OneProviderIsExact(cells: map<string, Cell>, limit: int, total: int)
    requires limit > 0 && total == Sum(cells, CellBilled()) > 0 && NonnegativeCells(cells) && |cells| == 1
    ensures Sum(cells, ShareOf(limit, total)) == limit
  {
    OneRemainder(cells, limit, total);
    SharesExactIff(cells, limit, total);
    TimesOne(total, |cells|);
  }

  lemma TimesOne(x: int, n: int)
    requires n == 1
    ensures x * n == x
  {
  }

  lemma OneRemainder(cells: map<string, Cell>, limit: int, total: int)
    requires total == Sum(cells, CellBilled()) > 0 && |cells| == 1
    ensures Sum(cells, RemainderOf(limit, total)) == total
  {
    var k :| k in cells;
    SumRemove(cells, CellBilled(), k);
    SumRemove(cells, RemainderOf(limit, total), k);
    assert |cells - {k}| == 0;
    OddMultiple(limit, total);
  }

  lemma OddMultiple(limit: int, total: int)
    requires total > 0
    ensures Remainder(limit, total, total) == total
  {
    assert 2 * limit * total + total == limit * (2 * total) + total;
    DivModUnique(2 * limit * total + total, 2 * total, limit);
  }

  ghost function ExcessOver(usage: Usage, id: int, limit: int): int {
    var total := BilledBy(usage, id);
    if total > 0 then Excess(CellsOf(usage, id), limit, total) else 0
  }

  ghost function TokenExcess(usage: Usage): AutoUser -> int {
    (u: AutoUser) => ExcessOver(usage, u.id, u.tokenLimit)
  }

  ghost function CallExcess(usage: Usage): AutoUser -> int {
    (u: AutoUser) => ExcessOver(usage, u.id, u.callLimit)
  }

  lemma SharesOverIs(usage: Usage, id: int, limit: int)
    requires NonnegativeCells(CellsOf(usage, id))
    ensures SharesOver(usage, id, limit) ==
      (if BilledBy(usage, id) > 0 && limit > 0 then limit else 0) + ExcessOver(usage, id, limit)
  {
    var total := BilledBy(usage, id);
    if total > 0 {
      if limit > 0 { SharesExactIff(CellsOf(usage, id), limit, total); }
      else { NoShares(CellsOf(usage, id), limit, total); }
    }
  }

  /** Over all users, the attributed quotas are the finite limits plus the excesses: the limits are counted
      exactly once in total if and only if the excesses cancel. The same for tokens and for calls. */
  lemma CountedOnceIff(users: seq<AutoUser>, usage: Usage, loads: map<string, Load>)
    requires Conserved(users, usage, loads)
    requires forall u :: u in users ==> NonnegativeCells(CellsOf(usage, u.id))
    ensures Sum(loads, LoadTokenShare()) == SeqSum(users, FiniteTokens(usage)) + SeqSum(users, TokenExcess(usage))
    ensures Sum(loads, LoadTokenShare()) == SeqSum(users, FiniteTokens(usage)) <==>
      SeqSum(users, TokenExcess(usage)) == 0
    ensures Sum(loads, LoadCallShare()) == SeqSum(users, FiniteCalls(usage)) + SeqSum(users, CallExcess(usage))
    ensures Sum(loads, LoadCallShare()) == SeqSum(users, FiniteCalls(usage)) <==>
      SeqSum(users, CallExcess(usage)) == 0
  {
    forall u | u in users
      ensures TokenShares(usage)(u) == FiniteTokens(usage)(u) + TokenExcess(usage)(u)
      ensures CallShares(usage)(u) == FiniteCalls(usage)(u) + CallExcess(usage)(u)
    {
      SharesOverIs(usage, u.id, u.tokenLimit);
      SharesOverIs(usage, u.id, u.callLimit);
    }
    SeqSumAdd(users, FiniteTokens(usage), TokenExcess(usage), TokenShares(usage));
    SeqSumAdd(users, FiniteCalls(usage), CallExcess(usage), CallShares(usage));
  }

  lemma EvenExcess(cells: map<string, Cell>, limit: int, n: int, a: string, b: string)
    requires limit > 0 && n > 0 && a != b
    requires cells.Keys == {a, b} && cells[a].billed == cells[b].billed == n
    ensures Sum(cells, CellBilled()) == 2 * n && Excess(cells, limit, 2 * n) == limit % 2
  {
    SumTwo(cells, CellBilled(), a, b);
    SumTwo(cells, RemainderOf(limit, 2 * n), a, b);
    assert |cells| == |cells.Keys| == 2;
    HalfRemainder(limit, n);
    EvenNumerator(limit % 2, n, |cells|, Sum(cells, RemainderOf(limit, 2 * n)));
    ExactQuotient(limit % 2, 2 * n * |cells| - Sum(cells, RemainderOf(limit, 2 * n)), 2 * (2 * n));
  }

  lemma EvenNumerator(odd: int, n: int, providers: int, remainders: int)
    requires providers == 2 && 0 <= odd <= 1 && remainders == if odd == 0 then 4 * n else 0
    ensures 2 * (2 * n) * odd == 2 * n * providers - remainders
  {
    if odd == 1 { assert 2 * (2 * n) * odd == 4 * n; }
  }

  lemma HalfRemainder(limit: int, n: int)
    requires limit > 0 && n > 0
    ensures Remainder(limit, n, 2 * n) == if limit % 2 == 0 then 2 * n else 0
  {
    var k := (limit + 1) / 2;
    HalfNumerator(limit, n, k);
    DivModUnique(2 * limit * n + 2 * n, 4 * n, k);
  }

  lemma HalfNumerator(limit: int, n: int, k: int)
    requires k == (limit + 1) / 2
    ensures 2 * limit * n + 2 * n == k * (4 * n) + if limit % 2 == 0 then 2 * n else 0
  {
    var odd := limit % 2;
    assert limit + 1 == 2 * k + 1 - odd;
    Times4(limit + 1, 2 * k + 1 - odd, n);
    if odd == 0 {
      assert (2 * k + 1) * (2 * n) == k * (4 * n) + 2 * n;
    } else {
      assert 2 * k * (2 * n) == k * (4 * n);
    }
  }

  lemma Times4(x: int, y: int, n: int)
    requires x == y
    ensures 2 * (x - 1) * n + 2 * n == y * (2 * n)
  {
  }

  /** "counted exactly once" fails: a limit split evenly over two providers is attributed one unit too often
      whenever it is odd, and only then. */
  lemma EvenSplitCountsTwice(u: AutoUser, usage: Usage, loads: map<string, Load>, n: int, a: string, b: string)
    requires Conserved([u], usage, loads) && u.tokenLimit > 0 && n > 0 && a != b
    requires CellsOf(usage, u.id).Keys == {a, b}
    requires CellsOf(usage, u.id)[a].billed == CellsOf(usage, u.id)[b].billed == n
    ensures Sum(loads, LoadTokenShare()) == u.tokenLimit + u.tokenLimit % 2
  {
    EvenExcess(CellsOf(usage, u.id), u.tokenLimit, n, a, b);
    CountedOnceIff([u], usage, loads);
    assert [u] == [] + [u];
    SeqSumSnoc([], u, FiniteTokens(usage));
    SeqSumSnoc([], u, TokenExcess(usage));
  }
}
