/** Billed tokens: the runtime formula and the places that recompute it from the call log. */
module Billing {
  import opened Cycles
  import opened Sums

  /** One row of call_logs. */
  datatype LogRow = LogRow(
    userId: int,
    model: string,
    providerId: string,
    prompt: int,
    completion: int,
    effectiveCalls: int,
    multiplier: real,
    status: int,
    createdAt: Instant)

  function Ceil(x: real): (n: int)
    ensures n as real - 1.0 < x <= n as real
  {
    -((-x).Floor)
  }

  /** SQLite's CAST(x AS INTEGER) truncates toward zero. */
  function CastInt(x: real): int {
    if x >= 0.0 then x.Floor else Ceil(x)
  }

  /** The tokens of a row times the given multiplier, before rounding. */
  function Scaled(prompt: int, completion: int, multiplier: real): real {
    (prompt + completion) as real * multiplier
  }

  function Billed(prompt: int, completion: int, multiplier: real): int {
    Ceil(Scaled(prompt, completion, multiplier))
  }

  function SqlBilled(prompt: int, completion: int, multiplier: real): int {
    CastInt(Scaled(prompt, completion, multiplier) + 0.999999)
  }

  /** AddTokenUsage ignores amounts that are not positive. */
  function Charged(amount: int): nat {
    if amount <= 0 then 0 else amount
  }

  datatype Breakdown = Breakdown(prompt: int, completion: int, total: int)

  function MultipliedTokenBreakdown(prompt: int, completion: int, multiplier: real): Breakdown {
    var m := if multiplier == 0.0 then 1.0 else multiplier;
    var p := Ceil(prompt as real * m);
    var t := Billed(prompt, completion, m);
    Breakdown(p, t - p, t)
  }

  // ----- what the formulas mean

  lemma SumTimes(p: int, c: int, m: real)
    ensures (p + c) as real * m == p as real * m + c as real * m
  {
  }

  /** A bill is the least whole number that covers prompt and completion, each at the multiplier. */
  lemma BilledIff(prompt: int, completion: int, multiplier: real, n: int)
    ensures n == Billed(prompt, completion, multiplier) <==>
      n as real - 1.0 < prompt as real * multiplier + completion as real * multiplier <= n as real
  {
    ScaledIs(prompt, completion, multiplier);
  }

  /** At a whole multiplier every token costs that many. */
  lemma WholeMultiplierBills(prompt: int, completion: int, k: int)
    ensures Billed(prompt, completion, k as real) == k * (prompt + completion)
  {
    CastProduct(prompt + completion, k);
    SumTimes(prompt, completion, k as real);
    BilledIff(prompt, completion, k as real, k * (prompt + completion));
  }

  lemma CastProduct(a: int, b: int)
    ensures a as real * b as real == (b * a) as real
  {
  }

  /** The statistics' total and prompt, by the same measure; a multiplier of zero counts as one. */
  lemma BreakdownIff(prompt: int, completion: int, multiplier: real, total: int, part: int)
    ensures
      var b := MultipliedTokenBreakdown(prompt, completion, multiplier);
      var m := if multiplier == 0.0 then 1.0 else multiplier;
      && (total == b.total <==> total as real - 1.0 < prompt as real * m + completion as real * m <= total as real)
      && (part == b.prompt <==> part as real - 1.0 < prompt as real * m <= part as real)
      && b.completion == b.total - b.prompt
  {
    BilledIff(prompt, completion, if multiplier == 0.0 then 1.0 else multiplier, total);
  }

  /** What the SQL idiom computes: the scaled tokens plus 0.999999, cut toward zero. */
  lemma SqlBilledIff(prompt: int, completion: int, multiplier: real, n: int)
    ensures
      var x := prompt as real * multiplier + completion as real * multiplier + 0.999999;
      n == SqlBilled(prompt, completion, multiplier) <==>
        if x >= 0.0 then n as real <= x < n as real + 1.0 else n as real - 1.0 < x <= n as real
  {
    var y := Scaled(prompt, completion, multiplier);
    ScaledIs(prompt, completion, multiplier);
    CastIntIff(y + 0.999999, n);
  }

  lemma ScaledIs(prompt: int, completion: int, multiplier: real)
    ensures Scaled(prompt, completion, multiplier) == prompt as real * multiplier + completion as real * multiplier
  {
    SumTimes(prompt, completion, multiplier);
  }

  lemma CastIntIff(x: real, n: int)
    ensures n == CastInt(x) <==> if x >= 0.0 then n as real <= x < n as real + 1.0 else n as real - 1.0 < x <= n as real
  {
  }

  lemma BreakdownParts(prompt: int, completion: int, multiplier: real)
    requires prompt >= 0 && completion >= 0 && multiplier >= 0.0
    ensures
      var b := MultipliedTokenBreakdown(prompt, completion, multiplier);
      b.prompt >= 0 && b.completion >= 0 && b.prompt + b.completion == b.total
  {
    var m := if multiplier == 0.0 then 1.0 else multiplier;
    assert Scaled(prompt, completion, m) == prompt as real * m + completion as real * m;
    MulNonneg(prompt as real, m);
    MulNonneg(completion as real, m);
  }

  lemma MulNonneg(x: real, y: real)
    requires x >= 0.0 && y >= 0.0
    ensures x * y >= 0.0
  {
  }

  // ----- the weights of a log row in the three recomputations for one user

  ghost function BilledTo(user: int): LogRow -> int {
    (r: LogRow) => if r.userId == user then Billed(r.prompt, r.completion, r.multiplier) else 0
  }

  ghost function ChargedTo(user: int): LogRow -> int {
    (r: LogRow) => if r.userId == user then Charged(Billed(r.prompt, r.completion, r.multiplier)) else 0
  }

  ghost function SqlBilledTo(user: int): LogRow -> int {
    (r: LogRow) => if r.userId == user then SqlBilled(r.prompt, r.completion, r.multiplier) else 0
  }

  ghost function StatsBilledTo(user: int): LogRow -> int {
    (r: LogRow) =>
      if r.userId == user then MultipliedTokenBreakdown(r.prompt, r.completion, r.multiplier).total else 0
  }

  /** Summed over a log, the number of the user's rows. */
  ghost function RowsOf(user: int): LogRow -> int {
    (r: LogRow) => if r.userId == user then 1 else 0
  }

  ghost function BilledSince(user: int, since: Option<Instant>): LogRow -> int {
    (r: LogRow) =>
      if r.userId == user && (since.None? || r.createdAt >= since.value)
      then Billed(r.prompt, r.completion, r.multiplier) else 0
  }

  /** What one more log row adds to each sum of a user: its bill, by the formula of the place, if it is the
      user's and, where there is a window, not older than its start. An empty log sums to zero. */
  lemma OneMoreRow(log: seq<LogRow>, r: LogRow, user: int, since: Option<Instant>)
    ensures SeqSum(log + [r], BilledSince(user, since)) - SeqSum(log, BilledSince(user, since)) ==
      if r.userId == user && (since.Some? ==> since.value <= r.createdAt)
      then Billed(r.prompt, r.completion, r.multiplier) else 0
    ensures SeqSum(log + [r], BilledTo(user)) - SeqSum(log, BilledTo(user)) ==
      if r.userId == user then Billed(r.prompt, r.completion, r.multiplier) else 0
    ensures SeqSum(log + [r], SqlBilledTo(user)) - SeqSum(log, SqlBilledTo(user)) ==
      if r.userId == user then SqlBilled(r.prompt, r.completion, r.multiplier) else 0
    ensures SeqSum(log + [r], StatsBilledTo(user)) - SeqSum(log, StatsBilledTo(user)) ==
      if r.userId == user then MultipliedTokenBreakdown(r.prompt, r.completion, r.multiplier).total else 0
    ensures
      var bill := Billed(r.prompt, r.completion, r.multiplier);
      SeqSum(log + [r], ChargedTo(user)) - SeqSum(log, ChargedTo(user)) ==
        if r.userId == user && bill > 0 then bill else 0
  {
    SeqSumSnoc(log, r, BilledSince(user, since));
    SeqSumSnoc(log, r, BilledTo(user));
    SeqSumSnoc(log, r, SqlBilledTo(user));
    SeqSumSnoc(log, r, StatsBilledTo(user));
    SeqSumSnoc(log, r, ChargedTo(user));
  }

  /** The panel's recomputation: select the user's rows, then add up the rounded row values. */
  method SumMultipliedTokens(log: seq<LogRow>, user: int, since: Option<Instant>) returns (total: int)
    ensures total == SeqSum(log, BilledSince(user, since))
  {
    total := 0;
    for i := 0 to |log|
      invariant total == SeqSum(log[..i], BilledSince(user, since))
    {
      var r := log[i];
      SeqSumSnoc(log[..i], r, BilledSince(user, since));
      assert log[..i + 1] == log[..i] + [r];
      if r.userId == user && (since.None? || r.createdAt >= since.value) {
        total := total + Billed(r.prompt, r.completion, r.multiplier);
      }
    }
    assert log[..|log|] == log;
  }

  // ----- when the recomputations agree

  /** x has no fractional part, or one of at least a millionth. */
  predicate CastSafe(x: real) {
    var frac := x - x.Floor as real;
    frac == 0.0 || frac >= 0.000001
  }

  /** The SQL rounding idiom is the ceiling exactly on cast-safe values, and one too low elsewhere. */
  lemma CastIsCeilIff(x: real)
    requires x >= 0.0
    ensures CastInt(x + 0.999999) == Ceil(x) <==> CastSafe(x)
    ensures Ceil(x) - 1 <= CastInt(x + 0.999999) <= Ceil(x)
  {
    var n := x.Floor;
    var frac := x - n as real;
    assert 0.0 <= frac < 1.0;
    if frac == 0.0 {
      assert (x + 0.999999).Floor == n;
    } else {
      assert Ceil(x) == n + 1;
      assert (x + 0.999999).Floor == if frac >= 0.000001 then n + 1 else n;
    }
  }

  /** "the integer truncation equals ceil(x) for every non-negative x" does not hold. */
  lemma CastMissesTinyFraction()
    ensures CastInt(1.0000005 + 0.999999) == 1 && Ceil(1.0000005) == 2
  {
    assert (1.0000005 + 0.999999).Floor == 1;
    assert (-1.0000005).Floor == -2;
  }

  lemma WholeMillionthsAreCastSafe(prompt: nat, completion: nat, multiplier: real, millionths: nat)
    requires multiplier == millionths as real / 1000000.0
    ensures CastSafe(Scaled(prompt, completion, multiplier))
  {
    var x := Scaled(prompt, completion, multiplier);
    var product := (prompt + completion) * millionths;
    assert x == product as real / 1000000.0;
    var q, r := product / 1000000, product % 1000000;
    assert x == q as real + r as real / 1000000.0;
    assert x.Floor == q;
    if r > 0 { assert r as real / 1000000.0 >= 0.000001; }
  }

  ghost predicate Nonnegative(r: LogRow) {
    r.prompt >= 0 && r.completion >= 0 && r.multiplier >= 0.0
  }

  /** SQL sum and panel sum of a user agree if and only if each of the user's rows is cast-safe. */
  lemma SqlSumAgreesIff(log: seq<LogRow>, user: int)
    requires forall r :: r in log ==> Nonnegative(r)
    ensures SeqSum(log, SqlBilledTo(user)) <= SeqSum(log, BilledTo(user))
    ensures SeqSum(log, BilledTo(user)) - SeqSum(log, RowsOf(user)) <= SeqSum(log, SqlBilledTo(user))
    ensures SeqSum(log, SqlBilledTo(user)) == SeqSum(log, BilledTo(user)) <==>
      forall r :: r in log && r.userId == user ==> CastSafe(Scaled(r.prompt, r.completion, r.multiplier))
  {
    forall r | r in log
      ensures SqlBilledTo(user)(r) <= BilledTo(user)(r) <= SqlBilledTo(user)(r) + RowsOf(user)(r)
      ensures SqlBilledTo(user)(r) == BilledTo(user)(r) <==>
        (r.userId == user ==> CastSafe(Scaled(r.prompt, r.completion, r.multiplier)))
    {
      MulNonneg((r.prompt + r.completion) as real, r.multiplier);
      CastIsCeilIff(Scaled(r.prompt, r.completion, r.multiplier));
    }
    SeqSumCompare(log, SqlBilledTo(user), BilledTo(user));
    SqlSumLowerBound(log, user);
  }

  lemma {:induction false} SqlSumLowerBound(log: seq<LogRow>, user: int)
    requires forall r :: r in log ==> BilledTo(user)(r) <= SqlBilledTo(user)(r) + RowsOf(user)(r)
    ensures SeqSum(log, BilledTo(user)) - SeqSum(log, RowsOf(user)) <= SeqSum(log, SqlBilledTo(user))
  {
    if log != [] { SqlSumLowerBound(log[..|log| - 1], user); }
  }

  /** Admin statistics and panel sum of a user agree if and only if no row of theirs has tokens
      but a zero multiplier: the statistics read a zero multiplier as one, the others do not. */
  lemma StatsSumAgreesIff(log: seq<LogRow>, user: int)
    requires forall r :: r in log ==> Nonnegative(r)
    ensures SeqSum(log, BilledTo(user)) <= SeqSum(log, StatsBilledTo(user))
    ensures SeqSum(log, StatsBilledTo(user)) == SeqSum(log, BilledTo(user)) <==>
      forall r :: r in log && r.userId == user ==> r.multiplier != 0.0 || r.prompt + r.completion == 0
  {
    forall r | r in log
      ensures BilledTo(user)(r) <= StatsBilledTo(user)(r)
      ensures BilledTo(user)(r) == StatsBilledTo(user)(r) <==>
        (r.userId == user ==> r.multiplier != 0.0 || r.prompt + r.completion == 0)
    {
      if r.multiplier == 0.0 {
        assert Scaled(r.prompt, r.completion, 0.0) == 0.0;
        assert Scaled(r.prompt, r.completion, 1.0) == (r.prompt + r.completion) as real;
      }
    }
    SeqSumCompare(log, BilledTo(user), StatsBilledTo(user));
  }

  /** All three recomputations, for logs whose multipliers are positive whole millionths. */
  lemma RecomputationsAgree(log: seq<LogRow>, user: int, millionths: LogRow -> nat)
    requires forall r :: r in log ==>
      r.prompt >= 0 && r.completion >= 0 && r.multiplier == millionths(r) as real / 1000000.0
    requires forall r :: r in log ==> millionths(r) > 0 || r.prompt + r.completion == 0
    ensures SeqSum(log, SqlBilledTo(user)) == SeqSum(log, BilledTo(user)) == SeqSum(log, StatsBilledTo(user))
  {
    forall r | r in log
      ensures Nonnegative(r) && CastSafe(Scaled(r.prompt, r.completion, r.multiplier))
      ensures r.multiplier != 0.0 || r.prompt + r.completion == 0
    {
      WholeMillionthsAreCastSafe(r.prompt, r.completion, r.multiplier, millionths(r));
    }
    SqlSumAgreesIff(log, user);
    StatsSumAgreesIff(log, user);
  }

  /** The quota counter ignores rows billed below zero, so it follows the panel sum exactly when there are none. */
  lemma ChargedSumAgreesIff(log: seq<LogRow>, user: int)
    ensures SeqSum(log, ChargedTo(user)) == SeqSum(log, BilledTo(user)) <==>
      forall r :: r in log && r.userId == user ==> Billed(r.prompt, r.completion, r.multiplier) >= 0
  {
    forall r | r in log
      ensures BilledTo(user)(r) <= ChargedTo(user)(r)
      ensures BilledTo(user)(r) == ChargedTo(user)(r) <==>
        (r.userId == user ==> Billed(r.prompt, r.completion, r.multiplier) >= 0)
    {}
    SeqSumCompare(log, BilledTo(user), ChargedTo(user));
  }
}
