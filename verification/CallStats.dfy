/** The admin panel's call statistics: grand totals, and the same rows grouped by model and by user. */
module CallStats {
  import opened Billing
  import opened Sums

  /** What a group, or the whole set, accumulates. */
  datatype Stats = Stats(calls: int, prompt: int, completion: int, total: int, effective: int)

  const NONE := Stats(0, 0, 0, 0, 0)

  function AddRow(s: Stats, r: LogRow): Stats {
    var b := MultipliedTokenBreakdown(r.prompt, r.completion, r.multiplier);
    Stats(s.calls + 1, s.prompt + b.prompt, s.completion + b.completion, s.total + b.total,
          s.effective + r.effectiveCalls)
  }

  datatype Measure = ACalls | APrompt | ACompletion | ATotal | AEffective

  function Get(m: Measure, s: Stats): int {
    match m
    case ACalls => s.calls
    case APrompt => s.prompt
    case ACompletion => s.completion
    case ATotal => s.total
    case AEffective => s.effective
  }

  ghost function Part(m: Measure): Stats -> int { (s: Stats) => Get(m, s) }

  /** A row's own contribution, independently of how rows are grouped. */
  ghost function Of(m: Measure): LogRow -> int { (r: LogRow) => Get(m, AddRow(NONE, r)) }

  /** SQLite's LOWER folds the ASCII letters only. */
  function Lower(s: string): string {
    if s == [] then s
    else
      var c := s[0];
      [if 'A' <= c <= 'Z' then c + 32 as char else c] + Lower(s[1..])
  }

  lemma AddRowParts(s: Stats, r: LogRow)
    ensures forall m: Measure :: Get(m, AddRow(s, r)) == Get(m, s) + Of(m)(r)
  {
  }

  /** The derived completion keeps prompt + completion equal to total. */
  predicate Consistent(s: Stats) { s.prompt + s.completion == s.total }

  predicate NonnegativeParts(s: Stats) { s.prompt >= 0 && s.completion >= 0 && s.total >= 0 }

  lemma AddRowKeeps(s: Stats, r: LogRow)
    requires Consistent(s)
    ensures Consistent(AddRow(s, r))
    ensures NonnegativeParts(s) && Nonnegative(r) ==> NonnegativeParts(AddRow(s, r))
  {
    if Nonnegative(r) { BreakdownParts(r.prompt, r.completion, r.multiplier); }
  }

  ghost predicate AllNonnegative(rows: seq<LogRow>) { forall r :: r in rows ==> Nonnegative(r) }

  // ----- the rows of a filter

  /** Zero, empty and None mean no condition. */
  datatype Filter = Filter(user: int, provider: string, model: string, from: Option<int>, to: Option<int>)

  predicate Selects(f: Filter, r: LogRow) {
    && (f.user != 0 ==> r.userId == f.user)
    && (f.provider != "" ==> r.providerId == f.provider)
    && (f.model != "" ==> Lower(r.model) == Lower(f.model))
    && (f.from.Some? ==> r.createdAt >= f.from.value)
    && (f.to.Some? ==> r.createdAt <= f.to.value)
  }

  function Rows(log: seq<LogRow>, f: Filter): seq<LogRow> {
    if log == [] then []
    else
      Rows(log[..|log| - 1], f) + if Selects(f, log[|log| - 1]) then [log[|log| - 1]] else []
  }

  /** ASCII letters that differ in case only. */
  predicate SameLetter(c: char, d: char) {
    || c == d
    || ('A' <= c <= 'Z' && d as int == c as int + 32)
    || ('A' <= d <= 'Z' && c as int == d as int + 32)
  }

  lemma {:induction false} LowerEqualIff(a: string, b: string)
    ensures Lower(a) == Lower(b) <==> |a| == |b| && forall i :: 0 <= i < |a| ==> SameLetter(a[i], b[i])
  {
    if a != [] && b != [] {
      LowerEqualIff(a[1..], b[1..]);
      assert Lower(a)[0] == Lower(b)[0] <==> SameLetter(a[0], b[0]);
      assert Lower(a)[1..] == Lower(a[1..]) && Lower(b)[1..] == Lower(b[1..]);
      if |a| == |b| && forall i :: 0 <= i < |a| ==> SameLetter(a[i], b[i]) {
        assert forall i :: 0 <= i < |a[1..]| ==> SameLetter(a[1..][i], b[1..][i]);
        assert Lower(a) == [Lower(a)[0]] + Lower(a)[1..] && Lower(b) == [Lower(b)[0]] + Lower(b)[1..];
      }
      if Lower(a) == Lower(b) {
        forall i | 0 <= i < |a| ensures i < |b| && SameLetter(a[i], b[i]) {
          if i > 0 { assert a[i] == a[1..][i - 1] && b[i] == b[1..][i - 1]; }
        }
      }
    }
  }

  /** A filter keeps exactly the rows that meet each condition given: the user, the provider, the model but for
      the case of ASCII letters, and the days, both ends included. */
  lemma {:induction false} FilterMeans(log: seq<LogRow>, f: Filter, r: LogRow)
    ensures r in Rows(log, f) <==>
      && r in log
      && (f.user == 0 || r.userId == f.user)
      && (f.provider == "" || r.providerId == f.provider)
      && (f.model == "" || Lower(r.model) == Lower(f.model))
      && (f.from == None || f.from.value <= r.createdAt)
      && (f.to == None || r.createdAt <= f.to.value)
  {
    if log != [] {
      FilterMeans(log[..|log| - 1], f, r);
      assert log == log[..|log| - 1] + [log[|log| - 1]];
    }
  }

  /** What one row contributes to each measure. */
  lemma RowMeans(r: LogRow)
    ensures
      var b := MultipliedTokenBreakdown(r.prompt, r.completion, r.multiplier);
      && Of(ACalls)(r) == 1 && Of(AEffective)(r) == r.effectiveCalls
      && Of(APrompt)(r) == b.prompt && Of(ACompletion)(r) == b.completion && Of(ATotal)(r) == b.total
  {
  }

  lemma {:induction false} CallsAreRows(rows: seq<LogRow>)
    ensures SeqSum(rows, Of(ACalls)) == |rows|
  {
    if rows != [] {
      CallsAreRows(rows[..|rows| - 1]);
      RowMeans(rows[|rows| - 1]);
    }
  }

  // ----- the three passes

  method GrandTotals(rows: seq<LogRow>) returns (s: Stats)
    ensures forall m: Measure :: Get(m, s) == SeqSum(rows, Of(m))
    ensures Consistent(s) && (AllNonnegative(rows) ==> NonnegativeParts(s))
  {
    s := NONE;
    for i := 0 to |rows|
      invariant forall m: Measure :: Get(m, s) == SeqSum(rows[..i], Of(m))
      invariant Consistent(s) && (AllNonnegative(rows) ==> NonnegativeParts(s))
    {
      var r := rows[i];
      assert rows[..i + 1] == rows[..i] + [r];
      forall m: Measure ensures SeqSum(rows[..i + 1], Of(m)) == SeqSum(rows[..i], Of(m)) + Of(m)(r) {
        SeqSumSnoc(rows[..i], r, Of(m));
      }
      AddRowParts(s, r);
      AddRowKeeps(s, r);
      s := AddRow(s, r);
    }
    assert rows[..|rows|] == rows;
  }

  ghost function OfGroup<K>(m: Measure, key: LogRow -> K, k: K): LogRow -> int {
    (r: LogRow) => if key(r) == k then Of(m)(r) else 0
  }

  function Group<K(==)>(groups: map<K, Stats>, k: K): Stats {
    if k in groups then groups[k] else NONE
  }

  /** Every group, absent ones included, is the sum of its own rows. */
  ghost predicate GroupsHold<K(!new)>(rows: seq<LogRow>, key: LogRow -> K, groups: map<K, Stats>) {
    forall k, m: Measure {:trigger SeqSum(rows, OfGroup(m, key, k))} ::
      Get(m, Group(groups, k)) == SeqSum(rows, OfGroup(m, key, k))
  }

  ghost predicate GroupsAddUp<K>(rows: seq<LogRow>, groups: map<K, Stats>) {
    forall m: Measure :: Sum(groups, Part(m)) == SeqSum(rows, Of(m))
  }

  lemma GroupStep<K(!new)>(rows: seq<LogRow>, r: LogRow, key: LogRow -> K, groups: map<K, Stats>)
    requires GroupsHold(rows, key, groups) && GroupsAddUp(rows, groups)
    ensures
      var after := groups[key(r) := AddRow(Group(groups, key(r)), r)];
      GroupsHold(rows + [r], key, after) && GroupsAddUp(rows + [r], after)
  {
    var added := AddRow(Group(groups, key(r)), r);
    var after := groups[key(r) := added];
    AddRowParts(Group(groups, key(r)), r);
    forall k, m: Measure ensures Get(m, Group(after, k)) == SeqSum(rows + [r], OfGroup(m, key, k)) {
      SeqSumSnoc(rows, r, OfGroup(m, key, k));
    }
    forall m: Measure ensures Sum(after, Part(m)) == SeqSum(rows + [r], Of(m)) {
      SeqSumSnoc(rows, r, Of(m));
      SumWrite(groups, Part(m), key(r), added);
    }
  }

  /** One grouping pass: each group is the sum of its own rows, the groups add up to all the rows. */
  method GroupBy<K(!new, ==)>(rows: seq<LogRow>, key: LogRow -> K) returns (groups: map<K, Stats>)
    ensures GroupsHold(rows, key, groups) && GroupsAddUp(rows, groups)
    ensures groups.Keys == set r | r in rows :: key(r)
    ensures forall k :: k in groups ==> Consistent(groups[k])
    ensures AllNonnegative(rows) ==> forall k :: k in groups ==> NonnegativeParts(groups[k])
  {
    groups := map[];
    for i := 0 to |rows|
      invariant GroupsHold(rows[..i], key, groups) && GroupsAddUp(rows[..i], groups)
      invariant groups.Keys == set r | r in rows[..i] :: key(r)
      invariant forall k :: k in groups ==> Consistent(groups[k])
      invariant AllNonnegative(rows) ==> forall k :: k in groups ==> NonnegativeParts(groups[k])
    {
      var r := rows[i];
      assert rows[..i + 1] == rows[..i] + [r];
      GroupStep(rows[..i], r, key, groups);
      AddRowKeeps(Group(groups, key(r)), r);
      groups := groups[key(r) := AddRow(Group(groups, key(r)), r)];
    }
    assert rows[..|rows|] == rows;
  }

  function ModelOf(): LogRow -> string { (r: LogRow) => Lower(r.model) }

  function UserOf(): LogRow -> int { (r: LogRow) => r.userId }

  /** Both groupings are partitions of the grand totals, in calls, tokens and effective calls alike, and
      at every level prompt and completion make up the total. */
  method AggregateCallStats(log: seq<LogRow>, f: Filter)
    returns (s: Stats, byModel: map<string, Stats>, byUser: map<int, Stats>)
    ensures forall m: Measure :: Get(m, s) == Sum(byModel, Part(m)) == Sum(byUser, Part(m))
    ensures forall m: Measure :: Get(m, s) == SeqSum(Rows(log, f), Of(m))
    ensures GroupsHold(Rows(log, f), ModelOf(), byModel) && GroupsHold(Rows(log, f), UserOf(), byUser)
    ensures s.calls == |Rows(log, f)|
    ensures byModel.Keys == set r | r in Rows(log, f) :: Lower(r.model)
    ensures byUser.Keys == set r | r in Rows(log, f) :: r.userId
    ensures Consistent(s)
    ensures forall k :: k in byModel ==> Consistent(byModel[k])
    ensures forall k :: k in byUser ==> Consistent(byUser[k])
    ensures AllNonnegative(Rows(log, f)) ==>
      && NonnegativeParts(s)
      && (forall k :: k in byModel ==> NonnegativeParts(byModel[k]))
      && (forall k :: k in byUser ==> NonnegativeParts(byUser[k]))
  {
    CallsAreRows(Rows(log, f));
    s := GrandTotals(Rows(log, f));
    assert Get(ACalls, s) == s.calls;
    byModel := GroupBy(Rows(log, f), ModelOf());
    byUser := GroupBy(Rows(log, f), UserOf());
  }

  function OnlyUser(user: int): Filter { Filter(user, "", "", None, None) }

  lemma RowTotal(r: LogRow, user: int)
    requires user != 0
    ensures Selects(OnlyUser(user), r) <==> r.userId == user
    ensures StatsBilledTo(user)(r) == if r.userId == user then Of(ATotal)(r) else 0
  {
  }

  /** The total shown for one user is the sum that Billing compares with the other recomputations. */
  lemma {:induction false} UserTotal(log: seq<LogRow>, user: int)
    requires user != 0
    ensures SeqSum(Rows(log, OnlyUser(user)), Of(ATotal)) == SeqSum(log, StatsBilledTo(user))
  {
    if log != [] {
      var before, last := log[..|log| - 1], log[|log| - 1];
      var rows := Rows(before, OnlyUser(user));
      UserTotal(before, user);
      RowTotal(last, user);
      assert SeqSum(log, StatsBilledTo(user)) == SeqSum(before, StatsBilledTo(user)) + StatsBilledTo(user)(last);
      if last.userId == user {
        SeqSumSnoc(rows, last, Of(ATotal));
      } else {
        assert Rows(log, OnlyUser(user)) == rows + [] == rows;
      }
    }
  }
}
