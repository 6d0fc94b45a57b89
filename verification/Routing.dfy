/** Time windows and the choice of the upstream provider. Text is one char per byte. */
module Routing {
  import opened Cycles
  import opened Sums

  // ----- the Shanghai clock (UTC+8, no daylight saving); instants are Unix seconds

  const SHANGHAI_OFFSET: int := 8 * 3600
  const DAY_MINUTES: int := 24 * 60

  function MinuteOfDay(now: Instant): int { (now + SHANGHAI_OFFSET) / 60 % DAY_MINUTES }

  type Day = d: int | 0 <= d <= 6

  /** 0 is Sunday; the epoch was a Thursday. */
  function Weekday(now: Instant): Day { ((now + SHANGHAI_OFFSET) / 86400 + 4) % 7 }

  function Digit(n: int): char
    requires 0 <= n <= 9
  {
    '0' + n as char
  }

  function FormatHHMM(minute: int): string
    requires 0 <= minute < DAY_MINUTES
  {
    var h, m := minute / 60, minute % 60;
    [Digit(h / 10), Digit(h % 10), ':', Digit(m / 10), Digit(m % 10)]
  }

  /** Go's string order. */
  predicate LexLess(a: string, b: string) {
    b != [] && (a == [] || a[0] < b[0] || (a[0] == b[0] && LexLess(a[1..], b[1..])))
  }

  predicate InRangeAt(start: string, end: string, minute: int)
    requires 0 <= minute < DAY_MINUTES
  {
    var cur := FormatHHMM(minute);
    if !LexLess(end, start) then !LexLess(cur, start) && LexLess(cur, end)
    else !LexLess(cur, start) || LexLess(cur, end)
  }

  predicate IsInRange(start: string, end: string, now: Instant) {
    InRangeAt(start, end, MinuteOfDay(now))
  }

  // ----- days of the week

  predicate IsSpace(c: char) {
    9 <= c as int <= 13 || c == ' '
  }

  function TrimSpace(s: string): string
    decreases |s|
  {
    if s == [] then s
    else if IsSpace(s[0]) then TrimSpace(s[1..])
    else if IsSpace(s[|s| - 1]) then TrimSpace(s[..|s| - 1])
    else s
  }

  function SplitComma(s: string): seq<string>
    ensures |SplitComma(s)| > 0
  {
    if s == [] then [[]]
    else
      var rest := SplitComma(s[1..]);
      if s[0] == ',' then [[]] + rest else [[s[0]] + rest[0]] + rest[1..]
  }

  predicate MatchDay(weekMask: string, now: Instant) {
    || weekMask == "*" || weekMask == ""
    || exists i :: 0 <= i < |SplitComma(weekMask)| && TrimSpace(SplitComma(weekMask)[i]) == [Digit(Weekday(now))]
  }

  /** One entry of a list of days, with the spaces around it. */
  datatype Entry = Entry(before: string, day: Day, behind: string) {
    predicate Spaced() {
      (forall c :: c in before ==> IsSpace(c)) && (forall c :: c in behind ==> IsSpace(c))
    }

    function Text(): string { before + [Digit(day)] + behind }
  }

  /** The list of days as an administrator writes it, such as "1,2, 3". */
  function Mask(days: seq<Entry>): string {
    if days == [] then []
    else if |days| == 1 then days[0].Text()
    else days[0].Text() + [','] + Mask(days[1..])
  }

  lemma {:induction false} SplitOne(text: string)
    requires ',' !in text
    ensures SplitComma(text) == [text]
  {
    if text != [] {
      assert [text[0]] + text[1..] == text;
      SplitOne(text[1..]);
    }
  }

  lemma {:induction false} SplitFirst(text: string, rest: string)
    requires ',' !in text
    ensures SplitComma(text + [','] + rest) == [text] + SplitComma(rest)
  {
    var s := text + [','] + rest;
    if text == [] {
      assert s[1..] == rest;
    } else {
      assert [text[0]] + text[1..] == text;
      assert s[1..] == text[1..] + [','] + rest;
      SplitFirst(text[1..], rest);
      var tail := SplitComma(s[1..]);
      assert tail[0] == text[1..] && tail[1..] == SplitComma(rest);
      assert SplitComma(s) == [[s[0]] + tail[0]] + tail[1..];
    }
  }

  lemma {:induction false} SplitMask(days: seq<Entry>)
    requires days != [] && forall e :: e in days ==> e.Spaced()
    ensures |SplitComma(Mask(days))| == |days|
    ensures forall i :: 0 <= i < |days| ==> SplitComma(Mask(days))[i] == days[i].Text()
  {
    assert days[0].Spaced();
    DigitRoundTrip(days[0].day);
    if |days| == 1 {
      SplitOne(days[0].Text());
    } else {
      SplitMask(days[1..]);
      SplitFirst(days[0].Text(), Mask(days[1..]));
    }
  }

  lemma {:induction false} TrimEntry(before: string, c: char, behind: string)
    requires (forall x :: x in before ==> IsSpace(x)) && (forall x :: x in behind ==> IsSpace(x)) && !IsSpace(c)
    ensures TrimSpace(before + [c] + behind) == [c]
    decreases |before| + |behind|
  {
    var s := before + [c] + behind;
    if before != [] {
      assert s[1..] == before[1..] + [c] + behind;
      TrimEntry(before[1..], c, behind);
    } else if behind != [] {
      assert s[0] == c && s[|s| - 1] == behind[|behind| - 1];
      assert s[..|s| - 1] == before + [c] + behind[..|behind| - 1];
      TrimEntry(before, c, behind[..|behind| - 1]);
    }
  }

  lemma EntryMatches(e: Entry, now: Instant)
    requires e.Spaced()
    ensures TrimSpace(e.Text()) == [Digit(Weekday(now))] <==> e.day == Weekday(now)
  {
    DigitRoundTrip(e.day);
    DigitRoundTrip(Weekday(now));
    TrimEntry(e.before, Digit(e.day), e.behind);
  }

  lemma MaskIsNoStar(days: seq<Entry>)
    requires days != [] && days[0].Spaced()
    ensures Mask(days) != "*" && Mask(days) != ""
  {
    DigitRoundTrip(days[0].day);
    var e := days[0];
    assert Mask(days)[|e.before|] == e.Text()[|e.before|] == Digit(e.day);
  }

  /** A list of days, with spaces around them or not, matches exactly on its days; the empty one and the star
      match every day. */
  lemma MaskMatchesIff(days: seq<Entry>, now: Instant)
    requires forall e :: e in days ==> e.Spaced()
    ensures MatchDay(Mask(days), now) <==> days == [] || exists e :: e in days && e.day == Weekday(now)
    ensures MatchDay("*", now)
  {
    if days != [] {
      var parts := SplitComma(Mask(days));
      SplitMask(days);
      assert days[0].Spaced();
      MaskIsNoStar(days);
      forall i | 0 <= i < |days|
        ensures TrimSpace(parts[i]) == [Digit(Weekday(now))] <==> days[i].day == Weekday(now)
      {
        EntryMatches(days[i], now);
      }
      if e :| e in days && e.day == Weekday(now) {
        var i :| 0 <= i < |days| && days[i] == e;
        assert TrimSpace(parts[i]) == [Digit(Weekday(now))];
      }
    }
  }

  // ----- window widths

  /** A byte less '0', as an unsigned byte. */
  function DigitValue(c: char): int { (c as int - 48) % 256 }

  function ParseHHMM(v: string): int {
    if |v| != 5 || v[2] != ':' then -1
    else
      var h := DigitValue(v[0]) * 10 + DigitValue(v[1]);
      var m := DigitValue(v[3]) * 10 + DigitValue(v[4]);
      if h < 0 || h > 23 || m < 0 || m > 59 then -1 else h * 60 + m
  }

  function WindowMinutes(start: string, end: string): int {
    var s, e := ParseHHMM(start), ParseHHMM(end);
    if s < 0 || e < 0 then DAY_MINUTES
    else if s <= e then e - s
    else (DAY_MINUTES - s) + e
  }

  ghost predicate WellFormed(v: string) {
    exists m :: 0 <= m < DAY_MINUTES && v == FormatHHMM(m)
  }

  predicate FourDigits(v: string) {
    |v| == 5 && '0' <= v[0] <= '9' && '0' <= v[1] <= '9' && '0' <= v[3] <= '9' && '0' <= v[4] <= '9'
  }

  lemma DigitRoundTrip(n: int)
    requires 0 <= n <= 9
    ensures DigitValue(Digit(n)) == n && '0' <= Digit(n) <= '9'
  {
  }

  lemma DigitOfValue(c: char)
    requires '0' <= c <= '9'
    ensures 0 <= DigitValue(c) <= 9 && Digit(DigitValue(c)) == c
  {
  }

  lemma ParseFormat(m: int)
    requires 0 <= m < DAY_MINUTES
    ensures ParseHHMM(FormatHHMM(m)) == m && FourDigits(FormatHHMM(m))
  {
    var h, k := m / 60, m % 60;
    DigitRoundTrip(h / 10);
    DigitRoundTrip(h % 10);
    DigitRoundTrip(k / 10);
    DigitRoundTrip(k % 10);
  }

  lemma TwoDigits(a: int, b: int)
    requires 0 <= a <= 9 && 0 <= b <= 9
    ensures (a * 10 + b) / 10 == a && (a * 10 + b) % 10 == b
  {
  }

  lemma FormatParsed(v: string)
    requires ParseHHMM(v) >= 0 && FourDigits(v)
    ensures ParseHHMM(v) < DAY_MINUTES && FormatHHMM(ParseHHMM(v)) == v
  {
    DigitOfValue(v[0]);
    DigitOfValue(v[1]);
    DigitOfValue(v[3]);
    DigitOfValue(v[4]);
    var h, k := DigitValue(v[0]) * 10 + DigitValue(v[1]), DigitValue(v[3]) * 10 + DigitValue(v[4]);
    var m := ParseHHMM(v);
    assert m / 60 == h && m % 60 == k;
    TwoDigits(DigitValue(v[0]), DigitValue(v[1]));
    TwoDigits(DigitValue(v[3]), DigitValue(v[4]));
  }

  /** "-1 if the format is invalid" holds for digits only: other bytes can pass for two-digit numbers. */
  lemma ParseAcceptsIff(v: string)
    ensures WellFormed(v) <==> ParseHHMM(v) >= 0 && FourDigits(v)
  {
    if ParseHHMM(v) >= 0 && FourDigits(v) { FormatParsed(v); }
    if m :| 0 <= m < DAY_MINUTES && v == FormatHHMM(m) { ParseFormat(m); }
  }

  lemma ParseTakesColonForTen()
    ensures ParseHHMM("0::00") == 600 && !WellFormed("0::00")
  {
    ParseAcceptsIff("0::00");
  }

  lemma LexStep(a: string, b: string)
    requires a != [] && b != []
    ensures LexLess(a, b) <==> a[0] < b[0] || (a[0] == b[0] && LexLess(a[1..], b[1..]))
  {
  }

  /** On HH:MM text the order of strings is the order of minutes. */
  lemma FormatOrder(x: int, y: int)
    requires 0 <= x < DAY_MINUTES && 0 <= y < DAY_MINUTES
    ensures LexLess(FormatHHMM(x), FormatHHMM(y)) <==> x < y
  {
    var a, b := FormatHHMM(x), FormatHHMM(y);
    LexStep(a, b);
    LexStep(a[1..], b[1..]);
    LexStep(a[2..], b[2..]);
    LexStep(a[3..], b[3..]);
    LexStep(a[4..], b[4..]);
    assert a[1..][1..] == a[2..] && b[1..][1..] == b[2..];
    assert a[2..][1..] == a[3..] && b[2..][1..] == b[3..];
    assert a[3..][1..] == a[4..] && b[3..][1..] == b[4..];
    assert a[4..][1..] == [] && b[4..][1..] == [];
  }

  /** Go's string order: a is a proper prefix of b, or smaller in the first place where they differ. */
  lemma {:induction false} LexLessIff(a: string, b: string)
    ensures LexLess(a, b) <==>
      exists k :: 0 <= k < |b| && k <= |a| && a[..k] == b[..k] && (k == |a| || a[k] < b[k])
  {
    if b != [] && a != [] {
      LexLessIff(a[1..], b[1..]);
      if LexLess(a, b) {
        if a[0] < b[0] {
          assert a[..0] == b[..0];
        } else {
          var k :| 0 <= k < |b[1..]| && k <= |a[1..]| && a[1..][..k] == b[1..][..k] &&
            (k == |a[1..]| || a[1..][k] < b[1..][k]);
          assert a[..k + 1] == [a[0]] + a[1..][..k] && b[..k + 1] == [b[0]] + b[1..][..k];
        }
      }
      if k :| 0 <= k < |b| && k <= |a| && a[..k] == b[..k] && (k == |a| || a[k] < b[k]) {
        if k > 0 {
          assert a[0] == a[..k][0] == b[..k][0] == b[0];
          assert a[1..][..k - 1] == a[..k][1..] && b[1..][..k - 1] == b[..k][1..];
        }
      }
    } else if a == [] && b != [] {
      assert a[..0] == b[..0];
    }
  }

  /** The minute of the day in Shanghai, eight hours ahead of UTC, and the day of the week: the epoch was a
      Thursday morning there. */
  lemma ShanghaiClock(day: int, minute: int, second: int)
    requires 0 <= minute < 1440 && 0 <= second < 60
    ensures MinuteOfDay(day * 86400 + minute * 60 + second - 28800) == minute
    ensures Weekday(day * 86400 + minute * 60 + second - 28800) == (day + 4) % 7
  {
    var local := day * 86400 + minute * 60 + second;
    assert local / 60 == day * 1440 + minute;
    assert local / 86400 == day;
  }

  ghost function MinutesOf(start: string, end: string): set<int> {
    set m | 0 <= m < DAY_MINUTES && InRangeAt(start, end, m)
  }

  ghost function Interval(lo: int, hi: int): (s: set<int>)
    requires lo <= hi
    ensures forall m :: m in s <==> lo <= m < hi
    ensures |s| == hi - lo
    decreases hi - lo
  {
    if lo == hi then {} else Interval(lo, hi - 1) + {hi - 1}
  }

  lemma InRangeInMinutes(s: int, e: int, m: int)
    requires 0 <= s < DAY_MINUTES && 0 <= e < DAY_MINUTES && 0 <= m < DAY_MINUTES
    ensures InRangeAt(FormatHHMM(s), FormatHHMM(e), m) <==> if s <= e then s <= m < e else m >= s || m < e
  {
    FormatOrder(e, s);
    FormatOrder(m, s);
    FormatOrder(m, e);
  }

  /** The width of a well-formed window is the number of minutes of the day it accepts, overnight and
      empty windows included. */
  lemma WidthCountsMinutes(start: string, end: string)
    requires WellFormed(start) && WellFormed(end)
    ensures |MinutesOf(start, end)| == WindowMinutes(start, end)
  {
    var s :| 0 <= s < DAY_MINUTES && start == FormatHHMM(s);
    var e :| 0 <= e < DAY_MINUTES && end == FormatHHMM(e);
    ParseFormat(s);
    ParseFormat(e);
    MinutesOfWindow(s, e, start, end);
    CountWindow(s, e);
  }

  ghost function Window(s: int, e: int): set<int>
    requires 0 <= s < DAY_MINUTES && 0 <= e < DAY_MINUTES
  {
    if s <= e then Interval(s, e) else Interval(s, DAY_MINUTES) + Interval(0, e)
  }

  lemma MinutesOfWindow(s: int, e: int, start: string, end: string)
    requires 0 <= s < DAY_MINUTES && 0 <= e < DAY_MINUTES
    requires start == FormatHHMM(s) && end == FormatHHMM(e)
    ensures MinutesOf(start, end) == Window(s, e)
  {
    forall m ensures m in MinutesOf(start, end) <==> m in Window(s, e) {
      if 0 <= m < DAY_MINUTES { InRangeInMinutes(s, e, m); }
    }
  }

  lemma CountWindow(s: int, e: int)
    requires 0 <= s < DAY_MINUTES && 0 <= e < DAY_MINUTES
    ensures |Window(s, e)| == if s <= e then e - s else e + DAY_MINUTES - s
  {
    if s > e { assert Interval(s, DAY_MINUTES) !! Interval(0, e); }
  }

  /** A window with a time that does not parse is as wide as a day, and no well-formed window is wider. */
  lemma MalformedIsWidest(start: string, end: string, s: string, e: string)
    requires ParseHHMM(start) < 0 || ParseHHMM(end) < 0
    requires WellFormed(s) && WellFormed(e)
    ensures WindowMinutes(s, e) < WindowMinutes(start, end) == 1440
  {
    var x :| 0 <= x < DAY_MINUTES && s == FormatHHMM(x);
    var y :| 0 <= y < DAY_MINUTES && e == FormatHHMM(y);
    ParseFormat(x);
    ParseFormat(y);
  }

  // ----- rules

  datatype Rule = Rule(
    id: int, providerId: string, start: string, end: string, days: string, priority: int, enabled: bool)

  datatype Provider = Provider(slug: string, endpoint: string)

  datatype Table = Table(providers: map<string, Provider>, rules: seq<Rule>, fallback: string)

  datatype Resolution =
    | Resolved(provider: Provider)
    | TargetMissing(rule: int, providerId: string)
    | NoProviders

  /** Higher priority, then narrower window, then lower id. */
  predicate Precedes(a: Rule, b: Rule) {
    if a.priority != b.priority then a.priority > b.priority
    else
      var da, db := WindowMinutes(a.start, a.end), WindowMinutes(b.start, b.end);
      if da != db then da < db else a.id < b.id
  }

  /** x has no better claim than r: no higher priority; at equal priority no narrower window; and at equal width
      too no lower id. */
  ghost predicate NoBetter(x: Rule, r: Rule) {
    && x.priority <= r.priority
    && (x.priority == r.priority ==> WindowMinutes(x.start, x.end) >= WindowMinutes(r.start, r.end))
    && (x.priority == r.priority && WindowMinutes(x.start, x.end) == WindowMinutes(r.start, r.end) ==> x.id >= r.id)
  }

  lemma NoBetterIff(x: Rule, r: Rule)
    ensures !Precedes(x, r) <==> NoBetter(x, r)
  {
  }

  lemma NotPrecedesTransitive(a: Rule, b: Rule, c: Rule)
    requires !Precedes(b, a) && !Precedes(c, b)
    ensures !Precedes(c, a)
  {
  }

  predicate Sorted(rules: seq<Rule>) {
    forall i, j :: 0 <= i < j < |rules| ==> !Precedes(rules[j], rules[i])
  }

  /** A sorted copy; equal elements keep their order. */
  method SortRoutingRules(rules: seq<Rule>) returns (out: seq<Rule>)
    ensures Sorted(out)
    ensures forall i, j :: 0 <= i < j < |out| ==> NoBetter(out[j], out[i])
    ensures multiset(out) == multiset(rules)
  {
    out := [];
    for i := 0 to |rules|
      invariant Sorted(out)
      invariant multiset(out) == multiset(rules[..i])
    {
      var r := rules[i];
      var k := |out|;
      while k > 0 && Precedes(r, out[k - 1])
        invariant 0 <= k <= |out|
        invariant forall j :: k <= j < |out| ==> Precedes(r, out[j])
      {
        k := k - 1;
      }
      assert rules[..i + 1] == rules[..i] + [r];
      InsertSorted(out, r, k);
      assert out == out[..k] + out[k..];
      out := out[..k] + [r] + out[k..];
    }
    assert rules[..|rules|] == rules;
    forall i, j | 0 <= i < j < |out| ensures NoBetter(out[j], out[i]) { NoBetterIff(out[j], out[i]); }
  }

  lemma InsertSorted(s: seq<Rule>, r: Rule, k: nat)
    requires Sorted(s) && k <= |s|
    requires forall j :: k <= j < |s| ==> Precedes(r, s[j])
    requires k > 0 ==> !Precedes(r, s[k - 1])
    ensures Sorted(s[..k] + [r] + s[k..])
  {
    forall i | 0 <= i < k ensures !Precedes(r, s[i]) {
      if i < k - 1 { NotPrecedesTransitive(s[i], s[k - 1], r); }
    }
  }

  predicate Matches(r: Rule, now: Instant) {
    r.enabled && IsInRange(r.start, r.end, now) && MatchDay(r.days, now)
  }

  ghost predicate SomeApplies(rules: seq<Rule>, now: Instant) {
    exists x :: x in rules && Matches(x, now)
  }

  /** r applies now and no rule that applies precedes it. */
  ghost predicate Leads(rules: seq<Rule>, now: Instant, r: Rule) {
    r in rules && Matches(r, now) && forall x :: x in rules && Matches(x, now) ==> !Precedes(x, r)
  }

  ghost predicate DefaultAnswer(table: Table, res: Resolution) {
    if table.providers == map[] then res == NoProviders
    else if table.fallback in table.providers then res == Resolved(table.providers[table.fallback])
    else exists p :: p in table.providers && res == Resolved(table.providers[p])
  }

  function RuleAnswer(table: Table, r: Rule): Resolution {
    if r.providerId in table.providers then Resolved(table.providers[r.providerId])
    else TargetMissing(r.id, r.providerId)
  }

  /** The answer is the leading rule's, found or not; the default answers only when no rule applies. */
  ghost predicate Answers(table: Table, now: Instant, res: Resolution) {
    if SomeApplies(table.rules, now)
    then exists r :: Leads(table.rules, now, r) && res == RuleAnswer(table, r)
    else DefaultAnswer(table, res)
  }

  /** r is enabled, and its window and its days include now. */
  ghost predicate AppliesNow(r: Rule, now: Instant) {
    r.enabled && IsInRange(r.start, r.end, now) && MatchDay(r.days, now)
  }

  /** The answer by the columns of the rules: of the rules that apply none has a better claim than one whose own
      provider is the answer, or the error names it; and else the default, by what is configured. */
  ghost predicate BestAnswers(table: Table, now: Instant, res: Resolution) {
    if exists x :: x in table.rules && AppliesNow(x, now) then
      exists r :: r in table.rules && AppliesNow(r, now)
        && (forall x :: x in table.rules && AppliesNow(x, now) ==> NoBetter(x, r))
        && (r.providerId in table.providers ==> res == Resolved(table.providers[r.providerId]))
        && (r.providerId !in table.providers ==> res == TargetMissing(r.id, r.providerId))
    else if table.providers == map[] then res == NoProviders
    else if table.fallback in table.providers then res == Resolved(table.providers[table.fallback])
    else exists p :: p in table.providers && res == Resolved(table.providers[p])
  }

  lemma AnswerIsBest(table: Table, now: Instant, res: Resolution)
    requires Answers(table, now, res)
    ensures BestAnswers(table, now, res)
  {
    assert forall x :: AppliesNow(x, now) <==> Matches(x, now);
    if SomeApplies(table.rules, now) {
      var r :| Leads(table.rules, now, r) && res == RuleAnswer(table, r);
      forall x | x in table.rules && AppliesNow(x, now) ensures NoBetter(x, r) {
        NoBetterIff(x, r);
      }
      assert r in table.rules && AppliesNow(r, now);
    }
  }

  method ResolveProvider(table: Table, now: Instant) returns (res: Resolution)
    ensures Answers(table, now, res)
    ensures BestAnswers(table, now, res)
  {
    var rules := SortRoutingRules(table.rules);
    SameRules(rules, table.rules);
    for i := 0 to |rules|
      invariant forall j :: 0 <= j < i ==> !Matches(rules[j], now)
    {
      if Matches(rules[i], now) {
        assert Leads(table.rules, now, rules[i]);
        res := RuleAnswer(table, rules[i]);
        AnswerIsBest(table, now, res);
        return;
      }
    }
    if table.providers == map[] {
      res := NoProviders;
    } else if table.fallback in table.providers {
      res := Resolved(table.providers[table.fallback]);
    } else {
      var p := AnyOf(table.providers.Keys);
      res := Resolved(table.providers[p]);
    }
    AnswerIsBest(table, now, res);
  }

  lemma SameRules(a: seq<Rule>, b: seq<Rule>)
    requires multiset(a) == multiset(b)
    ensures forall r :: r in a <==> r in b
  {
    forall r ensures r in a <==> r in b {
      assert r in a <==> r in multiset(a);
      assert r in b <==> r in multiset(b);
    }
  }

  ghost predicate UniqueIds(rules: seq<Rule>) {
    forall a, b :: a in rules && b in rules && a.id == b.id ==> a == b
  }

  /** With unique ids there is one leading rule, and it precedes every other rule that applies. */
  lemma LeaderIsUnique(rules: seq<Rule>, now: Instant, r: Rule, x: Rule)
    requires UniqueIds(rules) && Leads(rules, now, r) && x in rules && Matches(x, now)
    ensures x == r || Precedes(r, x)
    ensures Leads(rules, now, x) ==> x == r
  {
  }

  /** "It returns an error only when NO providers are configured at all" leaves out one case: with unique ids,
      there is no provider to answer if and only if the leading rule's is missing or, when no rule applies,
      the table has none. */
  lemma ErrorsIff(table: Table, now: Instant, res: Resolution)
    requires UniqueIds(table.rules) && Answers(table, now, res)
    ensures !res.Resolved? <==>
      if SomeApplies(table.rules, now)
      then exists r :: Leads(table.rules, now, r) && r.providerId !in table.providers
      else table.providers == map[]
  {
    if SomeApplies(table.rules, now) {
      var a :| Leads(table.rules, now, a) && res == RuleAnswer(table, a);
      forall r | Leads(table.rules, now, r) ensures r == a {
        LeaderIsUnique(table.rules, now, a, r);
      }
    }
  }

  /** The order in which the table lists its rules does not matter. */
  lemma OrderIsIrrelevant(t1: Table, t2: Table, now: Instant, r1: Resolution, r2: Resolution)
    requires UniqueIds(t1.rules) && (forall r :: r in t1.rules <==> r in t2.rules)
    requires t1.providers == t2.providers && t1.fallback == t2.fallback
    requires Answers(t1, now, r1) && Answers(t2, now, r2)
    requires t1.fallback in t1.providers || t1.providers == map[] || SomeApplies(t1.rules, now)
    ensures r1 == r2
  {
    if SomeApplies(t1.rules, now) {
      var a :| Leads(t1.rules, now, a) && r1 == RuleAnswer(t1, a);
      var b :| Leads(t2.rules, now, b) && r2 == RuleAnswer(t2, b);
      LeadsElsewhere(t2.rules, t1.rules, now, b);
      LeaderIsUnique(t1.rules, now, a, b);
    }
  }

  lemma LeadsElsewhere(rules: seq<Rule>, others: seq<Rule>, now: Instant, r: Rule)
    requires Leads(rules, now, r) && forall x :: x in rules <==> x in others
    ensures Leads(others, now, r)
  {
  }

  /** Of two applicable rules of equal priority, one whose window lies strictly inside the other's always
      goes first, so the broader rule never decides. */
  lemma NarrowerWindowWins(rules: seq<Rule>, now: Instant, a: Rule, b: Rule)
    requires a in rules && b in rules && Matches(a, now) && Matches(b, now) && a.priority == b.priority
    requires WellFormed(a.start) && WellFormed(a.end) && WellFormed(b.start) && WellFormed(b.end)
    requires MinutesOf(a.start, a.end) < MinutesOf(b.start, b.end)
    ensures Precedes(a, b) && !Leads(rules, now, b)
  {
    WidthCountsMinutes(a.start, a.end);
    WidthCountsMinutes(b.start, b.end);
    SubsetSize(MinutesOf(a.start, a.end), MinutesOf(b.start, b.end));
  }

  lemma SubsetSize(s: set<int>, t: set<int>)
    requires s < t
    ensures |s| < |t|
  {
    assert t == s + (t - s);
    assert t - s != {};
  }
}
