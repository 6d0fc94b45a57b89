/** The lazily reset weekly bucket against a bucket reset eagerly at every cycle boundary. */
module GatewayWeek {
  import opened Billing
  import opened Cycles
  import opened Gateway
  import opened GatewayCalls
  import opened GatewayHistory
  import opened Ledger
  import opened Lifecycle
  import opened Sums

  // ----- what the run billed in a cycle

  ghost predicate IsAdmissionIn(e: Event, anchor: Instant, c: Instant) {
    e.Admission? && AlignedCycleStart(anchor, e.at) == c
  }

  ghost predicate IsBillingIn(e: Event, anchor: Instant, c: Instant) {
    e.Billing? && AlignedCycleStart(anchor, e.at) == c
  }

  /** Somebody was admitted in cycle c. */
  ghost predicate Opened(events: seq<Event>, anchor: Instant, c: Instant) {
    exists e :: e in events && IsAdmissionIn(e, anchor, c)
  }

  /** Tokens billed in cycle c. */
  ghost function Eager(events: seq<Event>, anchor: Instant, c: Instant): nat {
    if events == [] then 0
    else
      var last := events[|events| - 1];
      Eager(events[..|events| - 1], anchor, c) + if IsBillingIn(last, anchor, c) then last.amount else 0
  }

  /** Tokens billed in cycle c since the first admission in c. */
  ghost function Lazy(events: seq<Event>, anchor: Instant, c: Instant): nat {
    if events == [] then 0
    else
      var last, before := events[|events| - 1], events[..|events| - 1];
      Lazy(before, anchor, c) +
        if IsBillingIn(last, anchor, c) && Opened(before, anchor, c) then last.amount else 0
  }

  /** Tokens billed in cycle c by requests admitted in an earlier cycle. */
  ghost function FromEarlier(events: seq<Event>, anchor: Instant, c: Instant): nat {
    if events == [] then 0
    else
      var last := events[|events| - 1];
      FromEarlier(events[..|events| - 1], anchor, c) +
        if IsBillingIn(last, anchor, c) && AlignedCycleStart(anchor, last.admittedAt) < c then last.amount else 0
  }

  ghost predicate AdmittedAt(events: seq<Event>, t: Instant) {
    exists e :: e in events && e.Admission? && e.at == t
  }

  /** Every billing follows the admission of its request. */
  ghost predicate Grounded(events: seq<Event>) {
    events == [] ||
    var last, before := events[|events| - 1], events[..|events| - 1];
    Grounded(before) && (last.Billing? ==> AdmittedAt(before, last.admittedAt) && last.admittedAt <= last.at)
  }

  lemma OpenedSnoc(events: seq<Event>, e: Event, anchor: Instant, c: Instant)
    ensures Opened(events + [e], anchor, c) <==> Opened(events, anchor, c) || IsAdmissionIn(e, anchor, c)
  {
    if Opened(events, anchor, c) {
      var x :| x in events && IsAdmissionIn(x, anchor, c);
      assert x in events + [e];
    }
    if IsAdmissionIn(e, anchor, c) { assert e in events + [e]; }
  }

  lemma AdmittedSnoc(events: seq<Event>, e: Event, t: Instant)
    ensures AdmittedAt(events + [e], t) <==> AdmittedAt(events, t) || (e.Admission? && e.at == t)
  {
    if AdmittedAt(events, t) {
      var x :| x in events && x.Admission? && x.at == t;
      assert x in events + [e];
    }
    assert e in events + [e];
  }

  lemma GroundedSnoc(events: seq<Event>, e: Event)
    ensures Grounded(events + [e]) <==>
      Grounded(events) && (e.Billing? ==> AdmittedAt(events, e.admittedAt) && e.admittedAt <= e.at)
  {
    assert (events + [e])[..|events|] == events;
  }

  /** The eager count exceeds the lazy one by tokens of requests admitted in earlier cycles only. */
  lemma {:induction false} LazyAgainstEager(events: seq<Event>, anchor: Instant, c: Instant)
    requires Grounded(events)
    ensures Lazy(events, anchor, c) <= Eager(events, anchor, c)
    ensures Eager(events, anchor, c) - Lazy(events, anchor, c) <= FromEarlier(events, anchor, c)
  {
    if events != [] {
      var last, before := events[|events| - 1], events[..|events| - 1];
      LazyAgainstEager(before, anchor, c);
      if IsBillingIn(last, anchor, c) && !Opened(before, anchor, c) {
        AlignedIsMonotone(anchor, last.admittedAt, last.at);
        var a :| a in before && a.Admission? && a.at == last.admittedAt;
        assert !IsAdmissionIn(a, anchor, c);
      }
    }
  }

  // ----- which bills survive in the bucket

  /** The cycle of the last ticket a gate was passed with; start is the new user's. */
  ghost function Tag(events: seq<Event>, start: Instant): Instant {
    if events == [] then start
    else
      var last := events[|events| - 1];
      if last.Admission? then last.cycle else Tag(events[..|events| - 1], start)
  }

  /** Event i falls under a ticket of cycle c, and no later gate was passed with another cycle's ticket. */
  ghost predicate Stays(events: seq<Event>, i: nat, start: Instant, c: Instant)
    requires i < |events|
  {
    && Tag(events[..i], start) == c
    && forall j :: i < j < |events| && events[j].Admission? ==> events[j].cycle == c
  }

  /** Among the first n events, tokens billed in cycle c that stay. */
  ghost function Kept(events: seq<Event>, n: nat, start: Instant, anchor: Instant, c: Instant): nat
    requires n <= |events|
  {
    if n == 0 then 0
    else
      var e := events[n - 1];
      Kept(events, n - 1, start, anchor, c) +
        if IsBillingIn(e, anchor, c) && Stays(events, n - 1, start, c) then e.amount else 0
  }

  /** Among the first n events, tokens billed in the opened cycle c that do not stay. */
  ghost function Lost(events: seq<Event>, n: nat, start: Instant, anchor: Instant, c: Instant): nat
    requires n <= |events|
  {
    if n == 0 then 0
    else
      var e := events[n - 1];
      Lost(events, n - 1, start, anchor, c) +
        if IsBillingIn(e, anchor, c) && Opened(events[..n - 1], anchor, c) && !Stays(events, n - 1, start, c)
        then e.amount else 0
  }

  /** In order, and no ticket comes from the future. */
  ghost predicate Orderly(events: seq<Event>, anchor: Instant, now: Instant) {
    && (forall i, j :: 0 <= i < j < |events| ==> events[i].at <= events[j].at)
    && (forall i :: 0 <= i < |events| ==> events[i].at <= now)
    && (forall i :: 0 <= i < |events| && events[i].Admission? ==>
          events[i].cycle <= AlignedCycleStart(anchor, events[i].at))
  }

  lemma {:induction false} TagBounded(events: seq<Event>, anchor: Instant, now: Instant)
    requires Orderly(events, anchor, now)
    ensures Tag(events, anchor) <= AlignedCycleStart(anchor, now)
  {
    if events != [] {
      var n := |events| - 1;
      if events[n].Admission? { AlignedIsMonotone(anchor, events[n].at, now); }
      else { TagBounded(events[..n], anchor, now); }
    }
  }

  /** Where the tag is c, somebody was admitted with a ticket of c, unless nobody was admitted at all. */
  lemma {:induction false} TaggedBy(events: seq<Event>, start: Instant) returns (a: Option<Event>)
    ensures a.None? ==> forall e :: e in events ==> !e.Admission?
    ensures a.Some? ==> a.value in events && a.value.Admission? && a.value.cycle == Tag(events, start)
  {
    if events == [] { return None; }
    var n := |events| - 1;
    if events[n].Admission? { return Some(events[n]); }
    a := TaggedBy(events[..n], start);
    assert events == events[..n] + [events[n]];
  }

  lemma {:induction false} GroundedAt(events: seq<Event>, i: nat)
    requires Grounded(events) && i < |events| && events[i].Billing?
    ensures AdmittedAt(events[..i], events[i].admittedAt)
  {
    var n := |events| - 1;
    if i < n {
      GroundedAt(events[..n], i);
      assert events[..n][..i] == events[..i];
    }
  }

  /** What stays in the bucket of cycle c was billed after c had been opened. */
  lemma KeptIsOpened(events: seq<Event>, i: nat, anchor: Instant, now: Instant, c: Instant)
    requires Grounded(events) && Orderly(events, anchor, now) && i < |events|
    requires IsBillingIn(events[i], anchor, c) && Tag(events[..i], anchor) == c
    ensures Opened(events[..i], anchor, c)
  {
    GroundedAt(events, i);
    var a := TaggedBy(events[..i], anchor);
    if a.Some? {
      AlignedIsMonotone(anchor, a.value.at, events[i].at);
      assert IsAdmissionIn(a.value, anchor, c);
    }
  }

  lemma {:induction false} KeptAndLost(events: seq<Event>, n: nat, anchor: Instant, now: Instant, c: Instant)
    requires Grounded(events) && Orderly(events, anchor, now) && n <= |events|
    ensures Kept(events, n, anchor, anchor, c) + Lost(events, n, anchor, anchor, c) == Lazy(events[..n], anchor, c)
  {
    if n > 0 {
      KeptAndLost(events, n - 1, anchor, now, c);
      assert events[..n][..n - 1] == events[..n - 1];
      if IsBillingIn(events[n - 1], anchor, c) && Stays(events, n - 1, anchor, c) {
        KeptIsOpened(events, n - 1, anchor, now, c);
      }
    }
  }

  /** Event i is a positive bill of cycle c after its first admission. */
  ghost predicate PositiveIn(events: seq<Event>, i: nat, anchor: Instant, c: Instant)
    requires i < |events|
  {
    IsBillingIn(events[i], anchor, c) && events[i].amount > 0 && Opened(events[..i], anchor, c)
  }

  /** Every positive bill of the opened cycle c stays. */
  ghost predicate NothingLost(events: seq<Event>, anchor: Instant, c: Instant) {
    forall i :: 0 <= i < |events| && PositiveIn(events, i, anchor, c) ==> Stays(events, i, anchor, c)
  }

  lemma {:induction false} LostNothingIff(events: seq<Event>, n: nat, anchor: Instant, c: Instant)
    requires n <= |events|
    ensures Lost(events, n, anchor, anchor, c) == 0 <==>
      forall i :: 0 <= i < n && PositiveIn(events, i, anchor, c) ==> Stays(events, i, anchor, c)
  {
    if n > 0 { LostNothingIff(events, n - 1, anchor, c); }
  }

  // ----- one more event

  lemma StaysSnoc(events: seq<Event>, e: Event, i: nat, start: Instant, c: Instant)
    requires i < |events|
    ensures Stays(events + [e], i, start, c) <==>
      Stays(events, i, start, c) && (e.Admission? ==> e.cycle == c)
  {
    var after := events + [e];
    assert after[..i] == events[..i];
    if Stays(after, i, start, c) {
      assert after[|events|] == e;
      forall j | i < j < |events| && events[j].Admission? ensures events[j].cycle == c {
        assert after[j] == events[j];
      }
    }
  }

  lemma {:induction false} KeptSnoc(
    events: seq<Event>, e: Event, n: nat, start: Instant, anchor: Instant, c: Instant)
    requires n <= |events|
    ensures Kept(events + [e], n, start, anchor, c) ==
      if e.Admission? && e.cycle != c then 0 else Kept(events, n, start, anchor, c)
  {
    if n > 0 {
      KeptSnoc(events, e, n - 1, start, anchor, c);
      StaysSnoc(events, e, n - 1, start, c);
    }
  }

  lemma KeptAll(events: seq<Event>, e: Event, start: Instant, anchor: Instant, c: Instant)
    ensures
      var after := events + [e];
      && Tag(after, start) == (if e.Admission? then e.cycle else Tag(events, start))
      && Kept(after, |after|, start, anchor, c) ==
           (if e.Admission? && e.cycle != c then 0 else Kept(events, |events|, start, anchor, c))
           + (if IsBillingIn(e, anchor, c) && Tag(events, start) == c then e.amount else 0)
  {
    assert (events + [e])[..|events|] == events;
    KeptSnoc(events, e, |events|, start, anchor, c);
  }

  /** A bill that stays is in the bucket of the present tag. */
  lemma {:induction false} StaysUnderTag(events: seq<Event>, i: nat, start: Instant, c: Instant)
    requires i < |events| && events[i].Billing? && Stays(events, i, start, c)
    ensures Tag(events, start) == c
  {
    var n := |events| - 1;
    if i < n && !events[n].Admission? {
      assert events == events[..n] + [events[n]];
      StaysSnoc(events[..n], events[n], i, start, c);
      StaysUnderTag(events[..n], i, start, c);
    }
  }

  lemma {:induction false} KeptUnderOtherTag(events: seq<Event>, n: nat, start: Instant, anchor: Instant, c: Instant)
    requires n <= |events| && Tag(events, start) != c
    ensures Kept(events, n, start, anchor, c) == 0
  {
    if n > 0 {
      KeptUnderOtherTag(events, n - 1, start, anchor, c);
      if events[n - 1].Billing? && Stays(events, n - 1, start, c) { StaysUnderTag(events, n - 1, start, c); }
    }
  }

  // ----- the invariant

  /** Every admitted request has its admission on record. */
  ghost predicate OnRecord(s: State) {
    && Grounded(s.events)
    && forall r :: r in s.requests && s.requests[r].deducted.Some? ==>
         AdmittedAt(s.events, s.requests[r].admittedAt) && s.requests[r].admittedAt <= s.clock
  }

  /** No request carries a ticket of a cycle to come. */
  ghost predicate TicketsPast(s: State, anchor: Instant) {
    forall r :: r in s.requests && s.requests[r].phase.GateRead? ==>
      s.requests[r].phase.ticket.cycle <= AlignedCycleStart(anchor, s.clock)
  }

  /** The stored cycle is the tag, and the bucket of the current cycle holds what stays in it. */
  ghost predicate BucketTracksTag(s: State, anchor: Instant) {
    var now := AlignedCycleStart(anchor, s.clock);
    && s.row.weekStart == Some(anchor)
    && Orderly(s.events, anchor, s.clock)
    && s.row.weekCycleStart == Tag(s.events, anchor)
    && (s.row.weekCycleStart == now ==> s.row.weekUsed == Kept(s.events, |s.events|, anchor, anchor, now))
  }

  ghost predicate WeekInv(s: State, anchor: Instant) {
    Ok(s) && OnRecord(s) && TicketsPast(s, anchor) && BucketTracksTag(s, anchor)
  }

  /** No step moves the anchor. */
  ghost predicate KeepsAnchor(a: Action) {
    a.Do? ==> !a.op.TokensReset? && !a.op.AnchorMove? && !a.op.AnchorReset?
  }

  lemma OrderlySnoc(events: seq<Event>, e: Event, anchor: Instant)
    requires Orderly(events, anchor, e.at)
    requires e.Admission? ==> e.cycle <= AlignedCycleStart(anchor, e.at)
    ensures Orderly(events + [e], anchor, e.at)
  {
  }

  lemma GateOnWeek(s: State, r: nat, q: Request, t: Ticket, anchor: Instant)
    requires BucketTracksTag(s, anchor)
    requires GateOpen(s.row, Calls(q.ctx.multiplier), t) && t.cycle <= AlignedCycleStart(anchor, s.clock)
    ensures BucketTracksTag(PassGate(s, r, q, t), anchor)
  {
    var now := AlignedCycleStart(anchor, s.clock);
    var e := AdmissionOf(s, Calls(q.ctx.multiplier), t);
    assert PassGate(s, r, q, t).events == s.events + [e];
    OrderlySnoc(s.events, e, anchor);
    KeptAll(s.events, e, anchor, anchor, now);
    if s.row.weekCycleStart != now { KeptUnderOtherTag(s.events, |s.events|, anchor, anchor, now); }
  }

  lemma BillOnWeek(s: State, after: State, e: Event, anchor: Instant)
    requires BucketTracksTag(s, anchor) && e.Billing? && e.at == s.clock == after.clock
    requires after.events == s.events + [e] && after.row.weekUsed == s.row.weekUsed + e.amount
    requires after.row.weekStart == s.row.weekStart && after.row.weekCycleStart == s.row.weekCycleStart
    ensures BucketTracksTag(after, anchor)
  {
    OrderlySnoc(s.events, e, anchor);
    KeptAll(s.events, e, anchor, anchor, AlignedCycleStart(anchor, s.clock));
  }

  lemma ExecuteOnWeek(s: State, r: nat, q: Request, todo: seq<Stmt>, anchor: Instant)
    requires BucketTracksTag(s, anchor) && q.phase == Closing(todo) && todo != []
    ensures BucketTracksTag(Execute(s, r, q, todo), anchor)
  {
    var stmt, after := todo[0], Execute(s, r, q, todo);
    if stmt.BillTokens? {
      var amount := Charged(Billed(stmt.prompt, stmt.completion, q.ctx.multiplier));
      BillMoves(s.row, Billed(stmt.prompt, stmt.completion, q.ctx.multiplier));
      BillOnWeek(s, after, Billing(s.clock, amount, q.admittedAt), anchor);
    } else {
      assert after.events == s.events && after.clock == s.clock;
      assert after.row.weekUsed == s.row.weekUsed && after.row.weekStart == s.row.weekStart;
      assert after.row.weekCycleStart == s.row.weekCycleStart;
    }
  }

  lemma AdvanceOnWeek(s: State, r: nat, move: Move, anchor: Instant)
    requires WeekInv(s, anchor) && r in s.requests
    ensures BucketTracksTag(Advance(s, r, s.requests[r], move), anchor)
  {
    var q := s.requests[r];
    match (move, q.phase)
    case (ExecGate, GateRead(t)) =>
      if GateOpen(s.row, Calls(q.ctx.multiplier), t) { GateOnWeek(s, r, q, t, anchor); }
      else { QuietMove(s, r, q, move); }
    case (RunStmt, Closing(todo)) =>
      if todo != [] { ExecuteOnWeek(s, r, q, todo, anchor); } else { QuietMove(s, r, q, move); }
    case _ => QuietMove(s, r, q, move);
  }

  lemma AdminOnWeek(s: State, op: Op, anchor: Instant)
    requires BucketTracksTag(s, anchor) && KeepsAnchor(Do(op))
    ensures BucketTracksTag(Admin(s, op), anchor)
  {
    var e := Reset(s.clock, op);
    OrderlySnoc(s.events, e, anchor);
    KeptAll(s.events, e, anchor, anchor, AlignedCycleStart(anchor, s.clock));
  }

  lemma TickOnWeek(s: State, to: Instant, anchor: Instant)
    requires BucketTracksTag(s, anchor)
    ensures BucketTracksTag(Step(s, Tick(to)), anchor)
  {
    if to >= s.clock {
      AlignedIsMonotone(anchor, s.clock, to);
      TagBounded(s.events, anchor, s.clock);
    }
  }

  // ----- the record

  lemma RecordExtends(s: State, events: seq<Event>, e: Event)
    requires OnRecord(s) && events == s.events + [e]
    ensures forall t :: AdmittedAt(s.events, t) ==> AdmittedAt(events, t)
  {
    forall t | AdmittedAt(s.events, t) ensures AdmittedAt(events, t) { AdmittedSnoc(s.events, e, t); }
  }

  /** What a move does to the record and to the actor's part of it. */
  ghost predicate RecordEffect(s: State, after: State, q': Request, anchor: Instant) {
    && after.clock == s.clock
    && Grounded(after.events)
    && (forall t :: AdmittedAt(s.events, t) ==> AdmittedAt(after.events, t))
    && (q'.deducted.Some? ==> AdmittedAt(after.events, q'.admittedAt) && q'.admittedAt <= s.clock)
    && (q'.phase.GateRead? ==> q'.phase.ticket.cycle <= AlignedCycleStart(anchor, s.clock))
  }

  lemma GateOnRecord(s: State, r: nat, q: Request, t: Ticket, anchor: Instant)
    requires OnRecord(s) && GateOpen(s.row, Calls(q.ctx.multiplier), t)
    ensures RecordEffect(s, PassGate(s, r, q, t), PassGate(s, r, q, t).requests[r], anchor)
  {
    var e := AdmissionOf(s, Calls(q.ctx.multiplier), t);
    GroundedSnoc(s.events, e);
    RecordExtends(s, s.events + [e], e);
    AdmittedSnoc(s.events, e, s.clock);
  }

  lemma ExecuteOnRecord(s: State, r: nat, q: Request, todo: seq<Stmt>, anchor: Instant)
    requires RequestOk(s, q) && OnRecord(s) && q.phase == Closing(todo) && todo != []
    requires q.deducted.Some? ==> AdmittedAt(s.events, q.admittedAt) && q.admittedAt <= s.clock
    ensures RecordEffect(s, Execute(s, r, q, todo), Execute(s, r, q, todo).requests[r], anchor)
  {
    assert Bills(todo) == (if todo[0].BillTokens? then 1 else 0) + Bills(todo[1..]);
    if todo[0].BillTokens? {
      var amount := Charged(Billed(todo[0].prompt, todo[0].completion, q.ctx.multiplier));
      var e := Billing(s.clock, amount, q.admittedAt);
      GroundedSnoc(s.events, e);
      RecordExtends(s, s.events + [e], e);
    }
  }

  lemma ReadOnRecord(s: State, r: nat, q: Request, move: Move, anchor: Instant)
    requires r in s.requests && s.requests[r] == q
    requires s.row.weekStart == Some(anchor)
    requires !(move.RunStmt? && q.phase.Closing? && q.phase.todo != [])
    requires !(move.ExecGate? && q.phase.GateRead? && GateOpen(s.row, Calls(q.ctx.multiplier), q.phase.ticket))
    ensures
      var q' := Advance(s, r, q, move).requests[r];
      q'.phase.GateRead? ==> q' == q || q'.phase.ticket.cycle == AlignedCycleStart(anchor, s.clock)
  {
  }

  lemma AdvanceOnRecord(s: State, r: nat, move: Move, anchor: Instant)
    requires Ok(s) && OnRecord(s) && TicketsPast(s, anchor) && r in s.requests && s.row.weekStart == Some(anchor)
    ensures
      var after := Advance(s, r, s.requests[r], move);
      r in after.requests && RecordEffect(s, after, after.requests[r], anchor)
  {
    var q := s.requests[r];
    AdvanceWritesActor(s, r, q, move);
    match (move, q.phase)
    case (ExecGate, GateRead(t)) =>
      if GateOpen(s.row, Calls(q.ctx.multiplier), t) { GateOnRecord(s, r, q, t, anchor); }
      else { QuietMove(s, r, q, move); ReadOnRecord(s, r, q, move, anchor); }
    case (RunStmt, Closing(todo)) =>
      if todo != [] { ExecuteOnRecord(s, r, q, todo, anchor); }
      else { QuietMove(s, r, q, move); ReadOnRecord(s, r, q, move, anchor); }
    case _ => QuietMove(s, r, q, move); ReadOnRecord(s, r, q, move, anchor);
  }

  lemma EffectKeepsRecord(s: State, after: State, r: nat, anchor: Instant)
    requires OnRecord(s) && TicketsPast(s, anchor) && r in s.requests && r in after.requests
    requires after.requests == s.requests || after.requests == s.requests[r := after.requests[r]]
    requires RecordEffect(s, after, after.requests[r], anchor)
    ensures OnRecord(after) && TicketsPast(after, anchor)
  {
  }

  lemma AdminOnRecord(s: State, op: Op, anchor: Instant)
    requires OnRecord(s) && TicketsPast(s, anchor)
    ensures OnRecord(Admin(s, op)) && TicketsPast(Admin(s, op), anchor)
  {
    var e := Reset(s.clock, op);
    GroundedSnoc(s.events, e);
    RecordExtends(s, s.events + [e], e);
  }

  lemma StepOnRecord(s: State, a: Action, anchor: Instant)
    requires Ok(s) && OnRecord(s) && TicketsPast(s, anchor) && s.row.weekStart == Some(anchor)
    ensures OnRecord(Step(s, a)) && TicketsPast(Step(s, a), anchor)
  {
    match a
    case Act(r, move) =>
      if r in s.requests {
        AdvanceOnRecord(s, r, move, anchor);
        AdvanceWritesActor(s, r, s.requests[r], move);
        EffectKeepsRecord(s, Step(s, a), r, anchor);
      }
    case Do(op) => AdminOnRecord(s, op, anchor);
    case Tick(to) => if to >= s.clock { AlignedIsMonotone(anchor, s.clock, to); }
    case Arrive(_, _, _) =>
  }

  lemma StepWeek(s: State, a: Action, anchor: Instant)
    requires WeekInv(s, anchor) && KeepsAnchor(a)
    ensures WeekInv(Step(s, a), anchor)
  {
    StepOk(s, a);
    StepOnRecord(s, a, anchor);
    match a
    case Act(r, move) => if r in s.requests { AdvanceOnWeek(s, r, move, anchor); }
    case Tick(to) => TickOnWeek(s, to, anchor);
    case Do(op) => AdminOnWeek(s, op, anchor);
    case Arrive(_, _, _) =>
  }

  lemma {:induction false} RunWeek(s: State, schedule: seq<Action>, anchor: Instant)
    requires WeekInv(s, anchor) && forall a :: a in schedule ==> KeepsAnchor(a)
    ensures WeekInv(Run(s, schedule), anchor)
    decreases |schedule|
  {
    if schedule != [] {
      StepWeek(s, schedule[0], anchor);
      RunWeek(Step(s, schedule[0]), schedule[1..], anchor);
    }
  }

  /** For a fresh user whose anchor stays, in every schedule: the weekly usage the gate sees never exceeds the
      tokens billed in the current cycle since the first admission in it, which never exceed the tokens billed
      in the cycle. The first gap is exactly the bills lost under, or before, another cycle's ticket, so there
      is none if and only if every positive bill stays; the second is due to requests admitted earlier. */
  lemma LazyWeek(user: int, row: Row, now: Instant, schedule: seq<Action>)
    requires Fresh(row, now) && (forall a :: a in schedule ==> KeepsAnchor(a))
    ensures
      var s := Run(Init(user, row, now), schedule);
      var cycle := AlignedCycleStart(now, s.clock);
      var seen := VisibleWeek(s.row, GateCycle(s.row.weekStart, s.clock));
      && seen + Lost(s.events, |s.events|, now, now, cycle) == Lazy(s.events, now, cycle)
      && seen <= Lazy(s.events, now, cycle) <= Eager(s.events, now, cycle)
      && (seen == Lazy(s.events, now, cycle) <==> NothingLost(s.events, now, cycle))
      && Eager(s.events, now, cycle) - Lazy(s.events, now, cycle) <= FromEarlier(s.events, now, cycle)
  {
    assert TokensUsed(row, Week) == 0;
    RunWeek(Init(user, row, now), schedule, now);
    var s := Run(Init(user, row, now), schedule);
    var cycle := AlignedCycleStart(now, s.clock);
    LazyAgainstEager(s.events, now, cycle);
    KeptAndLost(s.events, |s.events|, now, s.clock, cycle);
    assert s.events[..|s.events|] == s.events;
    LostNothingIff(s.events, |s.events|, now, cycle);
    if s.row.weekCycleStart != cycle { KeptUnderOtherTag(s.events, |s.events|, now, now, cycle); }
  }

  /** Every gate was passed with a ticket of the cycle in which it was passed. */
  ghost predicate CurrentTickets(events: seq<Event>, anchor: Instant) {
    forall i :: 0 <= i < |events| && events[i].Admission? ==>
      events[i].cycle == AlignedCycleStart(anchor, events[i].at)
  }

  lemma PrefixIsOrderly(events: seq<Event>, n: nat, anchor: Instant, now: Instant)
    requires Orderly(events, anchor, now) && CurrentTickets(events, anchor) && n <= |events|
    ensures Orderly(events[..n], anchor, now) && CurrentTickets(events[..n], anchor)
    ensures n < |events| ==> Orderly(events[..n], anchor, events[n].at)
  {
  }

  lemma {:induction false} TagOfOpened(events: seq<Event>, anchor: Instant, now: Instant, c: Instant)
    requires Orderly(events, anchor, now) && CurrentTickets(events, anchor)
    requires Opened(events, anchor, c) && c == AlignedCycleStart(anchor, now)
    ensures Tag(events, anchor) == c
  {
    var n := |events| - 1;
    var x :| x in events && IsAdmissionIn(x, anchor, c);
    if events[n].Admission? {
      var i :| 0 <= i < |events| && events[i] == x;
      AlignedIsMonotone(anchor, x.at, events[n].at);
      AlignedIsMonotone(anchor, events[n].at, now);
    } else {
      assert events == events[..n] + [events[n]];
      PrefixIsOrderly(events, n, anchor, now);
      OpenedSnoc(events[..n], events[n], anchor, c);
      TagOfOpened(events[..n], anchor, now, c);
    }
  }

  lemma CurrentTicketStays(events: seq<Event>, i: nat, anchor: Instant, now: Instant)
    requires Orderly(events, anchor, now) && CurrentTickets(events, anchor) && i < |events|
    requires IsBillingIn(events[i], anchor, AlignedCycleStart(anchor, now))
    requires Opened(events[..i], anchor, AlignedCycleStart(anchor, now))
    ensures Stays(events, i, anchor, AlignedCycleStart(anchor, now))
  {
    var c := AlignedCycleStart(anchor, now);
    PrefixIsOrderly(events, i, anchor, now);
    TagOfOpened(events[..i], anchor, events[i].at, c);
    forall j | i < j < |events| && events[j].Admission? ensures events[j].cycle == c {
      AlignedIsMonotone(anchor, events[i].at, events[j].at);
      AlignedIsMonotone(anchor, events[j].at, now);
    }
  }

  /** While every gate uses a ticket of its own cycle, the gate sees all that was billed since the first
      admission in the cycle. */
  lemma LazyWeekOfCurrentTickets(user: int, row: Row, now: Instant, schedule: seq<Action>)
    requires Fresh(row, now) && (forall a :: a in schedule ==> KeepsAnchor(a))
    requires CurrentTickets(Run(Init(user, row, now), schedule).events, now)
    ensures
      var s := Run(Init(user, row, now), schedule);
      VisibleWeek(s.row, GateCycle(s.row.weekStart, s.clock)) == Lazy(s.events, now, AlignedCycleStart(now, s.clock))
  {
    LazyWeek(user, row, now, schedule);
    assert TokensUsed(row, Week) == 0;
    RunWeek(Init(user, row, now), schedule, now);
    var s := Run(Init(user, row, now), schedule);
    var c := AlignedCycleStart(now, s.clock);
    forall i | 0 <= i < |s.events| && IsBillingIn(s.events[i], now, c) && Opened(s.events[..i], now, c)
      ensures Stays(s.events, i, now, c)
    {
      CurrentTicketStays(s.events, i, now, s.clock);
    }
  }

  // ----- a gate passed with an old ticket

  lemma ServeOneToken(s: State, r: nat)
    requires r in s.requests && s.requests[r].phase.Upstream? && s.requests[r].kind.Sync?
    requires s.requests[r].ctx.multiplier == 1.0
    ensures
      var after := Run(s, Serve(r, 1));
      && after.row == AddTokens(s.row, 1)
      && after.events == s.events + [Billing(s.clock, 1, s.requests[r].admittedAt)]
      && after.clock == s.clock
      && (forall x :: x in s.requests && x != r ==> x in after.requests && after.requests[x] == s.requests[x])
  {
    BilledOne();
    ServeEffect(s, r, 1);
  }

  lemma BilledOne()
    ensures Billed(1, 0, 1.0) == 1
  {
    assert Scaled(1, 0, 1.0) == 1.0;
    assert (-1.0).Floor == -1;
  }

  ghost predicate Unlimited(row: Row) {
    (forall w: CallCounter :: CallsLimit(row, w) == 0) && (forall b: Bucket :: TokensLimit(row, b) == 0)
  }

  lemma UnlimitedIsOpen(row: Row, calls: int, t: Ticket)
    requires Unlimited(row)
    ensures GateOpen(row, calls, t) && Unlimited(Gate(row, calls, t))
  {
    assert CallsLimit(row, FiveHourCalls) == CallsLimit(row, TotalCalls) == 0;
    assert TokensLimit(row, FiveHour) == TokensLimit(row, Week) == TokensLimit(row, Month) == 0;
  }

  lemma AddKeepsUnlimited(row: Row, delta: int)
    requires Unlimited(row)
    ensures Unlimited(AddTokens(row, delta))
  {
    assert CallsLimit(row, FiveHourCalls) == CallsLimit(row, TotalCalls) == 0;
    assert TokensLimit(row, FiveHour) == TokensLimit(row, Week) == TokensLimit(row, Month) == 0;
  }

  /** Request a has read its ticket at now; a week later it is still about to use it. */
  ghost predicate OldTicket(s: State, now: Instant, a: nat) {
    && Unlimited(s.row) && s.row.weekStart == Some(now)
    && s.clock == now + WEEK
    && a in s.requests && s.requests[a].phase == GateRead(Ticket(now, now - MONTH, now))
  }

  lemma AdmittedInNewWeek(s2: State, now: Instant, a: nat, b: nat)
    requires a != b && b !in s2.requests && OldTicket(s2, now, a) && s2.events == []
    ensures
      var s3 := Run(s2, Admit(b));
      && OldTicket(s3, now, a) && s3.row.weekCycleStart == now + WEEK
      && b in s3.requests && s3.requests[b] == Admitted(s2)
      && |s3.events| == 1 && s3.events[0].Admission? && s3.events[0].at == now + WEEK
  {
    CeilOne();
    UnlimitedIsOpen(s2.row, Calls(1.0), TicketAt(s2.row, s2.clock));
    AdmitEffect(s2, b);
  }

  lemma BilledInNewWeek(s2: State, now: Instant, a: nat, b: nat)
    requires a != b && b !in s2.requests && OldTicket(s2, now, a) && s2.events == []
    ensures
      var s4 := Run(Run(s2, Admit(b)), Serve(b, 1));
      && OldTicket(s4, now, a) && s4.row.weekCycleStart == now + WEEK
      && |s4.events| == 2 && s4.events[1] == Billing(now + WEEK, 1, now + WEEK)
      && s4.events[0].Admission? && s4.events[0].at == now + WEEK
  {
    AdmittedInNewWeek(s2, now, a, b);
    var s3 := Run(s2, Admit(b));
    ServeOneToken(s3, b);
    AddKeepsUnlimited(s3.row, 1);
  }

  lemma OldTicketWipes(s4: State, now: Instant, a: nat)
    requires OldTicket(s4, now, a) && s4.row.weekCycleStart == now + WEEK
    ensures
      var s := Run(s4, [Act(a, ExecGate)]);
      && VisibleWeek(s.row, GateCycle(s.row.weekStart, s.clock)) == 0
      && s.clock == now + WEEK
      && |s.events| == |s4.events| + 1 && s.events == s4.events + [s.events[|s4.events|]]
      && s.events[|s4.events|].Admission?
  {
    RunOne(s4, Act(a, ExecGate));
    UnlimitedIsOpen(s4.row, Calls(s4.requests[a].ctx.multiplier), Ticket(now, now - MONTH, now));
  }

  /** The gate's own claim that an old read is harmless fails across a cycle boundary: a token billed in the
      current cycle, after its first admission, is gone. */
  lemma StaleGateWipesWeek(user: int, row: Row, now: Instant, a: nat, b: nat) returns (schedule: seq<Action>)
    requires Fresh(row, now) && Unlimited(row) && a != b
    ensures forall x :: x in schedule ==> KeepsAnchor(x)
    ensures
      var s := Run(Init(user, row, now), schedule);
      && VisibleWeek(s.row, GateCycle(s.row.weekStart, s.clock)) == 0
      && Lazy(s.events, now, AlignedCycleStart(now, s.clock)) == 1
  {
    var s0 := Init(user, row, now);
    schedule := Enter(a) + ([Tick(now + WEEK)] + (Admit(b) + (Serve(b, 1) + [Act(a, ExecGate)])));
    RunPieces(s0, Enter(a), [Tick(now + WEEK)], Admit(b), Serve(b, 1), [Act(a, ExecGate)]);
    EnterEffect(s0, a);
    RunOne(Run(s0, Enter(a)), Tick(now + WEEK));
    var s2 := Run(Run(s0, Enter(a)), [Tick(now + WEEK)]);
    BilledInNewWeek(s2, now, a, b);
    var s4 := Run(Run(s2, Admit(b)), Serve(b, 1));
    OldTicketWipes(s4, now, a);
    OneTokenInOpenWeek(s4.events, Run(s0, schedule).events[2], now, now + WEEK);
  }

  // ----- an exhausted week ends

  /** Some limit other than the week's is reached; the month's counts while its month lasts. */
  ghost predicate OtherLimitReached(row: Row, now: Instant) {
    || (row.calls5hLimit != 0 && row.calls5hUsed + 1 > row.calls5hLimit)
    || (row.callsTotalLimit != 0 && row.callsTotalUsed + 1 > row.callsTotalLimit)
    || (row.tokens5hLimit != 0 && row.tokens5hUsed >= row.tokens5hLimit)
    || (row.monthLimit != 0 && row.monthLimit <= if row.monthStart >= now - 2592000 then row.monthUsed else 0)
  }

  /** However much of the week is used: once the clock is in another cycle than the stored one, the next request
      goes upstream if and only if no other limit is reached, and then the new week's bucket is empty. */
  lemma NewCycleReopens(s: State, anchor: Instant, to: Instant, r: nat)
    requires r !in s.requests && s.clock <= to && s.row.weekStart == Some(anchor) && s.row.weekLimit >= 0
    requires s.row.weekCycleStart != AlignedCycleStart(anchor, to)
    ensures
      var after := Run(s, [Tick(to)] + Admit(r));
      && r in after.requests
      && (after.requests[r].phase.Upstream? <==> !OtherLimitReached(s.row, to))
      && (!OtherLimitReached(s.row, to) ==>
            after.row.weekUsed == 0 && after.row.weekCycleStart == AlignedCycleStart(anchor, to))
  {
    RunAppend(s, [Tick(to)], Admit(r));
    RunOne(s, Tick(to));
    CeilOne();
    AdmitEffect(s.(clock := to), r);
    GateRefusedIff(s.row, 1, TicketAt(s.row, to));
  }

  lemma LazySnoc(events: seq<Event>, e: Event, anchor: Instant, c: Instant)
    ensures Lazy(events + [e], anchor, c) ==
      Lazy(events, anchor, c) + if IsBillingIn(e, anchor, c) && Opened(events, anchor, c) then e.amount else 0
  {
    assert (events + [e])[..|events|] == events;
  }

  lemma OneTokenInOpenWeek(events: seq<Event>, last: Event, anchor: Instant, t: Instant)
    requires |events| == 2 && events[1] == Billing(t, 1, t)
    requires events[0].Admission? && events[0].at == t && last.Admission?
    ensures Lazy(events + [last], anchor, AlignedCycleStart(anchor, t)) == 1
  {
    var c, first := AlignedCycleStart(anchor, t), events[0];
    assert events == ([] + [first]) + [Billing(t, 1, t)];
    LazySnoc(events, last, anchor, c);
    LazySnoc([] + [first], Billing(t, 1, t), anchor, c);
    LazySnoc([], first, anchor, c);
    OpenedSnoc([], first, anchor, c);
    assert IsAdmissionIn(first, anchor, c) && IsBillingIn(Billing(t, 1, t), anchor, c);
  }
}
