/** The in-flight limiter in every interleaving of its atomic operations. */
module GatewayLimiter {
  import opened Gateway
  import opened Ledger
  import opened Lifecycle
  import opened Sums

  ghost predicate CapsWithin(schedule: seq<Action>, lo: int, hi: int) {
    forall a :: a in schedule && a.Arrive? ==> lo <= a.max <= hi
  }

  ghost predicate RequestCapsWithin(s: State, lo: int, hi: int) {
    forall r :: r in s.requests ==> lo <= s.requests[r].max <= hi
  }

  /** The counter is what the requests added to it, less the decrements of requests that added nothing. */
  ghost predicate CounterExact(s: State) {
    match s.counter
    case None => Total(s, Occupies) == 0
    case Some(n) => n == Total(s, Occupies) - s.phantoms
  }

  ghost predicate LimiterInv(s: State, cap: int) {
    && Ok(s)
    && CounterExact(s)
    && RequestCapsWithin(s, 0, cap)
    && Total(s, Holds) <= cap + s.phantoms
  }

  lemma OccupiersHoldOrAwait(s: State)
    requires Ok(s)
    ensures Total(s, Holds) + Total(s, Awaits) == Total(s, Occupies)
  {
    SumAdd(s.requests, Weigh(Holds), Weigh(Awaits), Weigh(Occupies));
  }

  lemma AwaitsNonneg(s: State)
    ensures Total(s, Awaits) >= 0
  {
    SumZero(s.requests, _ => 0);
    SumLe(s.requests, _ => 0, _ => 0, Weigh(Awaits));
  }

  /** The counter with the phantom releases added back. */
  ghost function Level(s: State): int {
    (if s.counter.Some? then s.counter.value else 0) + s.phantoms
  }

  /** The level moves with the actor's own contribution, and only AddInt64 can grant a slot. */
  ghost predicate CounterEffect(s: State, after: State, q: Request, q': Request, move: Move) {
    && Level(after) - Level(s) == WeightOf(Occupies, q') - WeightOf(Occupies, q)
    && after.phantoms >= s.phantoms
    && (!move.AddOne? ==> WeightOf(Holds, q') <= WeightOf(Holds, q))
    && (!move.AddOne? && !move.Release? && q.max >= 1 ==>
          WeightOf(Holds, q') == WeightOf(Holds, q) && WeightOf(Attempted, q') == WeightOf(Attempted, q))
    && (move.AddOne? && q' != q ==>
          && after.counter.Some? && q' == q.(phase := Added(after.counter.value)) && q.phase.Loaded?
          && after.phantoms == s.phantoms)
  }

  lemma AdvanceOnCounter(s: State, r: nat, q: Request, move: Move)
    requires r in s.requests && s.requests[r] == q && RequestOk(s, q)
    requires s.counter.None? ==> s.phantoms == 0
    ensures CounterEffect(s, Advance(s, r, q, move), q, Advance(s, r, q, move).requests[r], move)
  {
    if IsLedgerMove(move) { LedgerMoveFrame(s, r, q, move); }
  }

  lemma CounterExactIff(s: State)
    requires s.counter.None? ==> s.phantoms == 0
    ensures CounterExact(s) <==> Level(s) == Total(s, Occupies)
  {
  }

  lemma ActCounterExact(s: State, r: nat, move: Move)
    requires Ok(s) && CounterExact(s) && r in s.requests
    ensures Level(Advance(s, r, s.requests[r], move)) == Total(Advance(s, r, s.requests[r], move), Occupies)
  {
    ActTotal(s, r, move, Occupies);
    AdvanceOnCounter(s, r, s.requests[r], move);
  }

  lemma StepCounterExact(s: State, a: Action)
    requires Ok(s) && CounterExact(s)
    ensures CounterExact(Step(s, a))
  {
    StepOk(s, a);
    CounterExactIff(Step(s, a));
    match a
    case Act(r, move) => if r in s.requests { ActCounterExact(s, r, move); }
    case Arrive(_, _, _) => StepTotal(s, a, Occupies);
    case _ =>
  }

  lemma StepCaps(s: State, a: Action, lo: int, hi: int)
    requires RequestCapsWithin(s, lo, hi)
    requires a.Arrive? ==> lo <= a.max <= hi
    ensures RequestCapsWithin(Step(s, a), lo, hi)
  {
    StepWritesActor(s, a);
  }

  lemma EffectKeepsHolds(s: State, after: State, r: nat, move: Move, cap: int)
    requires LimiterInv(s, cap) && CounterExact(after) && Ok(after) && r in s.requests && r in after.requests
    requires CounterEffect(s, after, s.requests[r], after.requests[r], move)
    requires Total(after, Holds)
      == Total(s, Holds) + WeightOf(Holds, after.requests[r]) - WeightOf(Holds, s.requests[r])
    ensures Total(after, Holds) <= cap + after.phantoms
  {
    if move.AddOne? && Granted(after.requests[r]) && !Granted(s.requests[r]) {
      OccupiersHoldOrAwait(after);
      AwaitsNonneg(after);
    }
  }

  lemma StepHolds(s: State, a: Action, cap: int)
    requires LimiterInv(s, cap) && CounterExact(Step(s, a)) && Ok(Step(s, a))
    ensures Total(Step(s, a), Holds) <= cap + Step(s, a).phantoms
  {
    match a
    case Act(r, move) =>
      if r in s.requests {
        ActTotal(s, r, move, Holds);
        AdvanceOnCounter(s, r, s.requests[r], move);
        EffectKeepsHolds(s, Advance(s, r, s.requests[r], move), r, move, cap);
      }
    case _ => StepTotal(s, a, Holds);
  }

  lemma StepLimiter(s: State, a: Action, cap: int)
    requires LimiterInv(s, cap) && (a.Arrive? ==> 0 <= a.max <= cap)
    ensures LimiterInv(Step(s, a), cap)
  {
    StepOk(s, a);
    StepCounterExact(s, a);
    StepCaps(s, a, 0, cap);
    StepHolds(s, a, cap);
  }

  lemma {:induction false} RunLimiter(s: State, schedule: seq<Action>, cap: int)
    requires LimiterInv(s, cap) && CapsWithin(schedule, 0, cap)
    ensures LimiterInv(Run(s, schedule), cap)
    decreases |schedule|
  {
    if schedule != [] {
      StepLimiter(s, schedule[0], cap);
      RunLimiter(Step(s, schedule[0]), schedule[1..], cap);
    }
  }

  /** Whatever caps requests arrive with, zero ones included: the counter is holders plus attempts
      awaiting rollback less phantom releases, and there are never more holders than the largest cap
      plus the phantom releases. */
  lemma LimiterInEverySchedule(user: int, row: Row, now: int, schedule: seq<Action>, cap: nat)
    requires CapsWithin(schedule, 0, cap)
    ensures
      var s := Run(Init(user, row, now), schedule);
      && Total(s, Holds) <= cap + s.phantoms
      && match s.counter
         case None => s.phantoms == 0 && Total(s, Holds) == Total(s, Awaits) == 0
         case Some(n) => n == Total(s, Holds) + Total(s, Awaits) - s.phantoms
  {
    var s := Run(Init(user, row, now), schedule);
    RunLimiter(Init(user, row, now), schedule, cap);
    OccupiersHoldOrAwait(s);
    if s.counter.None? {
      SumZero(s.requests, Weigh(Holds));
    }
  }

  ghost predicate NoPhantoms(s: State) {
    s.phantoms == 0 && forall r :: r in s.requests ==> !s.requests[r].slot.FreeSlot?
  }

  lemma {:induction false} PositiveCapsHaveNoPhantoms(s: State, schedule: seq<Action>, cap: int)
    requires NoPhantoms(s) && RequestCapsWithin(s, 1, cap) && CapsWithin(schedule, 1, cap)
    ensures NoPhantoms(Run(s, schedule))
    ensures RequestCapsWithin(Run(s, schedule), 1, cap)
    decreases |schedule|
  {
    if schedule != [] {
      StepWritesActor(s, schedule[0]);
      StepCaps(s, schedule[0], 1, cap);
      PositiveCapsHaveNoPhantoms(Step(s, schedule[0]), schedule[1..], cap);
    }
  }

  /** With positive caps throughout: holders never exceed the cap, the counter is holders plus attempts
      awaiting rollback, and it is zero whenever nobody holds or awaits. */
  lemma LimiterSafety(user: int, row: Row, now: int, schedule: seq<Action>, cap: nat)
    requires CapsWithin(schedule, 1, cap)
    ensures
      var s := Run(Init(user, row, now), schedule);
      && Total(s, Holds) <= cap
      && (s.counter.Some? ==> s.counter.value == Total(s, Holds) + Total(s, Awaits))
      && ((forall r :: r in s.requests ==> !Granted(s.requests[r]) && !s.requests[r].phase.Added?) ==>
            s.counter.None? || s.counter.value == 0)
  {
    var s := Run(Init(user, row, now), schedule);
    LimiterInEverySchedule(user, row, now, schedule, cap);
    PositiveCapsHaveNoPhantoms(Init(user, row, now), schedule, cap);
    if forall r :: r in s.requests ==> !Granted(s.requests[r]) && !s.requests[r].phase.Added? {
      SumZero(s.requests, Weigh(Holds));
      SumZero(s.requests, Weigh(Awaits));
    }
  }

  ghost predicate Uncounted(s: State) {
    && s.counter.None? && RequestCapsWithin(s, 0, 0)
    && forall r :: r in s.requests ==> !s.requests[r].phase.Loaded? && !s.requests[r].phase.Added?
  }

  lemma StepUncounted(s: State, a: Action)
    requires Uncounted(s) && (a.Arrive? ==> a.max == 0)
    ensures Uncounted(Step(s, a))
  {
    StepCaps(s, a, 0, 0);
    StepWritesActor(s, a);
    if a.Act? && a.r in s.requests && IsLedgerMove(a.move) { LedgerMoveFrame(s, a.r, s.requests[a.r], a.move); }
  }

  lemma {:induction false} RunUncounted(s: State, schedule: seq<Action>)
    requires Uncounted(s) && CapsWithin(schedule, 0, 0)
    ensures Run(s, schedule).counter.None?
    decreases |schedule|
  {
    if schedule != [] {
      StepUncounted(s, schedule[0]);
      RunUncounted(Step(s, schedule[0]), schedule[1..]);
    }
  }

  /** A user whose cap is zero throughout never gets a counter, so releases do nothing. */
  lemma UnlimitedNeverCounted(user: int, row: Row, now: int, schedule: seq<Action>)
    requires CapsWithin(schedule, 0, 0)
    ensures Run(Init(user, row, now), schedule).counter.None?
  {
    RunUncounted(Init(user, row, now), schedule);
  }

  // ----- who is admitted

  /** An attempt is granted if and only if holders plus attempts awaiting rollback, less phantom
      releases, are below its own cap at its AddInt64. */
  lemma GrantedIff(s: State, r: nat)
    requires Ok(s) && CounterExact(s) && r in s.requests && s.requests[r].phase.Loaded?
    ensures
      var after := Step(s, Act(r, AddOne));
      Granted(after.requests[r]) <==> Total(s, Holds) + Total(s, Awaits) - s.phantoms < s.requests[r].max
  {
    OccupiersHoldOrAwait(s);
  }

  /** While the holders are within the cap, one AddInt64 keeps them there if and only if there is room for one
      more holder or the attempt is refused. */
  lemma CapHoldsIff(s: State, r: nat, cap: int)
    requires Ok(s) && CounterExact(s) && r in s.requests && s.requests[r].phase.Loaded?
    requires Total(s, Holds) <= cap
    ensures Total(Step(s, Act(r, AddOne)), Holds) <= cap <==>
      Total(s, Holds) < cap || Total(s, Holds) + Total(s, Awaits) - s.phantoms >= s.requests[r].max
  {
    GrantedIff(s, r);
    ActTotal(s, r, AddOne, Holds);
  }

  ghost predicate ExactInv(s: State, cap: int) {
    && Ok(s)
    && CounterExact(s)
    && NoPhantoms(s)
    && RequestCapsWithin(s, cap, cap)
    && Total(s, Holds) == Min(cap, Total(s, Attempted))
  }

  lemma HeldOrWaitingAttempted(s: State)
    requires Ok(s)
    ensures 0 <= Total(s, Awaits) <= Total(s, Attempted) - Total(s, Holds)
    ensures Total(s, Holds) + Total(s, Awaits) == Total(s, Occupies)
  {
    OccupiersHoldOrAwait(s);
    AwaitsNonneg(s);
    SumLe(s.requests, Weigh(Holds), Weigh(Awaits), Weigh(Attempted));
  }

  lemma StepGrants(s: State, a: Action, cap: int)
    requires cap >= 1 && ExactInv(s, cap)
    requires (a.Arrive? ==> a.max == cap) && (a.Act? ==> !a.move.Release?)
    ensures Total(Step(s, a), Holds) == Min(cap, Total(Step(s, a), Attempted))
  {
    match a
    case Act(r, move) =>
      if r in s.requests {
        ActTotal(s, r, move, Holds);
        ActTotal(s, r, move, Attempted);
        AdvanceOnCounter(s, r, s.requests[r], move);
        EffectKeepsGrants(s, Advance(s, r, s.requests[r], move), r, move, cap);
      }
    case _ =>
      StepTotal(s, a, Holds);
      StepTotal(s, a, Attempted);
  }

  lemma EffectKeepsGrants(s: State, after: State, r: nat, move: Move, cap: int)
    requires cap >= 1 && ExactInv(s, cap) && r in s.requests && r in after.requests && !move.Release?
    requires CounterEffect(s, after, s.requests[r], after.requests[r], move)
    requires Total(after, Holds)
      == Total(s, Holds) + WeightOf(Holds, after.requests[r]) - WeightOf(Holds, s.requests[r])
    requires Total(after, Attempted)
      == Total(s, Attempted) + WeightOf(Attempted, after.requests[r]) - WeightOf(Attempted, s.requests[r])
    ensures Total(after, Holds) == Min(cap, Total(after, Attempted))
  {
    HeldOrWaitingAttempted(s);
  }

  lemma StepExact(s: State, a: Action, cap: int)
    requires cap >= 1 && ExactInv(s, cap)
    requires (a.Arrive? ==> a.max == cap) && (a.Act? ==> !a.move.Release?)
    ensures ExactInv(Step(s, a), cap)
  {
    StepOk(s, a);
    StepCounterExact(s, a);
    StepCaps(s, a, cap, cap);
    PositiveCapsHaveNoPhantoms(s, [a], cap);
    assert Run(s, [a]) == Step(s, a);
    StepGrants(s, a, cap);
  }

  lemma {:induction false} RunExact(s: State, schedule: seq<Action>, cap: nat)
    requires cap >= 1 && ExactInv(s, cap) && CapsWithin(schedule, cap, cap)
    requires forall a :: a in schedule && a.Act? ==> !a.move.Release?
    ensures ExactInv(Run(s, schedule), cap)
    decreases |schedule|
  {
    if schedule != [] {
      StepExact(s, schedule[0], cap);
      RunExact(Step(s, schedule[0]), schedule[1..], cap);
    }
  }

  /** While nobody releases, exactly min(cap, attempts) attempts are granted, at every moment of every
      schedule. */
  lemma LimiterExactness(user: int, row: Row, now: int, schedule: seq<Action>, cap: nat)
    requires cap >= 1 && CapsWithin(schedule, cap, cap)
    requires forall a :: a in schedule && a.Act? ==> !a.move.Release?
    ensures
      var s := Run(Init(user, row, now), schedule);
      Total(s, Holds) == Min(cap, Total(s, Attempted))
  {
    RunExact(Init(user, row, now), schedule, cap);
  }

  // ----- what the limiter does not promise

  function Attempting(user: int, max: int, count: int): Request {
    Request(Sync, max, NoSlot, Added(count), Ctx(user, "", "", 0.0), None, None, 0)
  }

  function Attempt(r: nat, max: int): seq<Action> {
    [Arrive(r, Sync, max), Act(r, LoadCounter), Act(r, AddOne)]
  }

  lemma AttemptEffect(s: State, r: nat, max: int)
    requires r !in s.requests && max >= 1
    ensures
      var count := if s.counter.None? then 1 else s.counter.value + 1;
      Run(s, Attempt(r, max)) == s.(counter := Some(count), requests := s.requests[r := Attempting(s.user, max, count)])
  {
    var s1 := Step(s, Arrive(r, Sync, max));
    var s2 := Step(s1, Act(r, LoadCounter));
    var s3 := Step(s2, Act(r, AddOne));
    RunAppend(s, [Arrive(r, Sync, max)], [Act(r, LoadCounter), Act(r, AddOne)]);
    RunAppend(s1, [Act(r, LoadCounter)], [Act(r, AddOne)]);
    RunOne(s, Arrive(r, Sync, max));
    RunOne(s1, Act(r, LoadCounter));
    RunOne(s2, Act(r, AddOne));
    assert Attempt(r, max) == [Arrive(r, Sync, max)] + [Act(r, LoadCounter), Act(r, AddOne)];
    assert [Act(r, LoadCounter), Act(r, AddOne)] == [Act(r, LoadCounter)] + [Act(r, AddOne)];
    assert s3.requests == s.requests[r := s3.requests[r]];
  }

  /** Without interference the three operations are tryAcquireConcurrency: granted if and only if the
      counter was below the cap, and counted only then. */
  lemma UninterruptedAttempt(s: State, r: nat, max: int)
    requires r !in s.requests && max >= 1
    ensures
      var before := if s.counter.None? then 0 else s.counter.value;
      var after := Run(s, Attempt(r, max) + [Act(r, Compare)]);
      && r in after.requests
      && (after.requests[r].slot.HeldSlot? <==> before < max)
      && after.counter == Some(before + if before < max then 1 else 0)
  {
    AttemptEffect(s, r, max);
    RunAppend(s, Attempt(r, max), [Act(r, Compare)]);
    RunOne(Run(s, Attempt(r, max)), Act(r, Compare));
  }

  lemma RunTwo(s: State, a: Action, b: Action)
    ensures Run(s, [a, b]) == Step(Step(s, a), b)
  {
    assert [a, b] == [a] + [b];
    RunAppend(s, [a], [b]);
    RunOne(s, a);
    RunOne(Step(s, a), b);
  }

  /** A request that has come and gone: its slot is given back, or it never had a counted one. */
  function Gone(user: int, max: int): Request {
    Request(Sync, max, NoSlot, Done, Ctx(user, "", "", 0.0), None, None, 0)
  }

  function Leaving(user: int): Request {
    Request(Sync, 1, HeldSlot, Closing([]), Ctx(user, "", "", 0.0), None, None, 0)
  }

  lemma GrantAndBail(s: State, r: nat)
    requires r in s.requests && s.requests[r] == Attempting(s.user, 1, 1)
    ensures Run(s, [Act(r, Compare), Act(r, Bail)]) == Put(s, r, Leaving(s.user))
  {
    RunTwo(s, Act(r, Compare), Act(r, Bail));
    assert Step(Step(s, Act(r, Compare)), Act(r, Bail)).requests == Put(s, r, Leaving(s.user)).requests;
  }

  lemma ReleaseOne(s: State, r: nat)
    requires r in s.requests && s.requests[r] == Leaving(s.user) && s.counter.Some?
    ensures Run(s, [Act(r, Release)]) == Put(s, r, Gone(s.user, 1)).(counter := Some(s.counter.value - 1))
  {
    RunOne(s, Act(r, Release));
    assert Step(s, Act(r, Release)) == Leave(s, r, Leaving(s.user));
    assert Leaving(s.user).(slot := NoSlot, phase := Done) == Gone(s.user, 1);
  }

  lemma CapsAppend(first: seq<Action>, second: seq<Action>, lo: int, hi: int)
    requires CapsWithin(first, lo, hi) && CapsWithin(second, lo, hi)
    ensures CapsWithin(first + second, lo, hi)
  {
  }

  /** One more piece of a schedule whose run so far ends in s. */
  lemma Continue(s0: State, schedule: seq<Action>, s: State, more: seq<Action>, lo: int, hi: int)
    requires Run(s0, schedule) == s && CapsWithin(schedule, lo, hi) && CapsWithin(more, lo, hi)
    ensures Run(s0, schedule + more) == Run(s, more) && CapsWithin(schedule + more, lo, hi)
  {
    RunAppend(s0, schedule, more);
    CapsAppend(schedule, more, lo, hi);
  }

  /** The first request enters and leaves while the second, refused, has not rolled back yet. */
  lemma LeftBeforeRollback(user: int, row: Row, now: int, a: nat, b: nat) returns (schedule: seq<Action>)
    requires a != b
    ensures CapsWithin(schedule, 1, 1)
    ensures Run(Init(user, row, now), schedule) ==
      Init(user, row, now).(counter := Some(1), requests := map[a := Gone(user, 1), b := Attempting(user, 1, 2)])
  {
    var s0 := Init(user, row, now);
    var enter := EnterAndBail(s0, a);
    var s2 := Put(s0, a, Leaving(user)).(counter := Some(1));
    LeaveBetween(s2, a, b);
    Continue(s0, enter, s2, Attempt(b, 1) + [Act(a, Release)], 1, 1);
    schedule := enter + (Attempt(b, 1) + [Act(a, Release)]);
  }

  lemma EnterAndBail(s: State, a: nat) returns (schedule: seq<Action>)
    requires a !in s.requests && s.counter.None?
    ensures CapsWithin(schedule, 1, 1)
    ensures Run(s, schedule) == Put(s, a, Leaving(s.user)).(counter := Some(1))
  {
    AttemptEffect(s, a, 1);
    var s1 := Run(s, Attempt(a, 1));
    GrantAndBail(s1, a);
    Continue(s, Attempt(a, 1), s1, [Act(a, Compare), Act(a, Bail)], 1, 1);
    schedule := Attempt(a, 1) + [Act(a, Compare), Act(a, Bail)];
  }

  lemma LeaveBetween(s: State, a: nat, b: nat)
    requires a in s.requests && s.requests[a] == Leaving(s.user) && s.counter == Some(1) && b !in s.requests
    ensures Run(s, Attempt(b, 1) + [Act(a, Release)]) ==
      s.(counter := Some(1), requests := s.requests[b := Attempting(s.user, 1, 2)][a := Gone(s.user, 1)])
    ensures CapsWithin(Attempt(b, 1) + [Act(a, Release)], 1, 1)
  {
    AttemptEffect(s, b, 1);
    RunAppend(s, Attempt(b, 1), [Act(a, Release)]);
    ReleaseOne(Run(s, Attempt(b, 1)), a);
  }

  /** The counter can exceed the cap for a moment, and an attempt can be refused although nobody holds
      a slot. */
  lemma RefusedWhileIdle(user: int, row: Row, now: int, a: nat, b: nat, c: nat) returns (schedule: seq<Action>)
    requires a != b && b != c && c != a
    ensures CapsWithin(schedule, 1, 1)
    ensures
      var s := Run(Init(user, row, now), schedule);
      && s.counter == Some(2)
      && Total(s, Holds) == 0
      && c in s.requests && s.requests[c] == Attempting(user, 1, 2)
  {
    schedule := LeftBeforeRollback(user, row, now, a, b);
    var s0 := Init(user, row, now);
    var s4 := Run(s0, schedule);
    AttemptEffect(s4, c, 1);
    Continue(s0, schedule, s4, Attempt(c, 1), 1, 1);
    schedule := schedule + Attempt(c, 1);
    SumZero(Run(s0, schedule).requests, Weigh(Holds));
  }

  function FreeVisit(r: nat): seq<Action> {
    [Arrive(r, Sync, 0), Act(r, LoadCounter)] + [Act(r, Bail), Act(r, Release)]
  }

  lemma FreeVisitEffect(s: State, r: nat)
    requires r !in s.requests && s.counter.Some?
    ensures Run(s, FreeVisit(r)) ==
      Put(s, r, Gone(s.user, 0)).(counter := Some(s.counter.value - 1), phantoms := s.phantoms + 1)
  {
    RunAppend(s, [Arrive(r, Sync, 0), Act(r, LoadCounter)], [Act(r, Bail), Act(r, Release)]);
    RunTwo(s, Arrive(r, Sync, 0), Act(r, LoadCounter));
    var s2 := Step(Step(s, Arrive(r, Sync, 0)), Act(r, LoadCounter));
    RunTwo(s2, Act(r, Bail), Act(r, Release));
    var s4 := Step(Step(s2, Act(r, Bail)), Act(r, Release));
    assert s4.requests == s.requests[r := Gone(s.user, 0)];
  }

  /** A cap changed between positive and zero lets a free request decrement the counter, and then two
      requests hold slots although every positive cap was one. */
  lemma PhantomReleaseBreaksCap(user: int, row: Row, now: int, a: nat, b: nat, c: nat)
    returns (schedule: seq<Action>)
    requires a != b && b != c && c != a
    ensures CapsWithin(schedule, 0, 1)
    ensures
      var s := Run(Init(user, row, now), schedule);
      s.phantoms == 1 && Total(s, Holds) == 2
  {
    var s0 := Init(user, row, now);
    AttemptEffect(s0, a, 1);
    var s1 := Run(s0, Attempt(a, 1));
    VisitThenAttempt(s1, b, c);
    Continue(s0, Attempt(a, 1), s1, FreeVisit(b) + Attempt(c, 1), 0, 1);
    schedule := Attempt(a, 1) + (FreeVisit(b) + Attempt(c, 1));
    TwoHolders(Run(s0, schedule), user, a, b, c);
  }

  lemma VisitThenAttempt(s: State, b: nat, c: nat)
    requires b !in s.requests && c !in s.requests && b != c && s.counter == Some(1)
    ensures Run(s, FreeVisit(b) + Attempt(c, 1)) ==
      s.(counter := Some(1), phantoms := s.phantoms + 1,
         requests := s.requests[b := Gone(s.user, 0)][c := Attempting(s.user, 1, 1)])
    ensures CapsWithin(FreeVisit(b) + Attempt(c, 1), 0, 1)
  {
    FreeVisitEffect(s, b);
    RunAppend(s, FreeVisit(b), Attempt(c, 1));
    AttemptEffect(Run(s, FreeVisit(b)), c, 1);
  }

  lemma TwoHolders(s: State, user: int, a: nat, b: nat, c: nat)
    requires a != b && b != c && c != a
    requires s.requests == map[a := Attempting(user, 1, 1), b := Gone(user, 0), c := Attempting(user, 1, 1)]
    ensures Total(s, Holds) == 2
  {
    SumRemove(s.requests, Weigh(Holds), a);
    SumRemove(s.requests - {a}, Weigh(Holds), c);
    SumZero(s.requests - {a} - {c}, Weigh(Holds));
  }
}
