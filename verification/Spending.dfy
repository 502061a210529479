/** Research spend over whole runs: sessions one after another, interrupted by crashes and closed by
    recovery, under a clock that does not run backwards and configurations that may change between
    sessions (src/predict_agent/research_run.py:597-706, src/predict_agent/budget.py:65-117). */
module Spending {
  import opened Prelude
  import opened Time
  import opened Sums
  import opened Schema
  import opened Budget

  /** The research configuration of one run. The per-forecast cap is part of the cohort's identity; the
      daily limits may change from run to run. */
  datatype Config = Config(perForecast: real, daily: real, maxEntries: nat)

  datatype Ending =
    | Crashes
    | Fails(code: string, cost: real, at: int)
    | Succeeds(cost: real, at: int)

  /** One paid session: when the budget was checked, when the attempt started, how it ended. */
  datatype Session = Session(cohort: CohortId, condition: string, kind: Kind, checkedAt: int, startedAt: int,
                             ending: Ending)

  /** What changes the spend, each under the configuration of its own run. Of a new cohort the budget
      reads only the identity. */
  datatype SpendOp =
    | Recover(perForecast: real, now: int)
    | Research(config: Config, session: Session)
    | OpenCohort(identity: Identity, bankroll: real)

  /** The tables, and for every day the daily budget its latest session started under, with what that
      session overshot its cap by, and the entry limit its latest entry started under. */
  datatype History = History(t: Tables, budgets: map<int, real>, volumes: map<int, nat>)

  const BEGINNING := History(EMPTY, map[], map[])

  function BudgetOf(h: History, day: int): real {
    if day in h.budgets then h.budgets[day] else 0.0
  }

  function VolumeOf(h: History, day: int): nat {
    if day in h.volumes then h.volumes[day] else 0
  }

  /** Why a session may not start. Updates are not counted against the entry volume. */
  ghost function RefusalOf(t: Tables, config: Config, kind: Kind, checkedAt: int): Option<BudgetRefusal> {
    var usage := UsageOn(t, DayOf(checkedAt), config.perForecast);
    if kind == Update then
      if usage.spent + config.perForecast > config.daily then Some(OverBudget) else None
    else BudgetRefusalOf(usage, config.daily, config.perForecast, config.maxEntries)
  }

  /** WHEN A SESSION MAY NOT START: where its cap on top of the day's spend exceeds the daily budget, and an entry
      also where the day has its entries already. */
  lemma RefusalMeans(t: Tables, config: Config, kind: Kind, checkedAt: int)
    ensures var usage := UsageOn(t, DayOf(checkedAt), config.perForecast);
            var refusal := RefusalOf(t, config, kind, checkedAt);
            && (refusal == Some(OverBudget) <==> usage.spent + config.perForecast > config.daily)
            && (refusal == Some(OverVolume) <==>
                  usage.spent + config.perForecast <= config.daily && kind == Entry
                    && usage.entries >= config.maxEntries)
  {
  }

  function AttemptOf(s: Session, status: AttemptStatus): Attempt {
    Attempt(s.cohort, s.condition, s.kind, s.startedAt, status)
  }

  function StatusAfter(ending: Ending): AttemptStatus {
    match ending
    case Crashes => AttemptStatus.Started
    case Fails(code, cost, at) => Failed(at, cost, code)
    case Succeeds(cost, at) => Succeeded(at, cost)
  }

  /** The tables while a session runs. */
  function Started(t: Tables, s: Session): Tables {
    t.(attempts := t.attempts + [AttemptOf(s, AttemptStatus.Started)])
  }

  /** The tables a session leaves: its one attempt, closed unless the run crashed. */
  function Researched(t: Tables, s: Session): (r: Tables)
    ensures r.cohorts == t.cohorts
  {
    t.(attempts := t.attempts + [AttemptOf(s, StatusAfter(s.ending))])
  }

  lemma ResearchedFinishes(t: Tables, s: Session)
    ensures |Started(t, s).attempts| == |t.attempts| + 1
    ensures Started(t, s).attempts[|t.attempts|] == AttemptOf(s, AttemptStatus.Started)
    ensures Researched(t, s) == WithAttempt(Started(t, s), |t.attempts|, StatusAfter(s.ending))
  {
    hide StatusAfter;
    var last := AttemptOf(s, StatusAfter(s.ending));
    assert (t.attempts + [AttemptOf(s, AttemptStatus.Started)])[|t.attempts| := last] == t.attempts + [last];
  }

  function CohortAdded(t: Tables, identity: Identity, bankroll: real): Tables {
    if CohortHash(identity) in t.cohorts then t
    else t.(cohorts := t.cohorts[CohortHash(identity) := Cohort(identity, bankroll, identity.window, ActiveCohort)])
  }

  /** By how much a session reports more than its cap. */
  function Overshoot(s: Session, cap: real): (over: real)
    ensures over >= 0.0
  {
    match s.ending
    case Crashes => 0.0
    case Fails(_, cost, _) => if cost > cap then cost - cap else 0.0
    case Succeeds(cost, _) => if cost > cap then cost - cap else 0.0
  }

  /** A session that started, and the limits it started under. */
  function SessionRun(h: History, config: Config, s: Session): History {
    var day := DayOf(s.startedAt);
    History(Researched(h.t, s), h.budgets[day := config.daily + Overshoot(s, config.perForecast)],
            if s.kind == Entry then h.volumes[day := config.maxEntries] else h.volumes)
  }

  ghost function Spend(h: History, op: SpendOp): History {
    match op
    case Recover(perForecast, now) => h.(t := Recovered(h.t, Fallback(h.t.cohorts, perForecast), now))
    case Research(config, s) =>
      if RefusalOf(h.t, config, s.kind, s.checkedAt).Some? then h else SessionRun(h, config, s)
    case OpenCohort(identity, bankroll) => h.(t := CohortAdded(h.t, identity, bankroll))
  }

  ghost function SpendAll(h: History, ops: seq<SpendOp>): History
    decreases |ops|
  {
    if ops == [] then h else SpendAll(Spend(h, ops[0]), ops[1..])
  }

  function ClockAfter(op: SpendOp, clock: int): int {
    if op.Research? then op.session.startedAt else clock
  }

  predicate CostNonNegative(s: Session) {
    match s.ending
    case Crashes => true
    case Fails(_, cost, _) => cost >= 0.0
    case Succeeds(cost, _) => cost >= 0.0
  }

  /** The cohort is frozen at exactly this cap. */
  predicate FrozenAt(t: Tables, cohort: CohortId, cap: real) {
    cohort in t.cohorts && FrozenCap(t.cohorts[cohort].identity) == Some(cap)
  }

  /** What is asked of one operation: a session's clock readings are in order and it runs in a cohort
      frozen at its own configuration's cap. */
  predicate Admissible(h: History, op: SpendOp, clock: int) {
    op.Research? ==>
      && clock <= op.session.checkedAt <= op.session.startedAt
      && FrozenAt(h.t, op.session.cohort, op.config.perForecast)
      && CostNonNegative(op.session)
  }

  ghost predicate AdmissibleAll(h: History, ops: seq<SpendOp>, clock: int)
    decreases |ops|
  {
    ops == [] || (Admissible(h, ops[0], clock) && AdmissibleAll(Spend(h, ops[0]), ops[1..], ClockAfter(ops[0], clock)))
  }

  // ---------- the invariant ----------

  predicate Readable(t: Tables, cohort: CohortId) {
    cohort in t.cohorts && FrozenCap(t.cohorts[cohort].identity).Some?
  }

  /** Attempts of cohorts with a readable cap, none later than the clock or with a negative cost. */
  ghost predicate Orderly(t: Tables, clock: int) {
    forall a | a in t.attempts ::
      a.startedAt <= clock && (a.status == AttemptStatus.Started || a.status.cost >= 0.0) && Readable(t, a.cohort)
  }

  /** Whatever fallback cap is assumed, no day is charged more than the budget its latest session left it,
      and no day has started more entries than the limit its latest entry started under. */
  ghost predicate WithinBudgets(h: History, clock: int) {
    && Orderly(h.t, clock)
    && (forall day, fallback :: Spent(h.t, day, fallback) <= BudgetOf(h, day))
    && (forall day :: Entries(h.t.attempts, day) <= VolumeOf(h, day))
  }

  /** With readable caps the running configuration does not matter to what a day is charged. */
  lemma FallbackIrrelevant(t: Tables, clock: int, day: int, a: real, b: real)
    requires Orderly(t, clock)
    ensures Spent(t, day, a) == Spent(t, day, b)
  {
    SumCongruent(t.attempts, ChargeOn(t, day, a), ChargeOn(t, day, b));
  }

  lemma SpentNonNegative(t: Tables, clock: int, day: int, fallback: real)
    requires Orderly(t, clock)
    ensures Spent(t, day, fallback) >= 0.0
  {
    SumNonNegative(t.attempts, ChargeOn(t, day, fallback));
  }

  lemma DaysInOrder(a: int, b: int)
    requires a <= b
    ensures DayOf(a) <= DayOf(b)
  {
  }

  lemma {:induction false} EntriesAbsent(attempts: seq<Attempt>, day: int)
    requires forall a | a in attempts :: DayOf(a.startedAt) != day
    ensures Entries(attempts, day) == 0
  {
    hide DayOf;
    if attempts != [] {
      assert attempts[|attempts| - 1] in attempts;
      EntriesAbsent(attempts[..|attempts| - 1], day);
    }
  }

  /** A day later than the last check has seen no attempt. */
  lemma DayUntouched(t: Tables, clock: int, checkedAt: int, day: int, fallback: real)
    requires Orderly(t, clock) && clock <= checkedAt && DayOf(checkedAt) < day
    ensures Spent(t, day, fallback) == 0.0 && Entries(t.attempts, day) == 0
  {
    forall a | a in t.attempts
      ensures DayOf(a.startedAt) != day
    {
      DaysInOrder(a.startedAt, checkedAt);
    }
    NothingYet(t, day, fallback);
    EntriesAbsent(t.attempts, day);
  }

  /** The running attempt is charged its whole cap, and that is still within the session's budget, even
      when midnight passed between the check and the start. */
  lemma StartWithinBudget(h: History, clock: int, config: Config, s: Session, fallback: real)
    requires WithinBudgets(h, clock) && clock <= s.checkedAt <= s.startedAt
    requires FrozenAt(h.t, s.cohort, config.perForecast)
    requires RefusalOf(h.t, config, s.kind, s.checkedAt).None?
    ensures Spent(Started(h.t, s), DayOf(s.startedAt), fallback) <= config.daily
  {
    hide DayOf;
    var t, day, checked := h.t, DayOf(s.startedAt), DayOf(s.checkedAt);
    var running := Fallback(t.cohorts, config.perForecast);
    SpentNonNegative(t, clock, checked, running);
    StartingAdds(t, AttemptOf(s, AttemptStatus.Started), day, fallback);
    DaysInOrder(s.checkedAt, s.startedAt);
    if day == checked {
      FallbackIrrelevant(t, clock, day, running, fallback);
    } else {
      DayUntouched(t, clock, s.checkedAt, day, fallback);
    }
  }

  lemma EndingAdds(t: Tables, s: Session, cap: real, day: int, fallback: real)
    requires FrozenAt(t, s.cohort, cap) && CostNonNegative(s)
    ensures Spent(Researched(t, s), day, fallback) <=
            Spent(Started(t, s), day, fallback) + if DayOf(s.startedAt) == day then Overshoot(s, cap) else 0.0
  {
    hide Spent, WithAttempt, DayOf;
    ResearchedFinishes(t, s);
    if !s.ending.Crashes? {
      FinishingChanges(Started(t, s), |t.attempts|, StatusAfter(s.ending), StatusAfter(s.ending).cost, day, fallback);
    }
  }

  lemma OtherDay(t: Tables, s: Session, day: int, fallback: real)
    requires day != DayOf(s.startedAt)
    ensures Spent(Started(t, s), day, fallback) == Spent(t, day, fallback)
  {
    StartingAdds(t, AttemptOf(s, AttemptStatus.Started), day, fallback);
  }

  /** A SESSION THAT PASSED THE CHECK keeps every day within its budget, but for its own overshoot,
      whatever the other cohorts' caps and the earlier budgets. */
  lemma SessionWithinBudget(h: History, clock: int, config: Config, s: Session, day: int, fallback: real)
    requires WithinBudgets(h, clock) && Admissible(h, Research(config, s), clock)
    requires RefusalOf(h.t, config, s.kind, s.checkedAt).None?
    ensures Spent(Researched(h.t, s), day, fallback) <= BudgetOf(SessionRun(h, config, s), day)
  {
    hide RefusalOf, DayOf, Spent;
    EndingAdds(h.t, s, config.perForecast, day, fallback);
    if day == DayOf(s.startedAt) {
      StartWithinBudget(h, clock, config, s, fallback);
    } else {
      OtherDay(h.t, s, day, fallback);
    }
  }

  lemma EntriesSnoc(attempts: seq<Attempt>, a: Attempt, day: int)
    ensures Entries(attempts + [a], day) ==
            Entries(attempts, day) + if DayOf(a.startedAt) == day && a.kind == Entry then 1 else 0
  {
    assert (attempts + [a])[..|attempts|] == attempts;
  }

  lemma EntryAllowed(t: Tables, config: Config, checkedAt: int)
    requires RefusalOf(t, config, Entry, checkedAt).None?
    ensures Entries(t.attempts, DayOf(checkedAt)) < config.maxEntries
  {
    hide Spent, Entries, Fallback, DayOf;
  }

  lemma EntriesAfter(t: Tables, s: Session, day: int)
    ensures Entries(Researched(t, s).attempts, day) ==
            Entries(t.attempts, day) + if DayOf(s.startedAt) == day && s.kind == Entry then 1 else 0
  {
    hide Entries, DayOf, StatusAfter;
    EntriesSnoc(t.attempts, AttemptOf(s, StatusAfter(s.ending)), day);
  }

  /** Likewise of the entry volume. */
  lemma SessionWithinVolume(h: History, clock: int, config: Config, s: Session, day: int)
    requires WithinBudgets(h, clock) && clock <= s.checkedAt <= s.startedAt
    requires RefusalOf(h.t, config, s.kind, s.checkedAt).None?
    ensures Entries(Researched(h.t, s).attempts, day) <= VolumeOf(SessionRun(h, config, s), day)
  {
    hide DayOf, Spent, Entries, RefusalOf, Researched;
    EntriesAfter(h.t, s, day);
    DaysInOrder(s.checkedAt, s.startedAt);
    if s.kind == Entry && day == DayOf(s.startedAt) {
      EntryAllowed(h.t, config, s.checkedAt);
      if day != DayOf(s.checkedAt) {
        DayUntouched(h.t, clock, s.checkedAt, day, 0.0);
      }
    } else {
      assert Entries(h.t.attempts, day) <= VolumeOf(h, day);
    }
  }

  lemma ResearchedOrderly(t: Tables, clock: int, config: Config, s: Session)
    requires Orderly(t, clock) && clock <= s.startedAt
    requires FrozenAt(t, s.cohort, config.perForecast) && CostNonNegative(s)
    ensures Orderly(Researched(t, s), s.startedAt)
  {
    var t' := Researched(t, s);
    var n := |t.attempts|;
    forall a | a in t'.attempts
      ensures a.startedAt <= s.startedAt && (a.status == AttemptStatus.Started || a.status.cost >= 0.0)
              && Readable(t', a.cohort)
    {
      var i :| 0 <= i < |t'.attempts| && t'.attempts[i] == a;
      assert i < n ==> t.attempts[i] in t.attempts;
    }
  }

  lemma ResearchWithin(h: History, clock: int, config: Config, s: Session)
    requires WithinBudgets(h, clock) && Admissible(h, Research(config, s), clock)
    requires RefusalOf(h.t, config, s.kind, s.checkedAt).None?
    ensures WithinBudgets(SessionRun(h, config, s), s.startedAt)
  {
    hide Spent, RefusalOf, CostNonNegative, BudgetOf, VolumeOf, Entries;
    var h' := SessionRun(h, config, s);
    ResearchedOrderly(h.t, clock, config, s);
    forall day, fallback
      ensures Spent(h'.t, day, fallback) <= BudgetOf(h', day)
    {
      SessionWithinBudget(h, clock, config, s, day, fallback);
    }
    forall day
      ensures Entries(h'.t.attempts, day) <= VolumeOf(h', day)
    {
      SessionWithinVolume(h, clock, config, s, day);
    }
  }

  lemma RecoverWithin(h: History, clock: int, perForecast: real, now: int)
    requires WithinBudgets(h, clock)
    ensures WithinBudgets(Spend(h, Recover(perForecast, now)), clock)
  {
    var cap := Fallback(h.t.cohorts, perForecast);
    var h' := Spend(h, Recover(perForecast, now));
    RecoveredOrderly(h.t, clock, cap, now);
    hide Spent, Recovered, Fallback;
    forall day, fallback
      ensures Spent(h'.t, day, fallback) <= BudgetOf(h', day)
    {
      RecoveryKeepsUsage(h.t, cap, now, day);
      FallbackIrrelevant(h'.t, clock, day, fallback, cap);
    }
    forall day
      ensures Entries(h'.t.attempts, day) <= VolumeOf(h', day)
    {
      RecoveryKeepsUsage(h.t, cap, now, day);
    }
  }

  lemma RecoveredOrderly(t: Tables, clock: int, cap: real, now: int)
    requires Orderly(t, clock)
    ensures Orderly(Recovered(t, cap, now), clock)
  {
    var t' := Recovered(t, cap, now);
    forall a | a in t'.attempts
      ensures a.startedAt <= clock && a.status != AttemptStatus.Started && a.status.cost >= 0.0
              && Readable(t', a.cohort)
    {
      var i :| 0 <= i < |t'.attempts| && t'.attempts[i] == a;
      assert t.attempts[i] in t.attempts;
    }
  }

  lemma OpenKeepsSpent(t: Tables, identity: Identity, bankroll: real, day: int, fallback: real)
    requires forall a | a in t.attempts :: a.cohort in t.cohorts
    ensures Spent(CohortAdded(t, identity, bankroll), day, fallback) == Spent(t, day, fallback)
  {
    hide FrozenCap;
    var t' := CohortAdded(t, identity, bankroll);
    SumCongruent(t'.attempts, ChargeOn(t', day, fallback), ChargeOn(t, day, fallback));
  }

  lemma OpenKeepsOrder(t: Tables, clock: int, identity: Identity, bankroll: real)
    requires Orderly(t, clock)
    ensures Orderly(CohortAdded(t, identity, bankroll), clock)
  {
    hide FrozenCap;
  }

  lemma OpenWithin(h: History, clock: int, identity: Identity, bankroll: real)
    requires WithinBudgets(h, clock)
    ensures WithinBudgets(Spend(h, OpenCohort(identity, bankroll)), clock)
  {
    hide FrozenCap, Entries, Spent;
    var t' := CohortAdded(h.t, identity, bankroll);
    OpenKeepsOrder(h.t, clock, identity, bankroll);
    forall day, fallback
      ensures Spent(t', day, fallback) == Spent(h.t, day, fallback)
    {
      OpenKeepsSpent(h.t, identity, bankroll, day, fallback);
    }
  }

  lemma StepWithin(h: History, clock: int, op: SpendOp)
    requires WithinBudgets(h, clock) && Admissible(h, op, clock)
    ensures WithinBudgets(Spend(h, op), ClockAfter(op, clock))
  {
    hide WithinBudgets, Recovered, Fallback, SessionRun, Admissible;
    match op {
      case Recover(perForecast, now) => RecoverWithin(h, clock, perForecast, now);
      case Research(config, s) =>
        if RefusalOf(h.t, config, s.kind, s.checkedAt).None? {
          ResearchWithin(h, clock, config, s);
        } else {
          ClockMayMove(h, clock, op);
        }
      case OpenCohort(identity, bankroll) => OpenWithin(h, clock, identity, bankroll);
    }
  }

  lemma ClockMayMove(h: History, clock: int, op: SpendOp)
    requires WithinBudgets(h, clock) && Admissible(h, op, clock)
    ensures WithinBudgets(h, ClockAfter(op, clock))
  {
  }

  lemma {:induction false} RunWithin(h: History, clock: int, ops: seq<SpendOp>) returns (last: int)
    requires WithinBudgets(h, clock) && AdmissibleAll(h, ops, clock)
    ensures WithinBudgets(SpendAll(h, ops), last)
    decreases |ops|
  {
    hide WithinBudgets, Spend, Admissible;
    if ops == [] {
      last := clock;
    } else {
      StepWithin(h, clock, ops[0]);
      last := RunWithin(Spend(h, ops[0]), ClockAfter(ops[0], clock), ops[1..]);
    }
  }

  /** NO DAY IS EVER OVERSPENT: over any run of sessions, crashes, recoveries and new cohorts, with caps
      and daily limits that change between sessions, every UTC day is charged at most the daily budget
      its latest session started under, and what that one session reported above its cap, whichever cap
      is running when the day is read; and it starts at most as many entries as its latest entry was
      allowed. */
  lemma NeverOverspent(ops: seq<SpendOp>, clock: int, day: int, perForecast: real)
    requires AdmissibleAll(BEGINNING, ops, clock)
    ensures var h := SpendAll(BEGINNING, ops);
            && UsageOn(h.t, day, perForecast).spent <= BudgetOf(h, day)
            && UsageOn(h.t, day, perForecast).entries <= VolumeOf(h, day)
  {
    BeginningWithin(clock);
    var last := RunWithin(BEGINNING, clock, ops);
  }

  lemma BeginningWithin(clock: int)
    ensures WithinBudgets(BEGINNING, clock)
  {
  }

  /** In particular a limit no session exceeds, its own overshoot included, is never exceeded by any day. */
  lemma NeverAbove(ops: seq<SpendOp>, clock: int, day: int, perForecast: real, daily: real, maxEntries: nat)
    requires AdmissibleAll(BEGINNING, ops, clock) && daily >= 0.0
    requires forall op | op in ops && op.Research? ::
               op.config.daily + Overshoot(op.session, op.config.perForecast) <= daily
                 && op.config.maxEntries <= maxEntries
    ensures var usage := UsageOn(SpendAll(BEGINNING, ops).t, day, perForecast);
            usage.spent <= daily && usage.entries <= maxEntries
  {
    NeverOverspent(ops, clock, day, perForecast);
    BudgetsWithin(BEGINNING, ops, daily, maxEntries);
  }

  lemma {:induction false} BudgetsWithin(h: History, ops: seq<SpendOp>, daily: real, maxEntries: nat)
    requires daily >= 0.0
    requires forall op | op in ops && op.Research? ::
               op.config.daily + Overshoot(op.session, op.config.perForecast) <= daily
                 && op.config.maxEntries <= maxEntries
    requires forall day :: BudgetOf(h, day) <= daily && VolumeOf(h, day) <= maxEntries
    ensures forall day :: BudgetOf(SpendAll(h, ops), day) <= daily && VolumeOf(SpendAll(h, ops), day) <= maxEntries
    decreases |ops|
  {
    hide RefusalOf, Researched, Recovered, CohortAdded, Overshoot;
    if ops != [] {
      assert ops[0] in ops;
      var h' := Spend(h, ops[0]);
      forall day
        ensures BudgetOf(h', day) <= daily && VolumeOf(h', day) <= maxEntries
      {
        assert BudgetOf(h, day) <= daily && VolumeOf(h, day) <= maxEntries;
      }
      hide Spend;
      BudgetsWithin(h', ops[1..], daily, maxEntries);
    }
  }

  // ---------- a cohort without a readable cap ----------

  /** STARTED attempts of the day that are charged at the fallback. */
  function Unreadable(t: Tables, attempts: seq<Attempt>, day: int): nat {
    if attempts == [] then 0
    else
      var a := attempts[0];
      Unreadable(t, attempts[1..], day) +
      if DayOf(a.startedAt) == day && a.status == AttemptStatus.Started && !Readable(t, a.cohort) then 1 else 0
  }

  /** A number of attempts charged this much each. */
  function Times(n: nat, x: real): real { n as real * x }

  lemma TimesMore(n: nat, x: real)
    ensures Times(n + 1, x) == Times(n, x) + x
    ensures Times(0, x) == 0.0
  {
  }

  lemma {:induction false} SumByFallback(t: Tables, attempts: seq<Attempt>, day: int, a: real, b: real)
    ensures SumOf(attempts, ChargeOn(t, day, b)) ==
            SumOf(attempts, ChargeOn(t, day, a)) + Times(Unreadable(t, attempts, day), b - a)
  {
    hide Times, DayOf;
    TimesMore(0, b - a);
    if attempts != [] {
      SumByFallback(t, attempts[1..], day, a, b);
      TimesMore(Unreadable(t, attempts[1..], day), b - a);
    }
  }

  /** What a day is charged depends on the fallback, and so on the running configuration and on every
      other cohort, exactly when a STARTED attempt of that day belongs to a cohort without a readable cap. */
  lemma FallbackMattersIff(t: Tables, day: int)
    ensures (forall a, b :: Spent(t, day, a) == Spent(t, day, b)) <==> Unreadable(t, t.attempts, day) == 0
  {
    forall a, b
      ensures Spent(t, day, b) == Spent(t, day, a) + Times(Unreadable(t, t.attempts, day), b - a)
    {
      SumByFallback(t, t.attempts, day, a, b);
    }
    var n := Unreadable(t, t.attempts, day);
    TimesMore(0, 0.0);
    assert Times(0, 1.0) == 0.0 && Times(n, 1.0) == n as real;
    assert Spent(t, day, 1.0) == Spent(t, day, 0.0) + Times(n, 1.0 - 0.0);
    if n == 0 {
      forall a, b
        ensures Spent(t, day, a) == Spent(t, day, b)
      {
        TimesMore(0, b - a);
        assert Spent(t, day, b) == Spent(t, day, a) + Times(n, b - a);
      }
    }
  }

  /** What goes wrong then: opening a cohort with a higher cap, or running one, raises what a past day is
      charged by the difference for each such attempt, although no session ran. */
  lemma OpeningCharges(t: Tables, day: int, perForecast: real, identity: Identity, bankroll: real)
    requires CohortHash(identity) !in t.cohorts && FrozenCap(identity).Some?
    requires forall a | a in t.attempts :: a.cohort in t.cohorts
    ensures var before := Fallback(t.cohorts, perForecast);
            var after := Fallback(CohortAdded(t, identity, bankroll).cohorts, perForecast);
            && after == (if FrozenCap(identity).value > before then FrozenCap(identity).value else before)
            && UsageOn(CohortAdded(t, identity, bankroll), day, perForecast).spent ==
               UsageOn(t, day, perForecast).spent + Times(Unreadable(t, t.attempts, day), after - before)
  {
    var t' := CohortAdded(t, identity, bankroll);
    var before, after := Fallback(t.cohorts, perForecast), Fallback(t'.cohorts, perForecast);
    AddedFallback(t, perForecast, identity, bankroll);
    SumCongruent(t.attempts, ChargeOn(t', day, after), ChargeOn(t, day, after));
    SumByFallback(t, t.attempts, day, before, after);
  }

  lemma AddedFallback(t: Tables, perForecast: real, identity: Identity, bankroll: real)
    requires CohortHash(identity) !in t.cohorts && FrozenCap(identity).Some?
    ensures var before := Fallback(t.cohorts, perForecast);
            Fallback(CohortAdded(t, identity, bankroll).cohorts, perForecast) ==
            if FrozenCap(identity).value > before then FrozenCap(identity).value else before
  {
    var t' := CohortAdded(t, identity, bankroll);
    var before, cap := Fallback(t.cohorts, perForecast), FrozenCap(identity).value;
    var highest := if cap > before then cap else before;
    assert t'.cohorts[CohortHash(identity)].identity == identity;
    forall c | c in t'.cohorts && FrozenCap(t'.cohorts[c].identity).Some?
      ensures FrozenCap(t'.cohorts[c].identity).value <= highest
    {
    }
    if highest == before && before != perForecast {
      var c :| c in t.cohorts && FrozenCap(t.cohorts[c].identity) == Some(before);
      assert c in t'.cohorts && FrozenCap(t'.cohorts[c].identity) == Some(highest);
    }
    assert IsFallback(t'.cohorts, perForecast, highest);
    FallbackUnique(t'.cohorts, perForecast, highest, Fallback(t'.cohorts, perForecast));
  }

  const UNREADABLE := Identity([], Sha(Text("prompt")), "model", None, "v1", 60, 1)
  const DEARER := UNREADABLE.(perForecastUsd := Some(20.0))
  const CRASHED := Session(CohortHash(UNREADABLE), "market", Update, 0, 0, Crashes)

  lemma SpendThree(h: History, a: SpendOp, b: SpendOp, c: SpendOp)
    ensures SpendAll(h, [a, b, c]) == Spend(Spend(Spend(h, a), b), c)
  {
    hide Spend;
    assert [a, b, c][1..] == [b, c] && [b, c][1..] == [c] && [c][1..] == [];
    assert SpendAll(Spend(h, a), [b, c]) == SpendAll(Spend(Spend(h, a), b), [c]);
  }

  /** A run that overspends only because its cohort has no readable cap: a crashed session within the
      budget of 10 is charged 20 once a cohort frozen at 20 is opened. */
  lemma UnreadableCapOverspends()
    ensures var config := Config(1.0, 10.0, 5);
            var ops := [OpenCohort(UNREADABLE, 100.0), Research(config, CRASHED), OpenCohort(DEARER, 100.0)];
            var h := SpendAll(BEGINNING, ops);
            BudgetOf(h, 0) == 10.0 && UsageOn(h.t, 0, 1.0).spent == 20.0
  {
    var config := Config(1.0, 10.0, 5);
    var ops := [OpenCohort(UNREADABLE, 100.0), Research(config, CRASHED), OpenCohort(DEARER, 100.0)];
    var h1 := Spend(BEGINNING, ops[0]);
    assert DayOf(0) == 0;
    assert Spent(h1.t, 0, Fallback(h1.t.cohorts, 1.0)) == 0.0;
    FallbackUnique(h1.t.cohorts, 1.0, 1.0, Fallback(h1.t.cohorts, 1.0));
    var h2 := Spend(h1, ops[1]);
    assert h2 == SessionRun(h1, config, CRASHED);
    assert h2.t.attempts == [AttemptOf(CRASHED, AttemptStatus.Started)];
    assert Unreadable(h2.t, h2.t.attempts[1..], 0) == 0;
    assert Unreadable(h2.t, h2.t.attempts, 0) == 1;
    assert SumOf(h2.t.attempts[1..], ChargeOn(h2.t, 0, 1.0)) == 0.0;
    assert Spent(h2.t, 0, 1.0) == 1.0;
    OpeningCharges(h2.t, 0, 1.0, DEARER, 100.0);
    SpendThree(BEGINNING, ops[0], ops[1], ops[2]);
  }
}
