/** Research spend per UTC day (src/predict_agent/budget.py). An attempt whose cost is not known yet is
    charged at the cap frozen in its own cohort's identity. */
module Budget {
  import opened Prelude
  import opened Time
  import opened Sums
  import opened Schema
  import opened Forecasts

  const INTERRUPTED := "INTERRUPTED"

  /** The per-forecast cap a cohort's sessions ran under, when its identity states a positive one. */
  function FrozenCap(identity: Identity): Option<real> {
    match identity.perForecastUsd
    case None => None
    case Some(cap) => if cap > 0.0 then Some(cap) else None
  }

  /** The highest cap known: the running config's or any cohort's. */
  ghost predicate IsFallback(cohorts: map<CohortId, Cohort>, perForecast: real, cap: real) {
    && cap >= perForecast
    && (forall c | c in cohorts && FrozenCap(cohorts[c].identity).Some? :: FrozenCap(cohorts[c].identity).value <= cap)
    && (cap == perForecast || exists c | c in cohorts :: FrozenCap(cohorts[c].identity) == Some(cap))
  }

  lemma FallbackUnique(cohorts: map<CohortId, Cohort>, perForecast: real, a: real, b: real)
    requires IsFallback(cohorts, perForecast, a) && IsFallback(cohorts, perForecast, b)
    ensures a == b
  {
  }

  lemma {:induction false} FallbackExists(cohorts: map<CohortId, Cohort>, perForecast: real) returns (cap: real)
    ensures IsFallback(cohorts, perForecast, cap)
    decreases |cohorts|
  {
    if cohorts == map[] {
      cap := perForecast;
    } else {
      var c :| c in cohorts;
      var rest := cohorts - {c};
      assert rest.Keys == cohorts.Keys - {c};
      var others := FallbackExists(rest, perForecast);
      var frozen := FrozenCap(cohorts[c].identity);
      cap := if frozen.Some? && frozen.value > others then frozen.value else others;
      assert forall d | d in cohorts :: d == c || (d in rest && rest[d] == cohorts[d]);
      assert cap == others != perForecast ==> exists d | d in rest :: FrozenCap(rest[d].identity) == Some(cap);
    }
  }

  ghost function Fallback(cohorts: map<CohortId, Cohort>, perForecast: real): (cap: real)
    ensures IsFallback(cohorts, perForecast, cap)
  {
    assert exists cap :: IsFallback(cohorts, perForecast, cap) by {
      var cap := FallbackExists(cohorts, perForecast);
    }
    var cap :| IsFallback(cohorts, perForecast, cap);
    cap
  }

  method FallbackCap(cohorts: map<CohortId, Cohort>, perForecast: real) returns (cap: real)
    ensures cap == Fallback(cohorts, perForecast)
  {
    cap := perForecast;
    var left := cohorts.Keys;
    while left != {}
      invariant left <= cohorts.Keys
      invariant cap >= perForecast
      invariant forall c | c in cohorts && c !in left && FrozenCap(cohorts[c].identity).Some? ::
                  FrozenCap(cohorts[c].identity).value <= cap
      invariant cap == perForecast || exists c | c in cohorts :: FrozenCap(cohorts[c].identity) == Some(cap)
      decreases left
    {
      var c :| c in left;
      var frozen := FrozenCap(cohorts[c].identity);
      if frozen.Some? && frozen.value > cap {
        cap := frozen.value;
      }
      left := left - {c};
    }
    FallbackUnique(cohorts, perForecast, cap, Fallback(cohorts, perForecast));
  }

  /** What an unknown-cost attempt of a cohort is charged at. */
  function CapOf(t: Tables, cohort: CohortId, fallback: real): real {
    if cohort in t.cohorts && FrozenCap(t.cohorts[cohort].identity).Some?
    then FrozenCap(t.cohorts[cohort].identity).value
    else fallback
  }

  function Charged(t: Tables, a: Attempt, fallback: real): real {
    match a.status
    case Started => CapOf(t, a.cohort, fallback)
    case Succeeded(_, cost) => cost
    case Failed(_, cost, _) => cost
  }

  /** WHAT AN ATTEMPT IS CHARGED: its cost once it is closed; until then the cap its cohort's identity states, where
      that is positive, and the fallback otherwise. */
  lemma ChargedMeans(t: Tables, a: Attempt, fallback: real)
    ensures var stated := a.cohort in t.cohorts && t.cohorts[a.cohort].identity.perForecastUsd.Some?
                          && t.cohorts[a.cohort].identity.perForecastUsd.value > 0.0;
            && (a.status != Started ==> Charged(t, a, fallback) == a.status.cost)
            && (a.status == Started && stated ==>
                  Charged(t, a, fallback) == t.cohorts[a.cohort].identity.perForecastUsd.value)
            && (a.status == Started && !stated ==> Charged(t, a, fallback) == fallback)
  {
  }

  /** What an attempt adds to a day's spend. */
  function ChargeOn(t: Tables, day: int, fallback: real): Attempt -> real {
    (a: Attempt) => if DayOf(a.startedAt) == day then Charged(t, a, fallback) else 0.0
  }

  function Spent(t: Tables, day: int, fallback: real): real {
    SumOf(t.attempts, ChargeOn(t, day, fallback))
  }

  /** Entry attempts of the day, whatever became of them. */
  function Entries(attempts: seq<Attempt>, day: int): nat {
    if attempts == [] then 0
    else
      var last := attempts[|attempts| - 1];
      Entries(attempts[..|attempts| - 1], day) + if DayOf(last.startedAt) == day && last.kind == Entry then 1 else 0
  }

  datatype DayUsage = DayUsage(spent: real, entries: nat)

  ghost function UsageOn(t: Tables, day: int, perForecast: real): DayUsage {
    DayUsage(Spent(t, day, Fallback(t.cohorts, perForecast)), Entries(t.attempts, day))
  }

  method ReadDayUsage(conn: Connection, now: int, perForecast: real) returns (usage: DayUsage)
    ensures usage == UsageOn(conn.db, DayOf(now), perForecast)
  {
    var t := conn.db;
    var start := DayOf(now) * DAY;
    var cap := FallbackCap(t.cohorts, perForecast);
    var spent, entries := 0.0, 0;
    for i := 0 to |t.attempts|
      invariant spent == SumOf(t.attempts[..i], ChargeOn(t, DayOf(now), cap))
      invariant entries == Entries(t.attempts[..i], DayOf(now))
    {
      var row := t.attempts[i];
      SumPrefix(t.attempts, i, ChargeOn(t, DayOf(now), cap));
      assert t.attempts[..i + 1][..i] == t.attempts[..i];
      DayBounds(row.startedAt, now);
      if start <= row.startedAt < start + DAY {
        spent := spent + Charged(t, row, cap);
        if row.kind == Entry {
          entries := entries + 1;
        }
      }
    }
    assert t.attempts[..|t.attempts|] == t.attempts;
    usage := DayUsage(spent, entries);
  }

  lemma DayBounds(at: int, now: int)
    ensures DayOf(now) * DAY <= at < DayOf(now) * DAY + DAY <==> DayOf(at) == DayOf(now)
  {
  }

  datatype BudgetRefusal = OverBudget | OverVolume

  function BudgetRefusalOf(usage: DayUsage, daily: real, perForecast: real, maxEntries: nat): Option<BudgetRefusal> {
    if usage.spent + perForecast > daily then Some(OverBudget)
    else if usage.entries >= maxEntries then Some(OverVolume)
    else None
  }

  // ---------- recovery ----------

  /** A STARTED attempt closed as interrupted, at its full cap. */
  function Closed(t: Tables, a: Attempt, fallback: real, now: int): Attempt {
    if a.status == Started then a.(status := Failed(now, CapOf(t, a.cohort, fallback), INTERRUPTED)) else a
  }

  function Recovered(t: Tables, fallback: real, now: int): Tables {
    t.(attempts := seq(|t.attempts|, i requires 0 <= i < |t.attempts| => Closed(t, t.attempts[i], fallback, now)))
  }

  function StartedIds(attempts: seq<Attempt>): (ids: seq<nat>)
    ensures forall i | 0 <= i < |ids| :: ids[i] < |attempts| && attempts[ids[i]].status == Started
    ensures forall k: nat | k < |attempts| && attempts[k].status == Started :: k in ids
    ensures forall i, j | 0 <= i < j < |ids| :: ids[i] < ids[j]
  {
    if attempts == [] then []
    else
      var n := |attempts| - 1;
      StartedIds(attempts[..n]) + if attempts[n].status == Started then [n] else []
  }

  /** The tables once the first `i` interrupted attempts are closed. */
  ghost predicate ClosedSoFar(t: Tables, t': Tables, ids: seq<nat>, i: nat, fallback: real, now: int)
    requires i <= |ids|
  {
    && t' == t.(attempts := t'.attempts) && |t'.attempts| == |t.attempts|
    && forall k: nat | k < |t.attempts| ::
         t'.attempts[k] == if k in ids[..i] then Closed(t, t.attempts[k], fallback, now) else t.attempts[k]
  }

  /** Each interrupted attempt is closed in a transaction of its own. */
  method RecoverInterruptedAttempts(conn: Connection, perForecast: real, now: int)
    returns (recovered: seq<nat>)
    requires perForecast >= 0.0
    modifies conn
    ensures conn.db == Recovered(old(conn.db), Fallback(old(conn.db).cohorts, perForecast), now)
    ensures recovered == StartedIds(old(conn.db).attempts)
  {
    ghost var t := conn.db;
    var ids := StartedIds(conn.db.attempts);
    var cap := FallbackCap(conn.db.cohorts, perForecast);
    recovered := [];
    var i := 0;
    while i < |ids|
      invariant 0 <= i <= |ids| && recovered == ids[..i]
      invariant ClosedSoFar(t, conn.db, ids, i, cap, now)
    {
      var id := ids[i];
      var charge := CapOf(conn.db, conn.db.attempts[id].cohort, cap);
      assert id !in ids[..i];
      assert ids[..i + 1] == ids[..i] + [id];
      var closed := FailAttempt(conn, id, charge, INTERRUPTED, now);
      assert closed.Ok?;
      recovered := recovered + [id];
      i := i + 1;
    }
    assert ids[..|ids|] == ids;
    assert conn.db.attempts == Recovered(t, cap, now).attempts;
  }

  /** RECOVERY IS SPEND-NEUTRAL: no day's spend and no day's entry count changes. */
  lemma RecoveryKeepsUsage(t: Tables, fallback: real, now: int, day: int)
    ensures Spent(Recovered(t, fallback, now), day, fallback) == Spent(t, day, fallback)
    ensures Entries(Recovered(t, fallback, now).attempts, day) == Entries(t.attempts, day)
    ensures forall a | a in Recovered(t, fallback, now).attempts :: a.status != Started
  {
    RecoveryKeepsPrefix(t, fallback, now, day, |t.attempts|);
    var t' := Recovered(t, fallback, now);
    assert t.attempts[..|t.attempts|] == t.attempts && t'.attempts[..|t'.attempts|] == t'.attempts;
  }

  lemma {:induction false} RecoveryKeepsPrefix(t: Tables, fallback: real, now: int, day: int, n: nat)
    requires n <= |t.attempts|
    ensures var t' := Recovered(t, fallback, now);
            && SumOf(t'.attempts[..n], ChargeOn(t', day, fallback))
               == SumOf(t.attempts[..n], ChargeOn(t, day, fallback))
            && Entries(t'.attempts[..n], day) == Entries(t.attempts[..n], day)
  {
    if n != 0 {
      var t' := Recovered(t, fallback, now);
      RecoveryKeepsPrefix(t, fallback, now, day, n - 1);
      SumPrefix(t.attempts, n - 1, ChargeOn(t, day, fallback));
      SumPrefix(t'.attempts, n - 1, ChargeOn(t', day, fallback));
      assert t.attempts[..n][..n - 1] == t.attempts[..n - 1] && t'.attempts[..n][..n - 1] == t'.attempts[..n - 1];
    }
  }

  // ---------- one attempt's effect ----------

  /** One attempt's status replaced. */
  function WithAttempt(t: Tables, k: nat, status: AttemptStatus): Tables
    requires k < |t.attempts|
  {
    t.(attempts := t.attempts[k := t.attempts[k].(status := status)])
  }

  lemma SumAround<T(!new)>(xs: seq<T>, k: nat, x: T, f: T -> real)
    requires k < |xs|
    ensures SumOf(xs[k := x], f) == SumOf(xs, f) - f(xs[k]) + f(x)
  {
    assert xs == xs[..k] + [xs[k]] + xs[k + 1..];
    assert xs[k := x] == xs[..k] + [x] + xs[k + 1..];
    SumAppend(xs[..k] + [xs[k]], xs[k + 1..], f);
    SumAppend(xs[..k] + [x], xs[k + 1..], f);
    SumSnoc(xs[..k], xs[k], f);
    SumSnoc(xs[..k], x, f);
  }

  lemma SameCharges(t: Tables, t': Tables, day: int, fallback: real, attempts: seq<Attempt>)
    requires t'.cohorts == t.cohorts
    ensures SumOf(attempts, ChargeOn(t', day, fallback)) == SumOf(attempts, ChargeOn(t, day, fallback))
  {
    SumCongruent(attempts, ChargeOn(t', day, fallback), ChargeOn(t, day, fallback));
  }

  /** Finishing an attempt changes its own day's spend by its cost less its cap, and no other day's. */
  lemma FinishingChanges(t: Tables, k: nat, status: AttemptStatus, cost: real, day: int, fallback: real)
    requires k < |t.attempts| && t.attempts[k].status == Started
    requires (status.Succeeded? || status.Failed?) && status.cost == cost
    ensures Spent(WithAttempt(t, k, status), day, fallback) ==
            Spent(t, day, fallback) +
            if DayOf(t.attempts[k].startedAt) == day then cost - CapOf(t, t.attempts[k].cohort, fallback) else 0.0
  {
    var t' := WithAttempt(t, k, status);
    SameCharges(t, t', day, fallback, t'.attempts);
    SumAround(t.attempts, k, t'.attempts[k], ChargeOn(t, day, fallback));
  }

  /** FINISHING AT NO MORE THAN THE CAP never raises any day's spend, and only then. */
  lemma FinishingRaisesNothingIff(t: Tables, k: nat, status: AttemptStatus, cost: real, fallback: real)
    requires k < |t.attempts| && t.attempts[k].status == Started
    requires (status.Succeeded? || status.Failed?) && status.cost == cost
    ensures (forall day :: Spent(WithAttempt(t, k, status), day, fallback) <= Spent(t, day, fallback))
            <==> cost <= CapOf(t, t.attempts[k].cohort, fallback)
  {
    forall day
      ensures Spent(WithAttempt(t, k, status), day, fallback) ==
              Spent(t, day, fallback) +
              if DayOf(t.attempts[k].startedAt) == day then cost - CapOf(t, t.attempts[k].cohort, fallback) else 0.0
    {
      FinishingChanges(t, k, status, cost, day, fallback);
    }
    var day := DayOf(t.attempts[k].startedAt);
    assert Spent(WithAttempt(t, k, status), day, fallback) ==
           Spent(t, day, fallback) + cost - CapOf(t, t.attempts[k].cohort, fallback);
  }

  /** Starting an attempt adds its cap to its own day. */
  lemma StartingAdds(t: Tables, a: Attempt, day: int, fallback: real)
    requires a.status == Started
    ensures Spent(t.(attempts := t.attempts + [a]), day, fallback) ==
            Spent(t, day, fallback) + if DayOf(a.startedAt) == day then CapOf(t, a.cohort, fallback) else 0.0
  {
    var t' := t.(attempts := t.attempts + [a]);
    SameCharges(t, t', day, fallback, t'.attempts);
    SumSnoc(t.attempts, a, ChargeOn(t, day, fallback));
  }

  lemma NothingYet(t: Tables, day: int, fallback: real)
    requires forall a | a in t.attempts :: DayOf(a.startedAt) != day
    ensures Spent(t, day, fallback) == 0.0
  {
    SumZero(t.attempts, ChargeOn(t, day, fallback));
  }
}
