/** Resuming unfinished forecasts and deciding the ready ones (src/predict_agent/research_run.py:505-540,
    src/predict_agent/paper.py:240-263). The clock and the order-book client are objects whose methods
    promise no more than the outside world does. */
module Resume {
  import opened Prelude
  import opened PolicyParams
  import opened Policy
  import opened Schema
  import opened Forecasts
  import opened Tickets
  import opened Paper
  import opened Invariants
  import opened Steps
  import opened Reachability
  import opened TradeSteps
  import opened Ledger

  /** Readings never run backwards. */
  class Clock {
    var now: int

    constructor (start: int)
      ensures now == start
    {
      now := start;
    }

    method Read() returns (reading: int)
      modifies this
      ensures old(now) <= now && reading == now
    {
      var passed :| 0 <= passed;
      now := now + passed;
      reading := now;
    }
  }

  /** A book fetch: a snapshot of that market and side with distinct ask prices, stamped with the clock
      once the answer arrived, or a refusal. */
  method FetchBook(clock: Clock, condition: string, side: Side) returns (book: Option<Snapshot>)
    modifies clock
    ensures old(clock.now) <= clock.now
    ensures book.Some? ==> DistinctAsks(book.value) && book.value.condition == condition && book.value.side == side
                           && book.value.fetchedAt == clock.now
  {
    var fetchedAt := clock.Read();
    book := *;
    if book.Some? {
      book := Some(book.value.(condition := condition, side := side, fetchedAt := fetchedAt));
      if !DistinctAsks(book.value) {
        book := None;
      }
    }
  }

  /** Baselines, decisions and books only grow; the rest of what resuming looks at stays. */
  ghost predicate Onward(t: Tables, t': Tables) {
    && t'.forecasts == t.forecasts && t'.cohorts == t.cohorts && t'.portfolios == t.portfolios
    && t'.artifacts == t.artifacts && t.snapshots <= t'.snapshots
    && (forall f | f in t.baselines :: f in t'.baselines && t'.baselines[f] == t.baselines[f])
    && (forall d | d in t.decisions :: d in t'.decisions)
  }

  /** Only decisions were added, with their tickets and debits. */
  ghost predicate OnlyDecides(t: Tables, t': Tables) {
    Onward(t, t') && t'.baselines == t.baselines && t'.snapshots == t.snapshots
  }

  ghost predicate PoliciesReadable(t: Tables) {
    forall p | p in t.portfolios :: PolicyOf(t, t.portfolios[p].policy).Ok?
  }

  lemma OnwardTrans(a: Tables, b: Tables, c: Tables)
    requires Onward(a, b) && Onward(b, c)
    ensures Onward(a, c)
  {
  }

  lemma DecidesTrans(a: Tables, b: Tables, c: Tables)
    requires OnlyDecides(a, b) && OnlyDecides(b, c)
    ensures OnlyDecides(a, c)
  {
  }

  lemma KnownForecast(t: Tables, f: nat)
    requires Inv(t) && f < |t.forecasts|
    ensures ForecastKnown(t, f)
  {
    hide CohortsClean, CashAllClean, TicketsClean, AllFillsClean, DecisionsClean, Supported, ForeignKeys;
    assert ForecastClean(t, f);
  }

  lemma OpenOnward(t: Tables, body: TicketBody, debit: CashEntry, row: DecisionRow)
    ensures OnlyDecides(t, OpenedWith(t, body, debit, row))
  {
  }

  lemma RefuseOnward(t: Tables, p: PortfolioId, f: nat, code: RefusalCode, now: int)
    requires RefusalRecorded(t, p, f, code, now).Ok?
    ensures OnlyDecides(t, RefusalRecorded(t, p, f, code, now).value)
  {
  }

  lemma DecideOnward(t: Tables, p: PortfolioId, f: nat, now: int)
    requires Decided(t, p, f, now).Ok?
    ensures OnlyDecides(t, Decided(t, p, f, now).value.0)
  {
    hide OnlyDecides, Decide, PolicyOf, TicketOpened, RefusalRecorded, Totals;
    DecidesItself(t);
    if (p, f) !in t.decisions {
      if t.cohorts[t.portfolios[p].cohort].status != ActiveCohort {
        RefuseOnward(t, p, f, CohortClosed, now);
      } else {
        var params := PolicyOf(t, t.portfolios[p].policy).value;
        var inputs := LoadInputs(t, p, f, now).value;
        hide LoadInputs;
        match Decide(inputs, params) {
          case Refuse(reason) => RefuseOnward(t, p, f, ByPolicy(reason), now);
          case Trade(_, _, _, _, _, _) =>
            var draft := DraftOf(t, p, f, Decide(inputs, params));
            var debit, row := TicketOpenedShape(t, draft, now);
            OpenOnward(t, OpenedBody(t, draft, now), debit, row);
        }
      }
    }
  }

  lemma ReadableOnward(t: Tables, t': Tables)
    requires Onward(t, t')
    ensures PoliciesReadable(t) <==> PoliciesReadable(t')
  {
  }

  /** One portfolio's decision in a sweep: it raises only where a policy cannot be read. */
  lemma DecideTurn(t: Tables, p: PortfolioId, f: nat, now: int)
    requires Inv(t) && f < |t.forecasts| && f in t.baselines
    requires p in t.portfolios && t.portfolios[p].cohort == t.forecasts[f].body.cohort
             && t.forecasts[f].body.kind == Entry
    ensures Decided(t, p, f, now).Err? ==> !PoliciesReadable(t)
    ensures Decided(t, p, f, now).Ok? ==>
              var t' := Decided(t, p, f, now).value.0;
              Inv(t') && OnlyDecides(t, t') && (p, f) in t'.decisions
  {
    KnownForecast(t, f);
    hide Inv, Decided, OnlyDecides, PolicyOf;
    DecidesIff(t, p, f, now);
    if Decided(t, p, f, now).Ok? {
      DecidedInv(t, p, f, now);
      DecideOnward(t, p, f, now);
    }
  }

  // ---------- trade_ready ----------

  /** Decide every portfolio still undecided on one forecast; false when an unreadable policy raised. */
  method DecideForecast(conn: Connection, clock: Clock, f: nat) returns (ok: bool)
    requires Inv(conn.db) && f < |conn.db.forecasts| && f in conn.db.baselines
    requires conn.db.forecasts[f].body.kind == Entry
    modifies conn, clock
    ensures Inv(conn.db) && OnlyDecides(old(conn.db), conn.db) && old(clock.now) <= clock.now
    ensures ok ==> Undecided(conn.db, f) == {}
    ensures !ok ==> !PoliciesReadable(conn.db)
  {
    hide Inv, PoliciesReadable, Decided;
    var left := Undecided(conn.db, f);
    while left != {}
      invariant Inv(conn.db) && OnlyDecides(old(conn.db), conn.db) && old(clock.now) <= clock.now
      invariant left <= Undecided(old(conn.db), f) && Undecided(conn.db, f) <= left
      decreases left
    {
      var p :| p in left;
      var now := clock.Read();
      DecideTurn(conn.db, p, f, now);
      ghost var before := conn.db;
      var result := DecidePortfolio(conn, p, f, now);
      if result.Err? {
        return false;
      }
      DecidesTrans(old(conn.db), before, conn.db);
      left := left - {p};
    }
    ok := true;
  }

  lemma DecidesItself(t: Tables)
    ensures OnlyDecides(t, t)
  {
  }

  ghost predicate AllKnown(t: Tables) {
    forall f: nat | f < |t.forecasts| :: ForecastKnown(t, f)
  }

  lemma InvAllKnown(t: Tables)
    requires Inv(t)
    ensures AllKnown(t)
  {
    hide Inv;
    forall f: nat | f < |t.forecasts|
      ensures ForecastKnown(t, f)
    {
      KnownForecast(t, f);
    }
  }

  /** The cohort's forecasts among the first `n` that are not DONE. */
  function Unfinished(t: Tables, cohort: CohortId, n: nat): (ids: seq<nat>)
    requires n <= |t.forecasts| && forall f: nat | f < |t.forecasts| :: ForecastKnown(t, f)
    ensures forall i | 0 <= i < |ids| :: ids[i] < n && t.forecasts[ids[i]].body.cohort == cohort && !Finished(t, ids[i])
    ensures forall f: nat | f < n && t.forecasts[f].body.cohort == cohort && !Finished(t, f) :: f in ids
  {
    if n == 0 then []
    else
      Unfinished(t, cohort, n - 1) +
      if t.forecasts[n - 1].body.cohort == cohort && !Finished(t, n - 1) then [n - 1] else []
  }

  /** Nothing is left to decide on this forecast. */
  ghost predicate Ready(t: Tables, f: nat)
    requires f < |t.forecasts|
  {
    f in t.baselines && t.baselines[f].Timely? && t.forecasts[f].body.kind == Entry ==> Undecided(t, f) == {}
  }

  lemma ReadyKept(t: Tables, t': Tables, f: nat)
    requires Onward(t, t') && f < |t.forecasts| && Ready(t, f) && (f in t'.baselines ==> f in t.baselines)
    ensures Ready(t', f)
  {
    if f in t.baselines && t.baselines[f].Timely? && t.forecasts[f].body.kind == Entry {
      assert Undecided(t', f) <= Undecided(t, f);
    }
  }

  lemma FinishedReady(t: Tables, f: nat)
    requires ForecastKnown(t, f) && Finished(t, f)
    ensures Ready(t, f) && f in t.baselines
  {
  }

  /** Every forecast of the cohort is ready. */
  ghost predicate CohortReady(t: Tables, cohort: CohortId) {
    forall f: nat | f < |t.forecasts| && t.forecasts[f].body.cohort == cohort :: Ready(t, f)
  }

  lemma CohortReadyKept(t: Tables, t': Tables, cohort: CohortId)
    requires OnlyDecides(t, t') && CohortReady(t, cohort)
    ensures CohortReady(t', cohort)
  {
    hide Ready;
    forall f: nat | f < |t'.forecasts| && t'.forecasts[f].body.cohort == cohort
      ensures Ready(t', f)
    {
      ReadyKept(t, t', f);
    }
  }

  /** One unfinished forecast of the sweep. */
  method TradeForecast(conn: Connection, clock: Clock, f: nat) returns (ok: bool)
    requires Inv(conn.db) && ForecastKnown(conn.db, f)
    modifies conn, clock
    ensures Inv(conn.db) && OnlyDecides(old(conn.db), conn.db) && old(clock.now) <= clock.now
    ensures if ok then Ready(conn.db, f) else !PoliciesReadable(conn.db)
  {
    hide Inv, PoliciesReadable;
    DecidesItself(conn.db);
    var now := clock.Read();
    ok := true;
    if ResumeStep(conn.db, f, now) == NeedsDecision {
      ok := DecideForecast(conn, clock, f);
    }
  }

  method TradeCohort(conn: Connection, clock: Clock, cohort: CohortId) returns (ok: bool)
    requires Inv(conn.db)
    modifies conn, clock
    ensures Inv(conn.db) && OnlyDecides(old(conn.db), conn.db) && old(clock.now) <= clock.now
    ensures if ok then CohortReady(conn.db, cohort) else !PoliciesReadable(conn.db)
  {
    hide Inv, PoliciesReadable, Ready, Finished;
    InvAllKnown(conn.db);
    DecidesItself(conn.db);
    var ids := Unfinished(conn.db, cohort, |conn.db.forecasts|);
    var i := 0;
    while i < |ids|
      invariant 0 <= i <= |ids|
      invariant Inv(conn.db) && OnlyDecides(old(conn.db), conn.db) && old(clock.now) <= clock.now
      invariant forall k | 0 <= k < i :: Ready(conn.db, ids[k])
    {
      var f := ids[i];
      ghost var before := conn.db;
      KnownForecast(conn.db, f);
      ok := TradeForecast(conn, clock, f);
      DecidesTrans(old(conn.db), before, conn.db);
      if !ok {
        return;
      }
      forall k | 0 <= k < i
        ensures Ready(conn.db, ids[k])
      {
        ReadyKept(before, conn.db, ids[k]);
      }
      i := i + 1;
    }
    forall f: nat | f < |conn.db.forecasts| && conn.db.forecasts[f].body.cohort == cohort
      ensures Ready(conn.db, f)
    {
      if f !in ids {
        assert ForecastKnown(old(conn.db), f);
        FinishedReady(old(conn.db), f);
        ReadyKept(old(conn.db), conn.db, f);
      }
    }
    ok := true;
  }

  /** Decide every entry forecast whose baseline is attached, in every cohort; false when the sweep was
      cut short by an unreadable policy. */
  method TradeReady(conn: Connection, clock: Clock) returns (ok: bool)
    requires Inv(conn.db)
    modifies conn, clock
    ensures Inv(conn.db) && OnlyDecides(old(conn.db), conn.db) && old(clock.now) <= clock.now
    ensures if ok then forall c | c in conn.db.cohorts :: CohortReady(conn.db, c) else !PoliciesReadable(conn.db)
  {
    hide Inv, PoliciesReadable, CohortReady;
    DecidesItself(conn.db);
    var left := conn.db.cohorts.Keys;
    while left != {}
      invariant left <= old(conn.db).cohorts.Keys
      invariant Inv(conn.db) && OnlyDecides(old(conn.db), conn.db) && old(clock.now) <= clock.now
      invariant forall c | c in conn.db.cohorts && c !in left :: CohortReady(conn.db, c)
      decreases left
    {
      var cohort :| cohort in left;
      ghost var before := conn.db;
      ok := TradeCohort(conn, clock, cohort);
      DecidesTrans(old(conn.db), before, conn.db);
      if !ok {
        return;
      }
      forall c | c in conn.db.cohorts && c !in left
        ensures CohortReady(conn.db, c)
      {
        CohortReadyKept(before, conn.db, c);
      }
      left := left - {cohort};
    }
    ok := true;
  }

  // ---------- resume_forecasts ----------

  /** No stored pair of books could be attached. */
  ghost predicate NoPair(t: Tables, f: nat)
    requires ForecastKnown(t, f)
  {
    forall yes: nat, no: nat :: !(TimelySnapshot(t, f, yes, YES) && TimelySnapshot(t, f, no, NO))
  }

  /** From one moment to a later one: new books were fetched in between, and a forecast newly closed
      without a baseline had its window closed, has no attachable pair stored even now, and is decided in
      every portfolio. */
  ghost predicate ClosedFairly(t: Tables, since: int, t': Tables, until: int) {
    && since <= until
    && (forall s: nat | |t.snapshots| <= s < |t'.snapshots| :: since <= t'.snapshots[s].fetchedAt <= until)
    && forall f: nat | f < |t.forecasts| && f !in t.baselines && f in t'.baselines
       && t'.baselines[f].NoTimelyBaseline? ::
         && ForecastKnown(t, f) && Deadline(t, f) < until
         && ForecastKnown(t', f) && NoPair(t', f)
         && (t.forecasts[f].body.kind == Entry ==> Undecided(t', f) == {})
  }

  /** Books fetched after the deadline make no pair. */
  lemma NoPairLater(t: Tables, since: int, t': Tables, f: nat)
    requires Onward(t, t') && ForecastKnown(t, f) && NoPair(t, f) && Deadline(t, f) < since
    requires forall s: nat | |t.snapshots| <= s < |t'.snapshots| :: since <= t'.snapshots[s].fetchedAt
    ensures ForecastKnown(t', f) && NoPair(t', f)
  {
    forall s: nat, side | TimelySnapshot(t', f, s, side)
      ensures TimelySnapshot(t, f, s, side)
    {
      assert s < |t.snapshots| ==> t'.snapshots[s] == t.snapshots[s];
    }
  }

  lemma FairlyTrans(a: Tables, t0: int, b: Tables, t1: int, c: Tables, t2: int)
    requires Onward(a, b) && Onward(b, c) && ClosedFairly(a, t0, b, t1) && ClosedFairly(b, t1, c, t2) && AllKnown(a)
    ensures ClosedFairly(a, t0, c, t2)
  {
    hide NoPair;
    forall s: nat | |a.snapshots| <= s < |c.snapshots|
      ensures t0 <= c.snapshots[s].fetchedAt <= t2
    {
      assert s < |b.snapshots| ==> c.snapshots[s] == b.snapshots[s];
    }
    forall f: nat | f < |a.forecasts| && f !in a.baselines && f in c.baselines && c.baselines[f].NoTimelyBaseline?
      ensures ForecastKnown(a, f) && Deadline(a, f) < t2 && ForecastKnown(c, f) && NoPair(c, f)
      ensures a.forecasts[f].body.kind == Entry ==> Undecided(c, f) == {}
    {
      assert ForecastKnown(a, f) && ForecastKnown(b, f) && Deadline(b, f) == Deadline(a, f);
      if f in b.baselines {
        NoPairLater(b, t1, c, f);
        if a.forecasts[f].body.kind == Entry {
          assert Undecided(c, f) <= Undecided(b, f);
        }
      }
    }
  }

  lemma DecidesFairly(t: Tables, t': Tables, since: int, until: int)
    requires OnlyDecides(t, t') && since <= until
    ensures ClosedFairly(t, since, t', until)
  {
  }

  lemma StoredInv(t: Tables, s: Snapshot, since: int)
    requires Inv(t) && DistinctAsks(s) && since <= s.fetchedAt
    ensures var t' := t.(snapshots := t.snapshots + [s]);
            Inv(t') && Onward(t, t') && t'.baselines == t.baselines && ClosedFairly(t, since, t', s.fetchedAt)
  {
    hide Inv, DistinctAsks;
    StepInv(t, StoreSnapshot(s));
  }

  lemma AttachedInv(t: Tables, f: nat, yes: nat, no: nat, since: int, now: int)
    requires Inv(t) && BaselineAttached(t, f, yes, no, now).Ok? && since <= now
    ensures var t' := BaselineAttached(t, f, yes, no, now).value;
            Inv(t') && Onward(t, t') && ClosedFairly(t, since, t', now) && f in t'.baselines && t'.baselines[f].Timely?
  {
    hide Inv, TimelySnapshot, NoPair, Deadline, Undecided;
    BaselineAttachedInv(t, f, yes, no, now);
  }

  lemma NoPairMarked(t: Tables, f: nat, now: int)
    requires MarkedNoTimely(t, f, now).Ok? && NoPair(t, f)
    ensures ForecastKnown(MarkedNoTimely(t, f, now).value, f) && NoPair(MarkedNoTimely(t, f, now).value, f)
  {
    var t' := MarkedNoTimely(t, f, now).value;
    forall s: nat, side
      ensures TimelySnapshot(t', f, s, side) <==> TimelySnapshot(t, f, s, side)
    {
    }
    hide MarkedNoTimely;
  }

  lemma MarkedOnward(t: Tables, f: nat, since: int, now: int)
    requires MarkedNoTimely(t, f, now).Ok? && NoPair(t, f) && since <= now
    ensures var t' := MarkedNoTimely(t, f, now).value;
            Onward(t, t') && ClosedFairly(t, since, t', now) && f in t'.baselines
  {
    NoPairMarked(t, f, now);
    hide NoPair;
    if t.forecasts[f].body.kind == Entry {
      MarkedDecides(t, f, now);
    }
    hide Undecided;
  }

  lemma MarkedDecides(t: Tables, f: nat, now: int)
    requires MarkedNoTimely(t, f, now).Ok? && t.forecasts[f].body.kind == Entry
    ensures Undecided(MarkedNoTimely(t, f, now).value, f) == {}
  {
    hide Deadline;
  }

  lemma MarkedInv(t: Tables, f: nat, since: int, now: int)
    requires Inv(t) && MarkedNoTimely(t, f, now).Ok? && NoPair(t, f) && since <= now
    ensures var t' := MarkedNoTimely(t, f, now).value;
            Inv(t') && Onward(t, t') && ClosedFairly(t, since, t', now) && f in t'.baselines
  {
    hide Inv, MarkedNoTimely, Onward, ClosedFairly, NoPair;
    MarkedNoTimelyInv(t, f, now);
    MarkedOnward(t, f, since, now);
  }

  /** What every step of the sweep keeps since it began. */
  ghost predicate Resumed(t: Tables, since: int, t': Tables, until: int) {
    Inv(t') && AllKnown(t) && Onward(t, t') && ClosedFairly(t, since, t', until)
  }

  lemma ResumedItself(t: Tables, now: int)
    requires Inv(t)
    ensures Resumed(t, now, t, now)
  {
    InvAllKnown(t);
    hide Inv;
    DecidesItself(t);
    DecidesFairly(t, t, now, now);
  }

  lemma ResumedTrans(a: Tables, t0: int, b: Tables, t1: int, c: Tables, t2: int)
    requires Resumed(a, t0, b, t1) && Resumed(b, t1, c, t2)
    ensures Resumed(a, t0, c, t2)
  {
    hide Inv;
    OnwardTrans(a, b, c);
    FairlyTrans(a, t0, b, t1, c, t2);
  }

  lemma ClockResumes(t: Tables, since: int, later: int)
    requires Inv(t) && since <= later
    ensures Resumed(t, since, t, later)
  {
    InvAllKnown(t);
    hide Inv;
    DecidesItself(t);
    DecidesFairly(t, t, since, later);
  }

  lemma DecidesResumes(t: Tables, t': Tables, since: int, later: int)
    requires Inv(t) && Inv(t') && OnlyDecides(t, t') && since <= later
    ensures Resumed(t, since, t', later)
  {
    InvAllKnown(t);
    hide Inv;
    DecidesFairly(t, t', since, later);
  }

  /** Fetch one side's book and store it. */
  method SnapshotBook(conn: Connection, clock: Clock, condition: string, side: Side) returns (stored: Option<nat>)
    requires Inv(conn.db)
    modifies conn, clock
    ensures Resumed(old(conn.db), old(clock.now), conn.db, clock.now) && conn.db.baselines == old(conn.db).baselines
  {
    hide Inv, DistinctAsks, Resumed;
    InvAllKnown(conn.db);
    var book := FetchBook(clock, condition, side);
    if book.None? {
      ClockResumes(conn.db, old(clock.now), clock.now);
      return None;
    }
    StoredResumes(conn.db, book.value, old(clock.now));
    stored := Some(|conn.db.snapshots|);
    conn.db := conn.db.(snapshots := conn.db.snapshots + [book.value]);
  }

  lemma StoredResumes(t: Tables, s: Snapshot, since: int)
    requires Inv(t) && DistinctAsks(s) && since <= s.fetchedAt
    ensures Resumed(t, since, t.(snapshots := t.snapshots + [s]), s.fetchedAt)
  {
    hide Inv;
    InvAllKnown(t);
    StoredInv(t, s, since);
  }

  lemma AttachResumes(t: Tables, f: nat, yes: nat, no: nat, since: int, now: int)
    requires Inv(t) && since <= now
    ensures match BaselineAttached(t, f, yes, no, now)
            case Ok(t') => Resumed(t, since, t', now) && f in t'.baselines && t'.baselines[f].Timely?
            case Err(_) => Resumed(t, since, t, now)
  {
    hide Inv, BaselineAttached, Onward, ClosedFairly;
    InvAllKnown(t);
    ClockResumes(t, since, now);
    if BaselineAttached(t, f, yes, no, now).Ok? {
      AttachedInv(t, f, yes, no, since, now);
    }
  }

  /** Fetch both books now and attach them. */
  method TakeBaseline(conn: Connection, clock: Clock, f: nat) returns (taken: bool)
    requires Inv(conn.db) && ForecastKnown(conn.db, f)
    modifies conn, clock
    ensures Resumed(old(conn.db), old(clock.now), conn.db, clock.now)
  {
    var condition := conn.db.forecasts[f].body.condition;
    hide Inv, Resumed, ForecastKnown, AllKnown, Onward;
    var yes := SnapshotBook(conn, clock, condition, YES);
    if yes.None? {
      return false;
    }
    ghost var first, firstAt := conn.db, clock.now;
    ResumedInv(old(conn.db), old(clock.now), conn.db, clock.now);
    var no := SnapshotBook(conn, clock, condition, NO);
    ResumedTrans(old(conn.db), old(clock.now), first, firstAt, conn.db, clock.now);
    if no.None? {
      return false;
    }
    ghost var fetched, fetchedAt := conn.db, clock.now;
    ResumedInv(old(conn.db), old(clock.now), conn.db, clock.now);
    taken := AttachNow(conn, clock, f, yes.value, no.value);
    ResumedTrans(old(conn.db), old(clock.now), fetched, fetchedAt, conn.db, clock.now);
  }

  method AttachNow(conn: Connection, clock: Clock, f: nat, yes: nat, no: nat) returns (attached: bool)
    requires Inv(conn.db)
    modifies conn, clock
    ensures Resumed(old(conn.db), old(clock.now), conn.db, clock.now)
    ensures attached ==> f in conn.db.baselines && conn.db.baselines[f].Timely?
  {
    hide Inv, BaselineAttached, Resumed;
    var now := clock.Read();
    AttachResumes(conn.db, f, yes, no, old(clock.now), now);
    var result := AttachBaseline(conn, f, yes, no, now);
    attached := result.Ok?;
  }

  lemma ResumedInv(t: Tables, since: int, t': Tables, until: int)
    requires Resumed(t, since, t', until)
    ensures Inv(t') && AllKnown(t) && Onward(t, t') && since <= until
  {
    hide Inv;
  }

  /** The window has closed: attach what was stored in time, or close the forecast without a baseline. */
  method CloseWindow(conn: Connection, clock: Clock, f: nat) returns (attached: bool)
    requires Inv(conn.db) && ForecastKnown(conn.db, f)
    requires f !in conn.db.baselines && Deadline(conn.db, f) < clock.now
    modifies conn, clock
    ensures Resumed(old(conn.db), old(clock.now), conn.db, clock.now) && f in conn.db.baselines
    ensures attached <==> !NoPair(old(conn.db), f)
    ensures attached <==> conn.db.baselines[f].Timely?
  {
    hide Inv, Onward, ClosedFairly, Deadline;
    InvAllKnown(conn.db);
    var pair := StoredBaseline(conn, f);
    var now := clock.Read();
    if pair.Some? {
      var (yes, no) := pair.value;
      AttachedInv(conn.db, f, yes, no, old(clock.now), now);
      var result := AttachBaseline(conn, f, yes, no, now);
      attached := true;
    } else {
      MarkedInv(conn.db, f, old(clock.now), now);
      var result := MarkNoTimelyBaseline(conn, f, now);
      attached := false;
    }
  }

  /** One unfinished forecast of the resume sweep. */
  method ResumeForecast(conn: Connection, clock: Clock, f: nat) returns (ok: bool)
    requires Inv(conn.db) && ForecastKnown(conn.db, f)
    modifies conn, clock
    ensures Resumed(old(conn.db), old(clock.now), conn.db, clock.now)
    ensures Deadline(old(conn.db), f) < old(clock.now) ==> f in conn.db.baselines
    ensures !ok ==> !PoliciesReadable(conn.db)
  {
    hide Inv, PoliciesReadable, Resumed, Deadline, CohortReady;
    ok := true;
    ResumedItself(conn.db, clock.now);
    var now := clock.Read();
    ghost var before, readAt := conn.db, clock.now;
    ClockResumes(conn.db, old(clock.now), now);
    var step := ResumeStep(conn.db, f, now);
    if step == NeedsBaseline {
      var taken := TakeBaseline(conn, clock, f);
      ResumedTrans(old(conn.db), old(clock.now), before, readAt, conn.db, clock.now);
      if taken {
        ok := SweepAfter(conn, clock, old(conn.db), old(clock.now));
      }
    } else if step == BaselineExpired {
      var attached := CloseWindow(conn, clock, f);
      ResumedTrans(old(conn.db), old(clock.now), before, readAt, conn.db, clock.now);
      if attached {
        ok := SweepAfter(conn, clock, old(conn.db), old(clock.now));
      }
    }
  }

  /** `trade_ready`, after a baseline was attached since `before`. */
  method SweepAfter(conn: Connection, clock: Clock, ghost before: Tables, ghost since: int) returns (ok: bool)
    requires Resumed(before, since, conn.db, clock.now)
    modifies conn, clock
    ensures Resumed(before, since, conn.db, clock.now) && conn.db.baselines == old(conn.db).baselines
    ensures !ok ==> !PoliciesReadable(conn.db)
  {
    hide Inv, PoliciesReadable, Resumed, CohortReady;
    ResumedInv(before, since, conn.db, clock.now);
    ok := TradeReady(conn, clock);
    DecidesResumes(old(conn.db), conn.db, old(clock.now), clock.now);
    ResumedTrans(before, since, old(conn.db), old(clock.now), conn.db, clock.now);
  }

  method ResumeCohort(conn: Connection, clock: Clock, cohort: CohortId) returns (ok: bool)
    requires Inv(conn.db) && AllKnown(conn.db)
    modifies conn, clock
    ensures Resumed(old(conn.db), old(clock.now), conn.db, clock.now)
    ensures ok ==> forall f: nat | f < |conn.db.forecasts| && f < |old(conn.db).forecasts|
                       && conn.db.forecasts[f].body.cohort == cohort && Deadline(old(conn.db), f) < old(clock.now) ::
        f in conn.db.baselines
    ensures !ok ==> !PoliciesReadable(conn.db)
  {
    hide Inv, PoliciesReadable, Resumed, Deadline, Finished;
    ResumedItself(conn.db, clock.now);
    OnwardItself(conn.db);
    var ids := Unfinished(conn.db, cohort, |conn.db.forecasts|);
    var i := 0;
    while i < |ids|
      invariant 0 <= i <= |ids|
      invariant Resumed(old(conn.db), old(clock.now), conn.db, clock.now) && Onward(old(conn.db), conn.db)
      invariant Inv(conn.db) && old(clock.now) <= clock.now
      invariant forall k | 0 <= k < i && Deadline(old(conn.db), ids[k]) < old(clock.now) :: ids[k] in conn.db.baselines
    {
      var f := ids[i];
      ghost var before, since := conn.db, clock.now;
      SameDeadline(old(conn.db), conn.db, f);
      ok := ResumeForecast(conn, clock, f);
      ResumedInv(before, since, conn.db, clock.now);
      ResumedTrans(old(conn.db), old(clock.now), before, since, conn.db, clock.now);
      OnwardTrans(old(conn.db), before, conn.db);
      if !ok {
        return;
      }
      i := i + 1;
    }
    forall f: nat | f < |conn.db.forecasts| && conn.db.forecasts[f].body.cohort == cohort
                    && Deadline(old(conn.db), f) < old(clock.now)
      ensures f in conn.db.baselines
    {
      if f !in ids {
        FinishedReady(old(conn.db), f);
      }
    }
    ok := true;
  }

  lemma OnwardItself(t: Tables)
    ensures Onward(t, t)
  {
  }

  lemma SameDeadline(t: Tables, t': Tables, f: nat)
    requires Onward(t, t') && ForecastKnown(t, f)
    ensures ForecastKnown(t', f) && Deadline(t', f) == Deadline(t, f)
  {
  }

  /** Every forecast of the cohort whose window had closed has a baseline row. */
  ghost predicate CohortBaselined(before: Tables, closedAt: int, t: Tables, cohort: CohortId)
    requires AllKnown(before)
  {
    forall f: nat | f < |before.forecasts| && before.forecasts[f].body.cohort == cohort
      && Deadline(before, f) < closedAt ::
      f in t.baselines
  }

  /** The resume sweep over every cohort: whatever window had closed when it began is closed for good, and
      without a baseline only where no pair is attachable even of the books stored at the end. An
      unreadable policy cuts the sweep short. */
  method ResumeForecasts(conn: Connection, clock: Clock) returns (ok: bool)
    requires Inv(conn.db) && AllKnown(conn.db)
    modifies conn, clock
    ensures Inv(conn.db) && Onward(old(conn.db), conn.db)
            && ClosedFairly(old(conn.db), old(clock.now), conn.db, clock.now)
    ensures ok ==> forall c | c in conn.db.cohorts :: CohortBaselined(old(conn.db), old(clock.now), conn.db, c)
    ensures !ok ==> !PoliciesReadable(conn.db)
  {
    hide Inv, PoliciesReadable, ClosedFairly, Deadline;
    ResumedItself(conn.db, clock.now);
    OnwardItself(conn.db);
    var left := conn.db.cohorts.Keys;
    while left != {}
      invariant left <= old(conn.db).cohorts.Keys
      invariant Resumed(old(conn.db), old(clock.now), conn.db, clock.now) && old(clock.now) <= clock.now
      invariant forall c | c in conn.db.cohorts && c !in left ::
                CohortBaselined(old(conn.db), old(clock.now), conn.db, c)
      decreases left
    {
      var cohort :| cohort in left;
      ghost var before, since := conn.db, clock.now;
      InvAllKnown(conn.db);
      ok := ResumeCohort(conn, clock, cohort);
      ResumedInv(before, since, conn.db, clock.now);
      ResumedTrans(old(conn.db), old(clock.now), before, since, conn.db, clock.now);
      if !ok {
        return;
      }
      BaselinedNow(old(conn.db), before, conn.db, old(clock.now), since, cohort);
      forall c | c in conn.db.cohorts && c !in left
        ensures CohortBaselined(old(conn.db), old(clock.now), conn.db, c)
      {
        BaselinedLater(old(conn.db), before, conn.db, old(clock.now), c);
      }
      left := left - {cohort};
    }
    ok := true;
  }

  lemma BaselinedLater(t: Tables, a: Tables, b: Tables, closedAt: int, cohort: CohortId)
    requires AllKnown(t) && CohortBaselined(t, closedAt, a, cohort) && Onward(a, b)
    ensures CohortBaselined(t, closedAt, b, cohort)
  {
  }

  lemma BaselinedNow(t: Tables, a: Tables, b: Tables, closedAt: int, since: int, cohort: CohortId)
    requires AllKnown(t) && AllKnown(a) && Onward(t, a) && Onward(a, b) && closedAt <= since
    requires forall f: nat | f < |b.forecasts| && b.forecasts[f].body.cohort == cohort && Deadline(a, f) < since ::
               f in b.baselines
    ensures CohortBaselined(t, closedAt, b, cohort)
  {
    forall f: nat | f < |t.forecasts| && t.forecasts[f].body.cohort == cohort && Deadline(t, f) < closedAt
      ensures f in b.baselines
    {
      SameDeadline(t, a, f);
    }
  }
}
