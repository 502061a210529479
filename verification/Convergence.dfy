/** Resuming converges: once every baseline window has closed, one resume sweep and one trade sweep
    finish every forecast of a reachable ledger. */
module Convergence {
  import opened Prelude
  import opened Schema
  import opened Cash
  import opened Cohorts
  import opened Forecasts
  import opened Paper
  import opened Settling
  import opened Invariants
  import opened Steps
  import opened Reachability
  import opened SettleSteps
  import opened Ledger
  import opened Resume

  /** Forecasts closed without a baseline were decided in every portfolio at once. */
  ghost predicate ClosedDecided(t: Tables) {
    forall f: nat | f < |t.forecasts| && f in t.baselines && t.baselines[f].NoTimelyBaseline?
                    && t.forecasts[f].body.kind == Entry :: Undecided(t, f) == {}
  }

  // ---------- it holds of every reachable ledger ----------

  /** No portfolio joins a cohort that has forecasts, and no decision or forecast is lost. */
  ghost predicate KeepsDecided(t: Tables, t': Tables) {
    && t.forecasts <= t'.forecasts
    && (forall p | p in t'.portfolios && p !in t.portfolios :: t'.portfolios[p].cohort !in t.cohorts)
    && (forall p | p in t'.portfolios && p in t.portfolios :: t'.portfolios[p] == t.portfolios[p])
    && (forall d | d in t.decisions :: d in t'.decisions)
    && (forall f | f in t'.baselines && f !in t.baselines && t'.baselines[f].NoTimelyBaseline? ::
          f < |t'.forecasts| && (t'.forecasts[f].body.kind == Update || Undecided(t', f) == {}))
    && (forall f | f in t.baselines :: f in t'.baselines && t'.baselines[f] == t.baselines[f])
  }

  lemma DecidedKept(t: Tables, t': Tables)
    requires Inv(t) && ClosedDecided(t) && KeepsDecided(t, t')
    ensures ClosedDecided(t')
  {
    hide CohortsClean, CashAllClean, TicketsClean, AllFillsClean, DecisionsClean, Supported;
    forall f: nat | f < |t'.forecasts| && f in t'.baselines && t'.baselines[f].NoTimelyBaseline?
                    && t'.forecasts[f].body.kind == Entry
      ensures Undecided(t', f) == {}
    {
      if f in t.baselines {
        assert ForecastClean(t, f) && ForecastKnown(t, f);
        assert Undecided(t', f) <= Undecided(t, f);
      }
    }
  }

  /** A step that touches no portfolio, forecast, baseline or decision. */
  lemma StillDecided(t: Tables, t': Tables)
    requires t'.forecasts == t.forecasts && t'.portfolios == t.portfolios && t'.decisions == t.decisions
    requires t'.baselines == t.baselines
    ensures KeepsDecided(t, t')
  {
  }

  lemma OnwardDecided(t: Tables, t': Tables)
    requires Onward(t, t') && t'.baselines == t.baselines
    ensures KeepsDecided(t, t')
  {
  }

  lemma {:induction false} FundedKeeps(t: Tables, c: CohortId, variants: seq<Variant>, bankroll: real, now: int)
    requires Funded(t, c, variants, bankroll, now).Ok?
    ensures var t' := Funded(t, c, variants, bankroll, now).value;
            && t'.forecasts == t.forecasts && t'.baselines == t.baselines && t'.decisions == t.decisions
            && (forall p | p in t.portfolios :: p in t'.portfolios && t'.portfolios[p] == t.portfolios[p])
            && (forall p | p in t'.portfolios && p !in t.portfolios :: t'.portfolios[p].cohort == c)
    decreases |variants|
  {
    if variants != [] {
      var inserted := PortfolioInserted(t, c, variants[0], bankroll);
      var id := PortfolioHash(c, variants[0].name);
      var paid := EntryAppended(inserted, id, Funding, bankroll, None, now).value;
      assert paid == inserted.(cash := paid.cash);
      FundedKeeps(paid, c, variants[1..], bankroll, now);
    }
  }

  lemma RecordedDecided(t: Tables, b: ForecastBody)
    requires ForeignKeys(t) && ForecastRecorded(t, b).Ok?
    ensures KeepsDecided(t, ForecastRecorded(t, b).value)
  {
    hide ForecastError, Undecided;
  }

  lemma AttachedDecided(t: Tables, f: nat, yes: nat, no: nat, now: int)
    requires BaselineAttached(t, f, yes, no, now).Ok?
    ensures KeepsDecided(t, BaselineAttached(t, f, yes, no, now).value)
  {
    hide TimelySnapshot, Undecided;
  }

  lemma MarkedDecided(t: Tables, f: nat, now: int)
    requires MarkedNoTimely(t, f, now).Ok?
    ensures KeepsDecided(t, MarkedNoTimely(t, f, now).value)
  {
    hide Deadline;
    if t.forecasts[f].body.kind == Entry {
      MarkedDecides(t, f, now);
    }
    hide Undecided;
  }

  lemma OpenedDecided(t: Tables, identity: Identity, bankroll: real, now: int)
    requires CohortEnsured(t, identity, bankroll, now).Ok?
    ensures KeepsDecided(t, CohortEnsured(t, identity, bankroll, now).value)
  {
    hide Funded, ValidIdentity, ArtifactsStored, Undecided;
    if CohortHash(identity) !in t.cohorts {
      FundedKeeps(CohortInserted(t, identity, bankroll), CohortHash(identity), identity.portfolios, bankroll, now);
    }
  }

  lemma CreditDecided(t: Tables, k: nat, s: SettlementRow, credit: CashEntry)
    requires k < |t.tickets|
    ensures KeepsDecided(t, SettledWith(t, k, s, credit))
  {
    StillDecided(t, SettledWith(t, k, s, credit));
  }

  lemma SettledDecided(t: Tables, k: nat, now: int)
    requires Supported(t) && k < |t.tickets| && TicketSettled(t, k, now).Ok?
    ensures KeepsDecided(t, TicketSettled(t, k, now).value.0)
  {
    hide TicketSettled, KeepsDecided, Resolves;
    if TicketSettled(t, k, now).value.1 == SettledNow {
      var s, credit := SettledShape(t, k, now);
      CreditDecided(t, k, s, credit);
    } else {
      UnsettledSame(t, k, now);
      StillDecided(t, t);
    }
  }

  lemma OpenKeeps(t: Tables, identity: Identity, bankroll: real, now: int)
    ensures KeepsDecided(t, Apply(t, OpenCohort(identity, bankroll, now)))
  {
    hide KeepsDecided, CohortEnsured, Decided, TicketSettled, ForecastRecorded, BaselineAttached, MarkedNoTimely,
         ArtifactStored, AttemptStarted, AttemptFailed, MarketListed;
    StillDecided(t, t);
    if CohortEnsured(t, identity, bankroll, now).Ok? {
      OpenedDecided(t, identity, bankroll, now);
    }
  }

  lemma RecordKeeps(t: Tables, body: ForecastBody)
    requires ForeignKeys(t)
    ensures KeepsDecided(t, Apply(t, Record(body)))
  {
    hide KeepsDecided, ForeignKeys, ForecastRecorded, CohortEnsured, Decided, TicketSettled, BaselineAttached,
         MarkedNoTimely, ArtifactStored, AttemptStarted, AttemptFailed, MarketListed;
    StillDecided(t, t);
    if ForecastRecorded(t, body).Ok? {
      RecordedDecided(t, body);
    }
  }

  lemma AttachKeeps(t: Tables, f: nat, yes: nat, no: nat, now: int)
    ensures KeepsDecided(t, Apply(t, Attach(f, yes, no, now)))
  {
    hide KeepsDecided, BaselineAttached, CohortEnsured, Decided, TicketSettled, ForecastRecorded, MarkedNoTimely,
         ArtifactStored, AttemptStarted, AttemptFailed, MarketListed;
    StillDecided(t, t);
    if BaselineAttached(t, f, yes, no, now).Ok? {
      AttachedDecided(t, f, yes, no, now);
    }
  }

  lemma MarkKeeps(t: Tables, f: nat, now: int)
    ensures KeepsDecided(t, Apply(t, MarkMissing(f, now)))
  {
    hide KeepsDecided, MarkedNoTimely, CohortEnsured, Decided, TicketSettled, ForecastRecorded, BaselineAttached,
         ArtifactStored, AttemptStarted, AttemptFailed, MarketListed;
    StillDecided(t, t);
    if MarkedNoTimely(t, f, now).Ok? {
      MarkedDecided(t, f, now);
    }
  }

  lemma DecideKeeps(t: Tables, p: PortfolioId, f: nat, now: int)
    ensures KeepsDecided(t, Apply(t, DecideOn(p, f, now)))
  {
    hide KeepsDecided, Decided, CohortEnsured, TicketSettled, ForecastRecorded, BaselineAttached, MarkedNoTimely,
         ArtifactStored, AttemptStarted, AttemptFailed, MarketListed;
    StillDecided(t, t);
    if Decided(t, p, f, now).Ok? {
      DecideOnward(t, p, f, now);
      OnwardDecided(t, Decided(t, p, f, now).value.0);
    }
  }

  lemma SettleKeeps(t: Tables, k: nat, now: int)
    requires Supported(t)
    ensures KeepsDecided(t, Apply(t, Settle(k, now)))
  {
    hide KeepsDecided, Supported, TicketSettled, CohortEnsured, Decided, ForecastRecorded, BaselineAttached,
         MarkedNoTimely, ArtifactStored, AttemptStarted, AttemptFailed, MarketListed;
    StillDecided(t, t);
    if k < |t.tickets| && TicketSettled(t, k, now).Ok? {
      SettledDecided(t, k, now);
    }
  }

  lemma StoreKeeps(t: Tables, kind: ArtifactKind, content: Content)
    ensures KeepsDecided(t, Apply(t, StoreArtifact(kind, content)))
  {
    hide KeepsDecided, CohortEnsured, Decided, TicketSettled, ForecastRecorded, BaselineAttached, MarkedNoTimely;
    StillDecided(t, Apply(t, StoreArtifact(kind, content)));
  }

  lemma AttemptsKeep(t: Tables, attempts: seq<Attempt>)
    ensures KeepsDecided(t, t.(attempts := attempts))
  {
    StillDecided(t, t.(attempts := attempts));
  }

  lemma BeginKeeps(t: Tables, cohort: CohortId, condition: string, kind: Kind, now: int)
    ensures KeepsDecided(t, Committed(t, AttemptStarted(t, cohort, condition, kind, now)))
  {
    hide KeepsDecided;
    AttemptsKeep(t, t.attempts);
    AttemptsKeep(t, t.attempts + [Attempt(cohort, condition, kind, now, Started)]);
  }

  lemma CloseKeeps(t: Tables, attempt: nat, cost: real, error: string, now: int)
    ensures KeepsDecided(t, Committed(t, AttemptFailed(t, attempt, cost, error, now)))
  {
    hide KeepsDecided;
    AttemptsKeep(t, t.attempts);
    if AttemptFailed(t, attempt, cost, error, now).Ok? {
      AttemptsKeep(t, AttemptFailed(t, attempt, cost, error, now).value.attempts);
    }
  }

  lemma AttemptKeeps(t: Tables, op: Op)
    requires op.BeginAttempt? || op.CloseAttempt?
    ensures KeepsDecided(t, Apply(t, op))
  {
    hide KeepsDecided, ArtifactStored, AttemptStarted, AttemptFailed, Committed, CohortEnsured, Decided,
         TicketSettled, ForecastRecorded, BaselineAttached, MarkedNoTimely;
    match op {
      case BeginAttempt(cohort, condition, kind, now) => BeginKeeps(t, cohort, condition, kind, now);
      case CloseAttempt(attempt, cost, error, now) => CloseKeeps(t, attempt, cost, error, now);
      case _ =>
    }
  }

  lemma OtherKeeps(t: Tables, op: Op)
    requires op.ListMarket? || op.CompleteDiscovery? || op.StoreSnapshot? || op.Observe?
    ensures KeepsDecided(t, Apply(t, op))
  {
    hide KeepsDecided, ArtifactStored, AttemptStarted, AttemptFailed, CohortEnsured, Decided, TicketSettled,
         ForecastRecorded, BaselineAttached, MarkedNoTimely;
    StillDecided(t, Apply(t, op));
  }

  lemma StepKeeps(t: Tables, op: Op)
    requires ForeignKeys(t) && Supported(t)
    ensures KeepsDecided(t, Apply(t, op))
  {
    hide KeepsDecided, ForeignKeys, Supported, Apply;
    match op {
      case OpenCohort(identity, bankroll, now) => OpenKeeps(t, identity, bankroll, now);
      case Record(body) => RecordKeeps(t, body);
      case Attach(f, yes, no, now) => AttachKeeps(t, f, yes, no, now);
      case MarkMissing(f, now) => MarkKeeps(t, f, now);
      case DecideOn(p, f, now) => DecideKeeps(t, p, f, now);
      case Settle(k, now) => SettleKeeps(t, k, now);
      case StoreArtifact(kind, content) => StoreKeeps(t, kind, content);
      case BeginAttempt(_, _, _, _) => AttemptKeeps(t, op);
      case CloseAttempt(_, _, _, _) => AttemptKeeps(t, op);
      case _ => OtherKeeps(t, op);
    }
  }

  lemma {:induction false} RunDecided(t: Tables, ops: seq<Op>)
    requires Inv(t) && ClosedDecided(t) && forall op | op in ops :: Admissible(op)
    ensures ClosedDecided(Run(t, ops))
    decreases |ops|
  {
    if ops != [] {
      StepInv(t, ops[0]);
      StepKeeps(t, ops[0]);
      DecidedKept(t, Apply(t, ops[0]));
      hide Inv, ClosedDecided, Apply;
      RunDecided(Apply(t, ops[0]), ops[1..]);
    }
  }

  // ---------- convergence ----------

  ghost predicate AllFinished(t: Tables) {
    forall f: nat | f < |t.forecasts| :: ForecastKnown(t, f) && Finished(t, f)
  }

  /** Each portfolio has its decision on each of its cohort's entry forecasts; the key of the decisions
      allows no second. */
  ghost predicate EachDecidedOnce(t: Tables) {
    forall f: nat, p | f < |t.forecasts| && t.forecasts[f].body.kind == Entry
                       && p in t.portfolios && t.portfolios[p].cohort == t.forecasts[f].body.cohort ::
      (p, f) in t.decisions
  }

  ghost predicate AllWindowsClosed(t: Tables, now: int) {
    AllKnown(t) && forall f: nat | f < |t.forecasts| :: Deadline(t, f) < now
  }

  lemma DecidedOnward(t: Tables, since: int, t': Tables, until: int)
    requires ClosedDecided(t) && Onward(t, t') && ClosedFairly(t, since, t', until)
    ensures ClosedDecided(t')
  {
    hide NoPair, Deadline;
    forall f: nat | f < |t'.forecasts| && f in t'.baselines && t'.baselines[f].NoTimelyBaseline?
                    && t'.forecasts[f].body.kind == Entry
      ensures Undecided(t', f) == {}
    {
      if f in t.baselines {
        assert Undecided(t', f) <= Undecided(t, f);
      }
    }
  }

  lemma ReadyAll(before: Tables, closedAt: int, resumed: Tables, t: Tables)
    requires AllWindowsClosed(before, closedAt) && AllKnown(t) && Onward(before, t) && ClosedDecided(t)
    requires forall c | c in t.cohorts :: CohortBaselined(before, closedAt, resumed, c)
    requires t.baselines == resumed.baselines
    requires forall c | c in t.cohorts :: CohortReady(t, c)
    ensures AllFinished(t) && EachDecidedOnce(t)
  {
    hide Deadline, ClosedDecided;
    forall f: nat | f < |t.forecasts|
      ensures ForecastKnown(t, f) && f in t.baselines && Ready(t, f)
    {
      var c := t.forecasts[f].body.cohort;
      assert ForecastKnown(t, f);
      assert CohortBaselined(before, closedAt, resumed, c) && CohortReady(t, c);
    }
    forall f: nat | f < |t.forecasts| && t.forecasts[f].body.kind == Entry
      ensures Undecided(t, f) == {}
    {
      assert Ready(t, f);
      ClosedOne(t, f);
    }
    forall f: nat, p | f < |t.forecasts| && t.forecasts[f].body.kind == Entry
                       && p in t.portfolios && t.portfolios[p].cohort == t.forecasts[f].body.cohort
      ensures (p, f) in t.decisions
    {
      assert p !in Undecided(t, f);
    }
  }

  lemma ClosedOne(t: Tables, f: nat)
    requires ClosedDecided(t) && f < |t.forecasts|
    ensures f in t.baselines && t.baselines[f].NoTimelyBaseline? && t.forecasts[f].body.kind == Entry
            ==> Undecided(t, f) == {}
  {
  }

  /** ONE RESUME SWEEP AND ONE TRADE SWEEP leave no forecast unfinished once every window has closed, and
      exactly one decision per portfolio on each entry forecast of its cohort, unless an unreadable policy
      cut one of them short. */
  method ResumeThenTrade(conn: Connection, clock: Clock) returns (ok: bool)
    requires Inv(conn.db) && ClosedDecided(conn.db)
    requires AllWindowsClosed(conn.db, clock.now)
    modifies conn, clock
    ensures Inv(conn.db) && Onward(old(conn.db), conn.db)
    ensures ClosedFairly(old(conn.db), old(clock.now), conn.db, clock.now)
    ensures ok ==> AllFinished(conn.db) && EachDecidedOnce(conn.db)
    ensures PoliciesReadable(old(conn.db)) ==> ok
  {
    hide Inv, PoliciesReadable, ClosedFairly, ClosedDecided, AllFinished, EachDecidedOnce, CohortReady, CohortBaselined;
    ok := ResumeForecasts(conn, clock);
    ReadableOnward(old(conn.db), conn.db);
    if !ok {
      return;
    }
    ghost var resumed, at := conn.db, clock.now;
    ok := TradeReady(conn, clock);
    OnwardTrans(old(conn.db), resumed, conn.db);
    ReadableOnward(old(conn.db), conn.db);
    DecidesFairly(resumed, conn.db, at, clock.now);
    FairlyTrans(old(conn.db), old(clock.now), resumed, at, conn.db, clock.now);
    if !ok {
      return;
    }
    InvAllKnown(conn.db);
    DecidedOnward(old(conn.db), old(clock.now), conn.db, clock.now);
    ReadyAll(old(conn.db), old(clock.now), resumed, conn.db);
  }
}
